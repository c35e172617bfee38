# Music catalog, modelled in Dafny

This project models the in-memory music catalog built by `musicCatalog` in
`playlist/js/playlist.js`. The catalog holds one piece of state: an ordered
list of playlists. Each playlist has a name and an ordered list of songs. Each
song has a title, an artist, a genre, a duration in seconds and a `favorite`
flag. Seven operations read or replace that list:

- `getAllPlaylists` returns it.
- `createPlaylist` appends an empty playlist; duplicate names are accepted.
- `removePlaylist` drops every playlist with a name; nothing happens if none matches.
- `addSongToPlaylist` appends a song, with `favorite` forced to false, to every playlist with the name.
- `removeSongFromPlaylist` drops every song with a title from every playlist with the name.
- `favoriteSong` flips `favorite` on every song with a title in every playlist with the name.
- `sortSongs` orders the songs of every playlist with the name by title, artist or duration.

Errors are reported before anything changes. `addSongToPlaylist`,
`removeSongFromPlaylist` and `sortSongs` look up the FIRST playlist with the
name and fail with "Playlist not found" when there is none.
`removeSongFromPlaylist` then fails with "Song not found" when that first
playlist has no song with the title. `sortSongs` fails with "Invalid sorting
criterion" when the criterion is not `title`, `artist` or `duration`. The
changes themselves act on EVERY playlist with the name and, for removal and
favouriting, on EVERY song with the title.

Layout:

- `wrappers.dfy` (module `Wrappers`): `Option` and `Result`.
- `songs.dfy` (module `Songs`): the `Song` record, the removal-by-title filter
  `WithoutTitle` and the favourite toggle `Toggled`, with their properties.
- `ordering.dfy` (module `SongOrder`): the criterion, the comparison the
  sort uses, and the sort as a value (`SortBy`), proved to give a sorted,
  stable permutation.
- `catalog.dfy` (module `Catalog`): `Playlist`, the errors, the lookup
  `FindPlaylist`, the one-pass playlist edit `EditWhere` (the four
  `playlists.map(...)` passes, told apart by a `SongEdit` value), the
  playlist filter `WithoutPlaylist`, their properties, and the class
  `MusicCatalog`. That class has the `playlists` field and one method per
  operation. Each failing method returns `Failed(error)` where the source
  throws, and each method's postcondition gives the outcome and the new
  state in terms of the old one.

## Model

| member | source | states |
|---|---|---|
| Catalog.MusicCatalog.constructor | playlist/js/playlist.js:25 | A new catalog holds no playlists. |
| Catalog.MusicCatalog.GetAllPlaylists | playlist/js/playlist.js:39-41 | Returns the current playlists and changes nothing. |
| Catalog.MusicCatalog.CreatePlaylist | playlist/js/playlist.js:47-49 | Appends exactly `Playlist(name, [])` at the end and keeps every earlier playlist; never fails, even for a duplicate name. |
| Catalog.MusicCatalog.RemovePlaylist | playlist/js/playlist.js:55-57 | The new list is the old list without the playlists of that name; never fails. |
| Catalog.MusicCatalog.AddSongToPlaylist | playlist/js/playlist.js:65-76 | Fails with `PlaylistNotFound` and leaves the state unchanged exactly when no playlist has the name; otherwise appends the song, unfavourited, to every playlist with the name. |
| Catalog.MusicCatalog.RemoveSongFromPlaylist | playlist/js/playlist.js:84-98 | Fails with `PlaylistNotFound` when no playlist has the name, else with `SongNotFound` when the first such playlist lacks the title, in both cases changing nothing; otherwise removes the title from every playlist with the name, and the total song count strictly decreases. |
| Catalog.MusicCatalog.FavoriteSong | playlist/js/playlist.js:105-123 | Never fails; the new state is the old one with the title toggled in every playlist with the name. |
| Catalog.MusicCatalog.SortSongs | playlist/js/playlist.js:132-151 | Fails with `PlaylistNotFound` first, then with `InvalidCriterion`, changing nothing in both cases; otherwise sorts the songs of every playlist with the name by the parsed criterion. |
| Catalog.FindPlaylist | playlist/js/playlist.js:27-33 | Succeeds exactly when some playlist has the name, and then returns the first playlist with that name; fails only with `PlaylistNotFound`. |
| Catalog.Error.Message | playlist/js/playlist.js:30-135 | Gives the thrown texts "Playlist not found" (:30), "Song not found" (:87) and "Invalid sorting criterion" (:135), each message belonging to exactly one error. |
| Catalog.FindAfterCreate | playlist/js/playlist.js:27-49 | After a create, lookup finds the new empty playlist only when no earlier playlist had the name; an earlier duplicate shadows it. |
| Catalog.WithoutPlaylist | playlist/js/playlist.js:55-57 | The result holds exactly the playlists whose name differs, is no longer than the input, and has no playlist of that name. |
| Catalog.WithoutPlaylistAppend | playlist/js/playlist.js:56 | Removal distributes over concatenation, so the kept playlists stay in their original order. |
| Catalog.WithoutPlaylistNoMatch | playlist/js/playlist.js:55-57 | Removal leaves the list unchanged exactly when no playlist has the name. |
| Catalog.WithoutPlaylistIdempotent | playlist/js/playlist.js:55-57 | Removing a name twice equals removing it once. |
| Catalog.CreateThenRemove | playlist/js/playlist.js:47-57 | Creating a playlist and removing its name leaves the same list as removing the name alone. |
| Catalog.Apply | playlist/js/playlist.js:67-146 | The new songs of one selected playlist: adding keeps the old songs and puts the song last with its title, artist, genre and duration and `favorite` false whatever it came with (:71); removal leaves no song of the title (:93); toggling keeps the length (:110-118); sorting keeps the same songs (:141-146). |
| Catalog.EditWhere | playlist/js/playlist.js:67-75 | A pass keeps the count, order and names of the playlists, edits the songs of exactly those with the name, and keeps the others unchanged. |
| Catalog.EditWhereKeepsNames | playlist/js/playlist.js:65-151 | Every song-level operation (add, remove song, favourite, sort) keeps the sequence of playlist names. |
| Catalog.EditWhereNoMatch | playlist/js/playlist.js:106-122 | A pass selecting a name no playlist has changes nothing, so favouriting in a missing playlist is a no-op. |
| Catalog.AddThenRemoveSong | playlist/js/playlist.js:65-97 | Removing the title of a song just added gives the same catalog as removing that title without the addition. |
| Catalog.FavoriteTwiceRestores | playlist/js/playlist.js:105-123 | Favouriting the same title in the same playlists twice restores the whole catalog. |
| Catalog.FavoriteNoMatch | playlist/js/playlist.js:105-123 | Favouriting a title that no selected playlist holds changes nothing. |
| Catalog.RemoveSongShrinks | playlist/js/playlist.js:89-97 | Removing a title never adds songs, and removes at least one when a selected playlist holds the title. |
| Catalog.SortSongsOrders | playlist/js/playlist.js:137-150 | Each playlist with the name ends up ascending by the criterion, a permutation of its old songs, with equal keys in their old relative order. |
| Songs.HasTitle | playlist/js/playlist.js:86 | Holds exactly when some song of the list has the title, the test the song lookup makes. |
| Songs.WithoutTitle | playlist/js/playlist.js:93 | The result holds exactly the songs whose title differs and is no longer than the input. |
| Songs.WithoutTitleAppend | playlist/js/playlist.js:93 | Removal by title distributes over concatenation, so the remaining songs keep their order. |
| Songs.WithoutTitleShrinks | playlist/js/playlist.js:86-93 | Removal shortens the songs exactly when one has the title, and is the identity exactly when none has it. |
| Songs.WithoutTitleIdempotent | playlist/js/playlist.js:93 | Removing a title twice equals removing it once. |
| Songs.Toggled | playlist/js/playlist.js:110-118 | Same length and order; title, artist, genre and duration unchanged; `favorite` flipped exactly on the songs with the title. |
| Songs.ToggledTwice | playlist/js/playlist.js:110-118 | Toggling a title twice restores the songs. |
| Songs.ToggledNoMatch | playlist/js/playlist.js:110-118 | Toggling a title that no song has changes nothing. |
| SongOrder.ParseCriterion | playlist/js/playlist.js:134-136 | Accepts exactly "title", "artist" and "duration", each mapped to its own criterion, and rejects every other string. |
| SongOrder.Leq | playlist/js/playlist.js:141-146 | The comparator at most zero: by duration exactly when `x.duration - y.duration <= 0` (:143); songs with equal keys may come in either order. |
| SongOrder.StrLeqReflexive | playlist/js/playlist.js:145 | The string order puts every string at or before itself. |
| SongOrder.StrLeqTotal | playlist/js/playlist.js:145 | Any two strings are comparable. |
| SongOrder.StrLeqTransitive | playlist/js/playlist.js:145 | The string order is transitive. |
| SongOrder.StrLeqAntisymmetric | playlist/js/playlist.js:145 | Strings ordered both ways are equal. |
| SongOrder.LeqTotal | playlist/js/playlist.js:141-146 | Under every criterion any two songs are comparable. |
| SongOrder.LeqTransitive | playlist/js/playlist.js:141-146 | Under every criterion the comparison is transitive. |
| SongOrder.SameKeyIffLeqBoth | playlist/js/playlist.js:141-146 | Two songs compare equal (comparator zero) exactly when each may precede the other. |
| SongOrder.Insert | playlist/js/playlist.js:141 | Insertion adds exactly the one song: the result's multiset is the old one plus the song. |
| SongOrder.SortBy | playlist/js/playlist.js:141-146 | The sorted songs are a permutation of the input. |
| SongOrder.InsertSorted | playlist/js/playlist.js:141-146 | Inserting into a sorted list keeps it sorted. |
| SongOrder.SortBySorted | playlist/js/playlist.js:141-146 | The sorted songs are in ascending order by the criterion. |
| SongOrder.InsertKeyClass | playlist/js/playlist.js:141-146 | Insertion puts the new song first among the songs with its key and keeps the others of each key in order. |
| SongOrder.SortByStable | playlist/js/playlist.js:141-146 | Sorting is stable: for every key, the songs with that key appear in their original relative order. |
| SongOrder.SortTwo | playlist/js/playlist.js:141-146 | Two songs out of order under the criterion swap places when sorted. |

## Left out

- Locale collation: `localeCompare` depends on the platform's collation tables. Titles and artists are compared lexicographically by character code (`StrLeq`), which is a total order. Under a real collation, distinct strings may compare equal or order differently.
- Floating-point durations: `duration` is an `int` of seconds, so the comparator `a.duration - b.duration` becomes integer comparison. NaN and fractional values are not modelled.
- Sort algorithm: the source delegates to the engine's `Array.prototype.sort`. The model specifies the result by a stable insertion sort on values. Sorted order and permutation hold for any correct sort; stability matches engines that sort stably.
- In-place sorting and aliasing: `songs.sort` reorders the array of the playlist it sorts in place, so a caller holding a reference to that array from an earlier `getAllPlaylists` sees a later `sortSongs`. The other five operations build fresh arrays, so earlier references do not see them. `getAllPlaylists` also hands out the live array, so a caller can change the catalog by writing through it without using the seven operations, for example by pushing a playlist, or by pushing a song with `favorite: true` into a playlist's songs. The model keeps playlists as values, assigns a new list on each operation, and returns a copy that cannot write back.
- Return value of `sortSongs`: its doc comment promises the sorted songs, but the body returns nothing. The model follows the body and returns only the outcome.
- Exceptions: a thrown `Error` becomes a `Failed(error)` outcome. `Error.Message` gives the source's message text.
- Dynamic typing: the song argument is a `Song` with exactly five fields. Extra fields, which the source's spread copies through, are not modelled, and nor are non-string names, titles or criteria.
- Uniqueness of names and titles: the source enforces neither, so the model does not assume it. Duplicate playlist names and duplicate song titles are handled as the code does.
- The `export default` line and the factory closure: a catalog is a `MusicCatalog` object created empty.
