/**
 * The music catalog: an ordered list of named playlists held by one object,
 * with the seven operations that read and replace it. Every change computes
 * a new list from the old one (an append, a filter, or a pass over the
 * playlists that edits the songs of those with a given name), and every
 * error is reported before anything changes.
 */
module Catalog {
  import opened Wrappers
  import opened Songs
  import opened SongOrder

  /** A named, ordered list of songs. Names need not be unique. */
  datatype Playlist = Playlist(name: string, songs: seq<Song>)

  /** The errors the catalog reports, with their messages. */
  datatype Error = PlaylistNotFound | SongNotFound | InvalidCriterion
  {
    /** The text of the thrown error; each error has its own message. */
    function Message(): (m: string)
      ensures m == "Playlist not found" <==> this == PlaylistNotFound
      ensures m == "Song not found" <==> this == SongNotFound
      ensures m == "Invalid sorting criterion" <==> this == InvalidCriterion
    {
      match this
      case PlaylistNotFound => "Playlist not found"
      case SongNotFound => "Song not found"
      case InvalidCriterion => "Invalid sorting criterion"
    }
  }

  /** How an operation that can fail ended. */
  datatype Outcome = Done | Failed(error: Error)

  /** Some playlist carries this name. */
  predicate HasPlaylist(ps: seq<Playlist>, name: string)
  {
    exists i :: 0 <= i < |ps| && ps[i].name == name
  }

  /** The first playlist with this name, or `PlaylistNotFound`. */
  function FindPlaylist(ps: seq<Playlist>, name: string): (r: Result<Playlist, Error>)
    ensures r.Success? <==> HasPlaylist(ps, name)
    ensures r.Failure? ==> r.error == PlaylistNotFound
    ensures r.Success? ==> exists i :: 0 <= i < |ps| && ps[i] == r.value && r.value.name == name
                                       && forall j :: 0 <= j < i ==> ps[j].name != name
  {
    if ps == [] then Failure(PlaylistNotFound)
    else if ps[0].name == name then Success(ps[0])
    else FindPlaylist(ps[1..], name)
  }

  /** The change one pass makes to the songs of each playlist it selects. */
  datatype SongEdit =
    | Append(song: Song)
    | RemoveTitle(title: string)
    | ToggleFavorite(title: string)
    | Sort(criterion: Criterion)

  /**
   * The new songs of one selected playlist. Adding keeps the old songs and
   * puts the song last, unfavourited whatever flag it came with; removal
   * leaves no song of the title; toggling keeps the length; sorting keeps
   * the songs.
   */
  function Apply(e: SongEdit, songs: seq<Song>): (r: seq<Song>)
    ensures e.Append? ==>
      && |r| == |songs| + 1 && r[..|songs|] == songs
      && r[|songs|].title == e.song.title && r[|songs|].artist == e.song.artist
      && r[|songs|].genre == e.song.genre && r[|songs|].duration == e.song.duration
      && !r[|songs|].favorite
    ensures e.RemoveTitle? ==> |r| <= |songs| && !HasTitle(r, e.title)
    ensures e.ToggleFavorite? ==> |r| == |songs|
    ensures e.Sort? ==> multiset(r) == multiset(songs)
  {
    match e
    case Append(s) => songs + [s.(favorite := false)]
    case RemoveTitle(t) => WithoutTitle(songs, t)
    case ToggleFavorite(t) => Toggled(songs, t)
    case Sort(c) => SortBy(songs, c)
  }

  /**
   * One pass over the playlists: every playlist named `name` gets its songs
   * edited by `e`; the others are kept; count, order and names are kept.
   */
  function EditWhere(ps: seq<Playlist>, name: string, e: SongEdit): (r: seq<Playlist>)
    ensures |r| == |ps|
    ensures forall i :: 0 <= i < |ps| ==> r[i].name == ps[i].name
    ensures forall i :: 0 <= i < |ps| ==>
      r[i].songs == if ps[i].name == name then Apply(e, ps[i].songs) else ps[i].songs
  {
    if ps == [] then []
    else
      var head := if ps[0].name == name then Playlist(ps[0].name, Apply(e, ps[0].songs)) else ps[0];
      [head] + EditWhere(ps[1..], name, e)
  }

  /** The playlists whose name differs from `name`, in their original order. */
  function WithoutPlaylist(ps: seq<Playlist>, name: string): (r: seq<Playlist>)
    ensures |r| <= |ps|
    ensures forall p :: p in r <==> p in ps && p.name != name
    ensures !HasPlaylist(r, name)
  {
    if ps == [] then []
    else if ps[0].name == name then WithoutPlaylist(ps[1..], name)
    else [ps[0]] + WithoutPlaylist(ps[1..], name)
  }

  /** The names of the playlists, in order. */
  function Names(ps: seq<Playlist>): seq<string>
  {
    if ps == [] then [] else [ps[0].name] + Names(ps[1..])
  }

  /** The number of songs over all playlists. */
  function SongCount(ps: seq<Playlist>): nat
  {
    if ps == [] then 0 else |ps[0].songs| + SongCount(ps[1..])
  }

  // ---------------------------------------------------------------------------
  // Properties of the operations on values

  /** A playlist appended with a name already present is shadowed by the earlier one. */
  lemma {:induction false} FindAfterCreate(ps: seq<Playlist>, name: string)
    ensures FindPlaylist(ps + [Playlist(name, [])], name)
         == if HasPlaylist(ps, name) then FindPlaylist(ps, name) else Success(Playlist(name, []))
  {
    if ps != [] {
      assert (ps + [Playlist(name, [])])[1..] == ps[1..] + [Playlist(name, [])];
      FindAfterCreate(ps[1..], name);
    }
  }

  /** Removal keeps the relative order of the rest: it distributes over concatenation. */
  lemma {:induction false} WithoutPlaylistAppend(a: seq<Playlist>, b: seq<Playlist>, name: string)
    ensures WithoutPlaylist(a + b, name) == WithoutPlaylist(a, name) + WithoutPlaylist(b, name)
  {
    if a == [] {
      assert a + b == b;
    } else {
      assert (a + b)[0] == a[0];
      assert (a + b)[1..] == a[1..] + b;
      WithoutPlaylistAppend(a[1..], b, name);
    }
  }

  /** Removal is a no-op exactly when no playlist has the name. */
  lemma {:induction false} WithoutPlaylistNoMatch(ps: seq<Playlist>, name: string)
    ensures WithoutPlaylist(ps, name) == ps <==> !HasPlaylist(ps, name)
  {
    if ps != [] {
      WithoutPlaylistNoMatch(ps[1..], name);
      if HasPlaylist(ps[1..], name) {
        var i :| 0 <= i < |ps[1..]| && ps[1..][i].name == name;
        assert ps[i + 1].name == name;
      }
      if HasPlaylist(ps, name) && ps[0].name != name {
        var i :| 0 <= i < |ps| && ps[i].name == name;
        assert ps[1..][i - 1].name == name;
      }
      if ps[0].name == name {
        assert |WithoutPlaylist(ps, name)| < |ps|;
      } else {
        var rest := WithoutPlaylist(ps[1..], name);
        assert ps == [ps[0]] + ps[1..];
        assert [ps[0]] + rest == [ps[0]] + ps[1..] <==> rest == ps[1..];
      }
    }
  }

  /** Removing a playlist twice is the same as removing it once. */
  lemma WithoutPlaylistIdempotent(ps: seq<Playlist>, name: string)
    ensures WithoutPlaylist(WithoutPlaylist(ps, name), name) == WithoutPlaylist(ps, name)
  {
  }

  /** Creating a playlist and then removing that name removes it and nothing else changes. */
  lemma CreateThenRemove(ps: seq<Playlist>, name: string)
    ensures WithoutPlaylist(ps + [Playlist(name, [])], name) == WithoutPlaylist(ps, name)
  {
    WithoutPlaylistAppend(ps, [Playlist(name, [])], name);
    assert WithoutPlaylist([Playlist(name, [])], name) == [];
  }

  /** Every song-level pass keeps the number, order and names of the playlists. */
  lemma {:induction false} EditWhereKeepsNames(ps: seq<Playlist>, name: string, e: SongEdit)
    ensures Names(EditWhere(ps, name, e)) == Names(ps)
  {
    if ps != [] {
      EditWhereKeepsNames(ps[1..], name, e);
      assert EditWhere(ps, name, e)[1..] == EditWhere(ps[1..], name, e);
    }
  }

  /** A pass selecting a name no playlist has changes nothing. */
  lemma EditWhereNoMatch(ps: seq<Playlist>, name: string, e: SongEdit)
    requires !HasPlaylist(ps, name)
    ensures EditWhere(ps, name, e) == ps
  {
  }

  /**
   * Removing the title of a song just added undoes the addition: the result
   * is the same as removing that title from the catalog as it was.
   */
  lemma AddThenRemoveSong(ps: seq<Playlist>, name: string, song: Song)
    ensures EditWhere(EditWhere(ps, name, Append(song)), name, RemoveTitle(song.title))
         == EditWhere(ps, name, RemoveTitle(song.title))
  {
    var added := EditWhere(ps, name, Append(song));
    var lhs := EditWhere(added, name, RemoveTitle(song.title));
    var rhs := EditWhere(ps, name, RemoveTitle(song.title));
    forall i | 0 <= i < |ps| ensures lhs[i] == rhs[i] {
      if ps[i].name == name {
        WithoutTitleAppend(ps[i].songs, [song.(favorite := false)], song.title);
      }
    }
  }

  /** Favouriting the same title in the same playlists twice restores the catalog. */
  lemma FavoriteTwiceRestores(ps: seq<Playlist>, name: string, title: string)
    ensures EditWhere(EditWhere(ps, name, ToggleFavorite(title)), name, ToggleFavorite(title)) == ps
  {
    var once := EditWhere(ps, name, ToggleFavorite(title));
    var twice := EditWhere(once, name, ToggleFavorite(title));
    forall i | 0 <= i < |ps| ensures twice[i] == ps[i] {
      if ps[i].name == name {
        ToggledTwice(ps[i].songs, title);
      }
    }
  }

  /** Favouriting a title no song in the selected playlists carries changes nothing. */
  lemma FavoriteNoMatch(ps: seq<Playlist>, name: string, title: string)
    requires forall i :: 0 <= i < |ps| && ps[i].name == name ==> !HasTitle(ps[i].songs, title)
    ensures EditWhere(ps, name, ToggleFavorite(title)) == ps
  {
    var r := EditWhere(ps, name, ToggleFavorite(title));
    forall i | 0 <= i < |ps| ensures r[i] == ps[i] {
      if ps[i].name == name {
        ToggledNoMatch(ps[i].songs, title);
      }
    }
  }

  /**
   * Removing a title from the playlists named `name` never adds songs, and
   * removes at least one when some selected playlist has a song of that title.
   */
  lemma {:induction false} RemoveSongShrinks(ps: seq<Playlist>, name: string, title: string)
    ensures SongCount(EditWhere(ps, name, RemoveTitle(title))) <= SongCount(ps)
    ensures (exists i :: 0 <= i < |ps| && ps[i].name == name && HasTitle(ps[i].songs, title))
        ==> SongCount(EditWhere(ps, name, RemoveTitle(title))) < SongCount(ps)
  {
    if ps != [] {
      var r := EditWhere(ps, name, RemoveTitle(title));
      RemoveSongShrinks(ps[1..], name, title);
      assert r[1..] == EditWhere(ps[1..], name, RemoveTitle(title));
      if ps[0].name == name {
        WithoutTitleShrinks(ps[0].songs, title);
      }
      if exists i :: 0 <= i < |ps| && ps[i].name == name && HasTitle(ps[i].songs, title) {
        var i :| 0 <= i < |ps| && ps[i].name == name && HasTitle(ps[i].songs, title);
        if i > 0 {
          assert ps[1..][i - 1] == ps[i];
        }
      }
    }
  }

  /**
   * Sorting the playlists named `name` leaves each of them a permutation of
   * its songs, ascending by the criterion, with equal keys in their old order.
   */
  lemma SortSongsOrders(ps: seq<Playlist>, name: string, c: Criterion)
    ensures forall i :: 0 <= i < |ps| && ps[i].name == name ==>
      var songs := EditWhere(ps, name, Sort(c))[i].songs;
      && Sorted(songs, c)
      && multiset(songs) == multiset(ps[i].songs)
      && forall k :: KeyClass(songs, c, k) == KeyClass(ps[i].songs, c, k)
  {
    forall i | 0 <= i < |ps| && ps[i].name == name
      ensures var songs := EditWhere(ps, name, Sort(c))[i].songs;
        && Sorted(songs, c)
        && multiset(songs) == multiset(ps[i].songs)
        && forall k :: KeyClass(songs, c, k) == KeyClass(ps[i].songs, c, k)
    {
      SortBySorted(ps[i].songs, c);
      forall k ensures KeyClass(SortBy(ps[i].songs, c), c, k) == KeyClass(ps[i].songs, c, k) {
        SortByStable(ps[i].songs, c, k);
      }
    }
  }

  // ---------------------------------------------------------------------------
  // The catalog object

  class MusicCatalog {
    /** The playlists, in creation order. */
    var playlists: seq<Playlist>

    /** A new catalog holds no playlists. */
    constructor ()
      ensures playlists == []
    {
      playlists := [];
    }

    /** The current playlists; nothing changes. */
    method GetAllPlaylists() returns (r: seq<Playlist>)
      ensures r == playlists
    {
      r := playlists;
    }

    /** Appends an empty playlist, whether or not the name is taken. */
    method CreatePlaylist(name: string)
      modifies this
      ensures playlists == old(playlists) + [Playlist(name, [])]
    {
      playlists := playlists + [Playlist(name, [])];
    }

    /** Drops every playlist with this name; silently does nothing if there is none. */
    method RemovePlaylist(name: string)
      modifies this
      ensures playlists == WithoutPlaylist(old(playlists), name)
    {
      playlists := WithoutPlaylist(playlists, name);
    }

    /**
     * Appends `song`, unfavourited, to every playlist with this name; fails
     * with `PlaylistNotFound`, changing nothing, when there is none.
     */
    method AddSongToPlaylist(name: string, song: Song) returns (r: Outcome)
      modifies this
      ensures r == if HasPlaylist(old(playlists), name) then Done else Failed(PlaylistNotFound)
      ensures playlists == if r.Done? then EditWhere(old(playlists), name, Append(song)) else old(playlists)
    {
      var found := FindPlaylist(playlists, name);
      if found.Failure? {
        return Failed(found.error);
      }
      playlists := EditWhere(playlists, name, Append(song));
      r := Done;
    }

    /**
     * Removes every song with this title from every playlist with this name.
     * Fails, changing nothing, with `PlaylistNotFound` when there is no such
     * playlist, and with `SongNotFound` when the first one has no such song.
     */
    method RemoveSongFromPlaylist(name: string, title: string) returns (r: Outcome)
      modifies this
      ensures r == if !HasPlaylist(old(playlists), name) then Failed(PlaylistNotFound)
                   else if !HasTitle(FindPlaylist(old(playlists), name).value.songs, title) then Failed(SongNotFound)
                   else Done
      ensures playlists == if r.Done? then EditWhere(old(playlists), name, RemoveTitle(title)) else old(playlists)
      ensures r.Done? ==> SongCount(playlists) < SongCount(old(playlists))
    {
      var found := FindPlaylist(playlists, name);
      if found.Failure? {
        return Failed(found.error);
      }
      if !HasTitle(found.value.songs, title) {
        return Failed(SongNotFound);
      }
      RemoveSongShrinks(playlists, name, title);
      playlists := EditWhere(playlists, name, RemoveTitle(title));
      r := Done;
    }

    /** Flips the favourite flag of every song with this title in every playlist with this name; never fails. */
    method FavoriteSong(name: string, title: string)
      modifies this
      ensures playlists == EditWhere(old(playlists), name, ToggleFavorite(title))
    {
      playlists := EditWhere(playlists, name, ToggleFavorite(title));
    }

    /**
     * Sorts the songs of every playlist with this name by `criterion`. Fails,
     * changing nothing, with `PlaylistNotFound` when there is no such
     * playlist, and otherwise with `InvalidCriterion` when `criterion` is not
     * "title", "artist" or "duration".
     */
    method SortSongs(name: string, criterion: string) returns (r: Outcome)
      modifies this
      ensures r == if !HasPlaylist(old(playlists), name) then Failed(PlaylistNotFound)
                   else if ParseCriterion(criterion).None? then Failed(InvalidCriterion)
                   else Done
      ensures playlists == if r.Done? then EditWhere(old(playlists), name, Sort(ParseCriterion(criterion).value))
                           else old(playlists)
    {
      var found := FindPlaylist(playlists, name);
      if found.Failure? {
        return Failed(found.error);
      }
      var c := ParseCriterion(criterion);
      if c.None? {
        return Failed(InvalidCriterion);
      }
      playlists := EditWhere(playlists, name, Sort(c.value));
      r := Done;
    }
  }
}
