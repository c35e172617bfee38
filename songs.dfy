/**
 * Songs, and the two passes the catalog makes over a playlist's songs by
 * title: keeping the songs whose title differs (removal) and flipping the
 * favourite flag of the songs whose title matches.
 */
module Songs {

  /** A track. `duration` is a whole number of seconds. */
  datatype Song = Song(title: string, artist: string, genre: string, duration: int, favorite: bool)

  /** Some song of `songs` has this title (the lookup by title succeeds). */
  predicate HasTitle(songs: seq<Song>, title: string)
    ensures HasTitle(songs, title) <==> exists x :: x in songs && x.title == title
  {
    exists i :: 0 <= i < |songs| && songs[i].title == title
  }

  /** The songs whose title differs from `title`, in their original order. */
  function WithoutTitle(songs: seq<Song>, title: string): (r: seq<Song>)
    ensures |r| <= |songs|
    ensures forall x :: x in r <==> x in songs && x.title != title
  {
    if songs == [] then []
    else if songs[0].title == title then WithoutTitle(songs[1..], title)
    else [songs[0]] + WithoutTitle(songs[1..], title)
  }

  /** Removal keeps the relative order: it distributes over concatenation. */
  lemma {:induction false} WithoutTitleAppend(a: seq<Song>, b: seq<Song>, title: string)
    ensures WithoutTitle(a + b, title) == WithoutTitle(a, title) + WithoutTitle(b, title)
  {
    if a != [] {
      assert (a + b)[0] == a[0];
      assert (a + b)[1..] == a[1..] + b;
      WithoutTitleAppend(a[1..], b, title);
    } else {
      assert a + b == b;
    }
  }

  /** Some song of `songs` has the title exactly when its head or some song of its tail has it. */
  lemma HasTitleCons(songs: seq<Song>, title: string)
    requires songs != []
    ensures HasTitle(songs, title) <==> songs[0].title == title || HasTitle(songs[1..], title)
  {
  }

  /** Removal shrinks the list exactly when some song has the title, and is otherwise the identity. */
  lemma {:induction false} WithoutTitleShrinks(songs: seq<Song>, title: string)
    ensures |WithoutTitle(songs, title)| < |songs| <==> HasTitle(songs, title)
    ensures WithoutTitle(songs, title) == songs <==> !HasTitle(songs, title)
  {
    if songs != [] {
      HasTitleCons(songs, title);
      WithoutTitleShrinks(songs[1..], title);
      if songs[0].title != title {
        var rest := WithoutTitle(songs[1..], title);
        assert WithoutTitle(songs, title) == [songs[0]] + rest;
        assert songs == [songs[0]] + songs[1..];
        assert [songs[0]] + rest == [songs[0]] + songs[1..] <==> rest == songs[1..];
      }
    }
  }

  /** Removing twice removes nothing more. */
  lemma {:induction false} WithoutTitleIdempotent(songs: seq<Song>, title: string)
    ensures WithoutTitle(WithoutTitle(songs, title), title) == WithoutTitle(songs, title)
  {
    WithoutTitleShrinks(WithoutTitle(songs, title), title);
  }

  /** `s` with its favourite flag flipped when its title is `title`. */
  function Flip(s: Song, title: string): Song
  {
    if s.title == title then s.(favorite := !s.favorite) else s
  }

  /**
   * Every song whose title is `title` has its favourite flag flipped; every
   * other field, every other song, the length and the order are unchanged.
   */
  function Toggled(songs: seq<Song>, title: string): (r: seq<Song>)
    ensures |r| == |songs|
    ensures forall i :: 0 <= i < |songs| ==>
      && r[i].title == songs[i].title
      && r[i].artist == songs[i].artist
      && r[i].genre == songs[i].genre
      && r[i].duration == songs[i].duration
      && r[i].favorite == (if songs[i].title == title then !songs[i].favorite else songs[i].favorite)
  {
    if songs == [] then []
    else [Flip(songs[0], title)] + Toggled(songs[1..], title)
  }

  /** Toggling is an involution: doing it twice restores the songs. */
  lemma {:induction false} ToggledTwice(songs: seq<Song>, title: string)
    ensures Toggled(Toggled(songs, title), title) == songs
  {
  }

  /** Toggling a title no song carries changes nothing. */
  lemma {:induction false} ToggledNoMatch(songs: seq<Song>, title: string)
    requires !HasTitle(songs, title)
    ensures Toggled(songs, title) == songs
  {
  }
}
