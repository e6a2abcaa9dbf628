/**
 Playlists of the MFun streaming app: an ordered list of references to
 library songs, edited by append-if-absent, remove-first and a reorder that
 resolves titles against the library.

 Songs are compared by identity, as the application does. The console
 messages the operations print become results: `RemoveSong` and
 `ReorderSongs` return whether they changed the playlist, `Display` returns
 the numbered lines instead of printing them.
 */
module Playlists {
  import opened Library

  /** One line of the playlist listing: position (from 1), title, artist. */
  datatype Line = Line(position: nat, title: string, artist: string)

  /** The list after `add_song`: `x` appended unless it is already present. */
  function AppendIfAbsent(s: seq<Song>, x: Song): (r: seq<Song>)
    ensures |r| == if x in s then |s| else |s| + 1
    ensures r[..|s|] == s && x in r
    ensures multiset(r) == multiset(s) + if x in s then multiset{} else multiset{x}
    ensures Distinct(s) ==> Distinct(r)
  {
    if x in s then s else s + [x]
  }

  /** Position of the first occurrence of `x` in `s`. */
  function IndexOf(s: seq<Song>, x: Song): (i: nat)
    requires x in s
    ensures i < |s| && s[i] == x && x !in s[..i]
  {
    if s[0] == x then 0 else 1 + IndexOf(s[1..], x)
  }

  /** `list.remove`: the list without the first occurrence of `x`, or the list
      itself when `x` does not occur. */
  function RemoveFirst(s: seq<Song>, x: Song): (r: seq<Song>)
    ensures |r| == if x in s then |s| - 1 else |s|
    ensures x !in s ==> r == s
  {
    if s == [] then []
    else if s[0] == x then s[1..]
    else [s[0]] + RemoveFirst(s[1..], x)
  }

  /** The entry removed is the first occurrence; the entries before it and
      after it keep their order. */
  lemma {:induction false} RemoveFirstAt(s: seq<Song>, x: Song)
    requires x in s
    ensures RemoveFirst(s, x) == s[..IndexOf(s, x)] + s[IndexOf(s, x) + 1..]
  {
    if s[0] != x {
      var j := IndexOf(s[1..], x);
      RemoveFirstAt(s[1..], x);
      assert s[..j + 1] == [s[0]] + s[1..][..j];
      assert s[j + 2..] == s[1..][j + 1..];
    }
  }

  /** Removing takes away exactly one occurrence of a present song and
      keeps every other entry. */
  lemma {:induction false} RemoveFirstRemovesOne(s: seq<Song>, x: Song)
    ensures multiset(RemoveFirst(s, x)) == multiset(s) - multiset{x}
  {
    if s != [] {
      assert s == [s[0]] + s[1..];
      if s[0] != x {
        RemoveFirstRemovesOne(s[1..], x);
        assert RemoveFirst(s, x) == [s[0]] + RemoveFirst(s[1..], x);
      }
    }
  }

  /** From a duplicate-free playlist, removal leaves a duplicate-free playlist
      without the song. */
  lemma RemoveFirstFromDistinct(s: seq<Song>, x: Song)
    requires Distinct(s)
    ensures Distinct(RemoveFirst(s, x)) && x !in RemoveFirst(s, x)
  {
    if x in s {
      var i := IndexOf(s, x);
      var r := RemoveFirst(s, x);
      RemoveFirstAt(s, x);
      assert forall k :: 0 <= k < i ==> r[k] == s[k];
      assert forall k :: i <= k < |r| ==> r[k] == s[k + 1];
    }
  }

  /** The candidate list of `reorder_songs`: the library song for each title,
      in the given order, with titles the library does not hold left out. */
  function Resolve(d: SongDict, titles: seq<string>): (r: seq<Song>)
    ensures |r| <= |titles|
    ensures |r| == |titles| <==> forall t :: t in titles ==> t in d.entries
    ensures forall x :: x in r ==> x in d.entries.Values
    ensures (forall t :: t in titles ==> t in d.entries) ==>
              forall i :: 0 <= i < |r| ==> r[i] == d.entries[titles[i]]
  {
    if titles == [] then []
    else
      match Lookup(d, titles[0])
      case Some(s) => [s] + Resolve(d, titles[1..])
      case None => Resolve(d, titles[1..])
  }

  /** The numbered listing of `s`, numbering from `start`. */
  function Numbered(s: seq<Song>, start: nat): (r: seq<Line>)
    ensures |r| == |s|
    ensures forall i :: 0 <= i < |r| ==> r[i] == Line(start + i, s[i].title, s[i].artist)
  {
    if s == [] then [] else [Line(start, s[0].title, s[0].artist)] + Numbered(s[1..], start + 1)
  }

  /** A named playlist bound to one library. */
  class Playlist {
    const name: string
    var songs: seq<Song>
    const library: MusicLibrary

    constructor (name: string, library: MusicLibrary)
      ensures this.name == name && this.library == library && songs == []
    {
      this.name := name;
      this.library := library;
      songs := [];
    }

    /** Appends `song` unless it is already in the playlist. */
    method AddSong(song: Song)
      modifies this
      ensures songs == AppendIfAbsent(old(songs), song)
    {
      if song !in songs {
        songs := songs + [song];
      }
    }

    /** Removes the first occurrence of `song`; `removed` tells whether it was
        there (`remove_song` prints a notice in that case). */
    method RemoveSong(song: Song) returns (removed: bool)
      modifies this
      ensures removed == (song in old(songs))
      ensures songs == RemoveFirst(old(songs), song)
      ensures removed ==> |songs| == |old(songs)| - 1
      ensures !removed ==> songs == old(songs)
    {
      removed := song in songs;
      if removed {
        songs := RemoveFirst(songs, song);
      }
    }

    /** Replaces the playlist by the songs the titles resolve to, if there are
        exactly as many of them as the playlist has entries; otherwise leaves
        it unchanged. `accepted` tells which happened. */
    method ReorderSongs(newOrder: seq<string>) returns (accepted: bool)
      modifies this
      ensures accepted == (|Resolve(library.songs, newOrder)| == |old(songs)|)
      ensures accepted ==> songs == Resolve(library.songs, newOrder)
      ensures !accepted ==> songs == old(songs)
    {
      var newSongs := Resolve(library.songs, newOrder);
      // `reorder_songs` also requires every candidate to be truthy; a song
      // object always is, and the unresolved titles were already left out.
      accepted := |newSongs| == |songs|;
      if accepted {
        songs := newSongs;
      }
    }

    /** The listing `display_playlist` prints under the playlist's name. */
    function Display(): (r: seq<Line>)
      reads this
      ensures |r| == |songs|
      ensures forall i :: 0 <= i < |r| ==> r[i].position == i + 1
      ensures forall i :: 0 <= i < |r| ==> r[i].title == songs[i].title && r[i].artist == songs[i].artist
    {
      Numbered(songs, 1)
    }
  }

  /** Adding the songs `xs` one after another, first to last. */
  function AppendAll(s: seq<Song>, xs: seq<Song>): seq<Song>
    decreases xs
  {
    if xs == [] then s else AppendAll(AppendIfAbsent(s, xs[0]), xs[1..])
  }

  /** Any sequence of additions keeps the earlier entries in place at the
      front and holds exactly the songs of both; it adds no duplicate, so a
      duplicate-free playlist stays duplicate-free (a duplicate that
      `reorder_songs` let in stays, see `ReorderCanDuplicate`). */
  lemma {:induction false} AppendAllKeepsOrderAndDistinct(s: seq<Song>, xs: seq<Song>)
    ensures |AppendAll(s, xs)| >= |s| && AppendAll(s, xs)[..|s|] == s
    ensures forall x :: x in AppendAll(s, xs) <==> x in s || x in xs
    ensures Distinct(s) ==> Distinct(AppendAll(s, xs))
    decreases xs
  {
    if xs != [] {
      var s' := AppendIfAbsent(s, xs[0]);
      AppendAllKeepsOrderAndDistinct(s', xs[1..]);
      assert AppendAll(s, xs)[..|s|] == AppendAll(s', xs[1..])[..|s'|][..|s|];
      forall x
        ensures x in AppendAll(s, xs) <==> x in s || x in xs
      {
        assert x in xs <==> x == xs[0] || x in xs[1..];
      }
    }
  }

  /** The titles of `s`, in order. */
  function TitlesOf(s: seq<Song>): seq<string>
  {
    seq(|s|, i requires 0 <= i < |s| => s[i].title)
  }

  /** Resolving a concatenation resolves each part in turn. */
  lemma {:induction false} ResolveAppend(d: SongDict, a: seq<string>, b: seq<string>)
    ensures Resolve(d, a + b) == Resolve(d, a) + Resolve(d, b)
  {
    if a == [] {
      assert a + b == b;
    } else {
      assert (a + b)[0] == a[0];
      assert (a + b)[1..] == a[1..] + b;
      ResolveAppend(d, a[1..], b);
    }
  }

  /** A title the library does not hold is skipped: it neither causes a
      rejection nor changes the candidate list. */
  lemma UnknownTitleSkipped(d: SongDict, a: seq<string>, t: string, b: seq<string>)
    requires t !in d.entries
    ensures Resolve(d, a + [t] + b) == Resolve(d, a + b)
  {
    ResolveAppend(d, a + [t], b);
    ResolveAppend(d, a, [t]);
    ResolveAppend(d, a, b);
  }

  /** Rearranging the titles rearranges the candidates in the same way. */
  lemma {:induction false} ResolvePermutation(d: SongDict, a: seq<string>, b: seq<string>)
    requires multiset(a) == multiset(b)
    ensures multiset(Resolve(d, a)) == multiset(Resolve(d, b))
    decreases |a|
  {
    if a != [] {
      var x := a[0];
      assert x in multiset(b);
      var k :| 0 <= k < |b| && b[k] == x;
      var b' := b[..k] + b[k + 1..];
      assert b == b[..k] + [x] + b[k + 1..];
      assert a == [x] + a[1..];
      assert multiset(a) == multiset{x} + multiset(a[1..]);
      assert multiset(b) == multiset(b[..k]) + multiset{x} + multiset(b[k + 1..]);
      assert multiset(b') == multiset(b[..k]) + multiset(b[k + 1..]);
      assert multiset(a[1..]) == multiset(a) - multiset{x};
      assert multiset(b') == multiset(b) - multiset{x};
      ResolvePermutation(d, a[1..], b');
      ResolveAppend(d, [x], a[1..]);
      ResolveAppend(d, b[..k] + [x], b[k + 1..]);
      ResolveAppend(d, b[..k], [x]);
      ResolveAppend(d, b[..k], b[k + 1..]);
    }
  }

  /** Reordering by a permutation of the playlist's own titles, when every
      entry is the library's song for its title, is accepted and yields the
      same songs in the order the titles give. */
  lemma PermutationReorderAccepted(d: SongDict, current: seq<Song>, titles: seq<string>)
    requires forall i :: 0 <= i < |current| ==> current[i].title in d.entries && d.entries[current[i].title] == current[i]
    requires multiset(titles) == multiset(TitlesOf(current))
    ensures forall t :: t in titles ==> t in d.entries
    ensures |Resolve(d, titles)| == |titles| == |current|
    ensures multiset(Resolve(d, titles)) == multiset(current)
    ensures forall i :: 0 <= i < |titles| ==> Resolve(d, titles)[i] == d.entries[titles[i]]
  {
    var own := TitlesOf(current);
    assert Resolve(d, own) == current;
    ResolvePermutation(d, titles, own);
    forall t | t in titles
      ensures t in d.entries
    {
      assert t in multiset(own);
      var i :| 0 <= i < |own| && own[i] == t;
    }
    assert |titles| == |multiset(titles)| == |own|;
  }

  /** The count check lets a repeated title through: for a two-entry playlist
      the titles [t, t] are accepted and leave the song in it twice. */
  lemma ReorderCanDuplicate(d: SongDict, current: seq<Song>, t: string)
    requires |current| == 2 && t in d.entries
    ensures |Resolve(d, [t, t])| == |current|
    ensures Resolve(d, [t, t]) == [d.entries[t], d.entries[t]]
    ensures !Distinct(Resolve(d, [t, t]))
  {
  }
}
