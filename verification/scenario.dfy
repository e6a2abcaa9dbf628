/**
 Two scenarios of the library and playlist operations on three songs, with the
 listings they produce: add A, B, C, reorder to C, A, B and remove A; and a
 reorder that the count check lets through although it names an unknown
 title and repeats a song.
 */
module Scenarios {
  import opened Library
  import opened Playlists

  /** A library holding songs A, B and C, by artists x, y and z. */
  method BuildLibrary() returns (library: MusicLibrary, a: Song, b: Song, c: Song)
    ensures fresh(library)
    ensures a.title == "A" && b.title == "B" && c.title == "C"
    ensures a.artist == "x" && b.artist == "y" && c.artist == "z"
    ensures library.songs.entries == map["A" := a, "B" := b, "C" := c]
  {
    library := new MusicLibrary();
    a := new Song("A", "x", "p", "g", 3.0);
    b := new Song("B", "y", "p", "g", 4.0);
    c := new Song("C", "z", "q", "h", 5.0);
    library.AddSong(a);
    library.AddSong(b);
    library.AddSong(c);
  }

  /** A playlist on `library` to which A, B and C are added in that order,
      and its listing. */
  method BuildPlaylist(library: MusicLibrary, a: Song, b: Song, c: Song) returns (p: Playlist, added: seq<Line>)
    requires a.title == "A" && b.title == "B" && c.title == "C"
    requires a.artist == "x" && b.artist == "y" && c.artist == "z"
    ensures fresh(p) && p.library == library && p.songs == [a, b, c]
    ensures added == [Line(1, "A", "x"), Line(2, "B", "y"), Line(3, "C", "z")]
  {
    p := new Playlist("mix", library);
    p.AddSong(a);
    p.AddSong(b);
    p.AddSong(c);
    added := p.Display();
  }

  lemma ResolveCAB(d: SongDict, a: Song, b: Song, c: Song)
    requires d.entries == map["A" := a, "B" := b, "C" := c]
    ensures Resolve(d, ["C", "A", "B"]) == [c, a, b]
  {
    assert ["C", "A", "B"][1..] == ["A", "B"];
    assert ["A", "B"][1..] == ["B"];
  }

  /** Reorders the playlist A, B, C to C, A, B and lists it. */
  method ReorderToCAB(p: Playlist, a: Song, b: Song, c: Song) returns (reordered: seq<Line>)
    requires p.library.songs.entries == map["A" := a, "B" := b, "C" := c] && p.songs == [a, b, c]
    requires a.title == "A" && b.title == "B" && c.title == "C"
    requires a.artist == "x" && b.artist == "y" && c.artist == "z"
    modifies p
    ensures p.songs == [c, a, b]
    ensures reordered == [Line(1, "C", "z"), Line(2, "A", "x"), Line(3, "B", "y")]
  {
    ResolveCAB(p.library.songs, a, b, c);
    var ok := p.ReorderSongs(["C", "A", "B"]);
    assert p.songs == [c, a, b];
    reordered := p.Display();
  }

  lemma RemoveA(a: Song, b: Song, c: Song)
    requires a != b && b != c && a != c
    ensures RemoveFirst([c, a, b], a) == [c, b]
  {
    assert [c, a, b][1..] == [a, b];
  }

  /** Adding A, B, C lists them as 1, 2, 3; reordering to C, A, B lists them
      in that order; removing A closes the gap. */
  method EndToEnd() returns (added: seq<Line>, reordered: seq<Line>, removed: seq<Line>)
    ensures added == [Line(1, "A", "x"), Line(2, "B", "y"), Line(3, "C", "z")]
    ensures reordered == [Line(1, "C", "z"), Line(2, "A", "x"), Line(3, "B", "y")]
    ensures removed == [Line(1, "C", "z"), Line(2, "B", "y")]
  {
    var library, a, b, c := BuildLibrary();
    var p;
    p, added := BuildPlaylist(library, a, b, c);
    reordered := ReorderToCAB(p, a, b, c);
    RemoveA(a, b, c);
    var gone := p.RemoveSong(a);
    assert p.songs == [c, b];
    removed := p.Display();
  }

  lemma ResolveWithUnknown(d: SongDict, a: Song, b: Song, c: Song)
    requires d.entries == map["A" := a, "B" := b, "C" := c]
    ensures Resolve(d, ["A", "Z", "A", "B"]) == [a, a, b]
  {
    assert ["A", "Z", "A", "B"][1..] == ["Z", "A", "B"];
    assert ["Z", "A", "B"][1..] == ["A", "B"];
    assert ["A", "B"][1..] == ["B"];
  }

  /** On the playlist A, B, C the titles A, Z, A, B are accepted: Z, which the
      library does not hold, is skipped, the three songs left match the
      playlist's length, and A now appears twice. */
  method CountOnlyReorder() returns (accepted: bool, listed: seq<Line>)
    ensures accepted
    ensures listed == [Line(1, "A", "x"), Line(2, "A", "x"), Line(3, "B", "y")]
  {
    var library, a, b, c := BuildLibrary();
    var p, added := BuildPlaylist(library, a, b, c);
    ResolveWithUnknown(library.songs, a, b, c);
    accepted := p.ReorderSongs(["A", "Z", "A", "B"]);
    assert p.songs == [a, a, b];
    listed := p.Display();
  }
}
