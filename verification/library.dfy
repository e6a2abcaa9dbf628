/**
 The music library of the MFun streaming app: songs, and a catalogue that
 maps each title to the first song stored under it.

 The catalogue is a Python dictionary, which remembers the order in which its
 keys were first inserted; the queries by artist, album and genre walk its
 values in that order. `SongDict` models such a dictionary as the list of keys
 in insertion order together with the key-to-song map.
 */
module Library {

  datatype Option<T> = None | Some(value: T)

  /** A song. The application never changes a song's attributes once it is
      built, and it compares songs by object identity (the class defines no
      equality), so a song is a reference whose fields are constant. */
  class Song {
    const title: string
    const artist: string
    const album: string
    const genre: string
    /** Length in minutes; carried along but read by no operation. */
    const length: real

    constructor (title: string, artist: string, album: string, genre: string, length: real)
      ensures this.title == title && this.artist == artist && this.album == album
      ensures this.genre == genre && this.length == length
    {
      this.title := title;
      this.artist := artist;
      this.album := album;
      this.genre := genre;
      this.length := length;
    }
  }

  /** The attributes a library query can filter on. */
  datatype Field = Artist | Album | Genre

  function Attribute(s: Song, f: Field): string
  {
    match f
    case Artist => s.artist
    case Album => s.album
    case Genre => s.genre
  }

  ghost predicate Distinct<T>(s: seq<T>)
  {
    forall i, j :: 0 <= i < j < |s| ==> s[i] != s[j]
  }

  /** `a` is `b` with some elements left out, the rest in their original order. */
  ghost predicate IsSubsequence(a: seq<Song>, b: seq<Song>)
  {
    if a == [] then true
    else if b == [] then false
    else if a[0] == b[0] then IsSubsequence(a[1..], b[1..])
    else IsSubsequence(a, b[1..])
  }

  /** A title-keyed dictionary that remembers the insertion order of its keys. */
  datatype SongDict = SongDict(keys: seq<string>, entries: map<string, Song>)

  /** Every key is stored once, the key list and the map agree, and every song
      is stored under its own title. */
  ghost predicate WellFormed(d: SongDict)
  {
    && Distinct(d.keys)
    && (forall t :: t in d.entries <==> t in d.keys)
    && (forall t :: t in d.entries ==> d.entries[t].title == t)
  }

  /** `dict.get(title, None)`. */
  function Lookup(d: SongDict, title: string): Option<Song>
  {
    if title in d.entries then Some(d.entries[title]) else None
  }

  /** `dict.values()`: the stored songs, in the insertion order of their keys. */
  function Values(d: SongDict): (r: seq<Song>)
    requires WellFormed(d)
    ensures forall s :: s in r ==> s.title in d.entries && d.entries[s.title] == s
    ensures forall t :: t in d.entries ==> d.entries[t] in r
    ensures Distinct(r)
  {
    var r := seq(|d.keys|, i requires 0 <= i < |d.keys| => d.entries[d.keys[i]]);
    assert forall t :: t in d.entries ==> r[IndexOfKey(d.keys, t)] == d.entries[t];
    r
  }

  function IndexOfKey(keys: seq<string>, t: string): (i: nat)
    requires t in keys
    ensures i < |keys| && keys[i] == t
  {
    if keys[0] == t then 0 else 1 + IndexOfKey(keys[1..], t)
  }

  /** The store step of `MusicLibrary.add_song`: insert the song under its
      title unless the title is already a key. */
  function PutIfAbsent(d: SongDict, s: Song): (r: SongDict)
    ensures WellFormed(d) ==> WellFormed(r)
    ensures forall t :: Lookup(r, t) == if t == s.title && t !in d.entries then Some(s) else Lookup(d, t)
    ensures s.title in d.entries ==> r == d
    ensures WellFormed(d) && s.title !in d.entries ==> Values(r) == Values(d) + [s]
  {
    if s.title in d.entries then d
    else SongDict(d.keys + [s.title], d.entries[s.title := s])
  }

  /** The songs among `songs` whose attribute `f` equals `value`, in order: the
      list comprehension of the three attribute queries. The ensures pin the
      result down only for a duplicate-free input, which `Values` always is;
      `MatchingAppend` characterises it for any input, one song at a time. */
  function Matching(songs: seq<Song>, f: Field, value: string): (r: seq<Song>)
    ensures forall x :: x in r ==> x in songs && Attribute(x, f) == value
    ensures forall x :: x in songs && Attribute(x, f) == value ==> x in r
    ensures IsSubsequence(r, songs)
  {
    if songs == [] then []
    else if Attribute(songs[0], f) == value then [songs[0]] + Matching(songs[1..], f, value)
    else Matching(songs[1..], f, value)
  }

  /** The library: a dictionary from song title to song. */
  class MusicLibrary {
    var songs: SongDict

    ghost predicate Valid()
      reads this
    {
      WellFormed(songs)
    }

    constructor ()
      ensures Valid() && songs.keys == [] && songs.entries == map[]
    {
      songs := SongDict([], map[]);
    }

    /** Stores `song` under its title only when the title is not yet a key:
        the first song added under a title stays. */
    method AddSong(song: Song)
      requires Valid()
      modifies this
      ensures Valid()
      ensures songs == PutIfAbsent(old(songs), song)
      ensures song.title in old(songs.entries) ==> songs == old(songs)
      ensures GetSongsByTitle(song.title) ==
                if song.title in old(songs.entries) then Some(old(songs.entries)[song.title]) else Some(song)
    {
      if song.title !in songs.entries {
        songs := SongDict(songs.keys + [song.title], songs.entries[song.title := song]);
      }
    }

    function GetSongsByArtist(artist: string): (r: seq<Song>)
      reads this
      requires Valid()
      ensures forall s :: s in r ==> s in Values(songs) && s.artist == artist
      ensures forall s :: s in Values(songs) && s.artist == artist ==> s in r
      ensures IsSubsequence(r, Values(songs))
    {
      Matching(Values(songs), Artist, artist)
    }

    function GetSongsByAlbum(album: string): (r: seq<Song>)
      reads this
      requires Valid()
      ensures forall s :: s in r ==> s in Values(songs) && s.album == album
      ensures forall s :: s in Values(songs) && s.album == album ==> s in r
      ensures IsSubsequence(r, Values(songs))
    {
      Matching(Values(songs), Album, album)
    }

    function GetSongsByGenre(genre: string): (r: seq<Song>)
      reads this
      requires Valid()
      ensures forall s :: s in r ==> s in Values(songs) && s.genre == genre
      ensures forall s :: s in Values(songs) && s.genre == genre ==> s in r
      ensures IsSubsequence(r, Values(songs))
    {
      Matching(Values(songs), Genre, genre)
    }

    /** The song stored under `title`, or `None` when no song has that title. */
    function GetSongsByTitle(title: string): (r: Option<Song>)
      reads this
      requires Valid()
      ensures r.None? <==> title !in songs.keys
      ensures r.Some? ==> r.value.title == title && r.value in Values(songs)
    {
      Lookup(songs, title)
    }
  }

  /** Songs are compared by identity, but within one library a title picks
      out one song, so for stored songs the two notions agree. */
  lemma SameTitleSameSong(d: SongDict, x: Song, y: Song)
    requires WellFormed(d) && x in Values(d) && y in Values(d)
    ensures x.title == y.title <==> x == y
  {
  }

  /** Adding the songs `ss` one after another, first to last. */
  function StoreAll(d: SongDict, ss: seq<Song>): SongDict
    decreases ss
  {
    if ss == [] then d else StoreAll(PutIfAbsent(d, ss[0]), ss[1..])
  }

  /** The first song in `ss` titled `t`: an independent statement of which
      song a sequence of additions leaves under a title. */
  function FirstTitled(ss: seq<Song>, t: string): Option<Song>
  {
    if ss == [] then None
    else if ss[0].title == t then Some(ss[0])
    else FirstTitled(ss[1..], t)
  }

  /** Adding a song whose title is already stored, again or with other
      metadata, changes nothing: repeating an addition is idempotent. */
  lemma AddSongIdempotent(d: SongDict, s: Song, s': Song)
    requires s'.title == s.title
    ensures PutIfAbsent(PutIfAbsent(d, s), s') == PutIfAbsent(d, s)
  {
  }

  /** First write wins: after any sequence of additions, a title already
      stored keeps its song, and a new title holds the first song added
      under it; a title never added is absent. */
  lemma {:induction false} StoreAllFirstWriteWins(d: SongDict, ss: seq<Song>, t: string)
    ensures Lookup(StoreAll(d, ss), t) == if t in d.entries then Lookup(d, t) else FirstTitled(ss, t)
    decreases |ss|
  {
    if ss != [] {
      StoreAllFirstWriteWins(PutIfAbsent(d, ss[0]), ss[1..], t);
    }
  }

  /** After a new song is added, each attribute query returns what it
      returned before, followed by the new song when it matches: results
      follow insertion order. */
  lemma {:induction false} MatchingAppend(songs: seq<Song>, s: Song, f: Field, value: string)
    ensures Matching(songs + [s], f, value) ==
              Matching(songs, f, value) + (if Attribute(s, f) == value then [s] else [])
  {
    if songs != [] {
      assert (songs + [s])[1..] == songs[1..] + [s];
      MatchingAppend(songs[1..], s, f, value);
    }
  }

  lemma AddThenQuery(d: SongDict, s: Song, f: Field, value: string)
    requires WellFormed(d) && s.title !in d.entries
    ensures Matching(Values(PutIfAbsent(d, s)), f, value) ==
              Matching(Values(d), f, value) + (if Attribute(s, f) == value then [s] else [])
  {
    MatchingAppend(Values(d), s, f, value);
  }
}
