# MFun music library and playlists, modelled in Dafny

A Dafny model of the music library and playlist manager of the MFun
streaming-app exercise (`MusicStreamingApp/musicstreamingapp.py`), with
proofs of what its operations promise.

- `library.dfy`, module `Library`: `Song`, a class with constant fields
  compared by identity, as the Python class is (it defines no `__eq__`).
  `SongDict` is a title-keyed dictionary that keeps its keys in insertion
  order, as a Python `dict` does. `MusicLibrary` is a class whose `songs`
  field holds such a dictionary. `AddSong` inserts only when the title is
  absent, so the first write wins. The queries by artist, album and genre
  filter the stored songs in insertion order. The query by title returns
  `None` for an unknown title.
- `playlist.dfy`, module `Playlists`: `Playlist` is a class holding a name,
  an ordered `seq<Song>` of references and its library. `AddSong` appends
  only if the song is absent. `RemoveSong` removes the first occurrence.
  `ReorderSongs` resolves a list of titles against the library. It replaces
  the playlist only when the number of resolved songs equals the playlist's
  length. `Display` returns the 1-numbered listing.
- `scenario.dfy`, module `Scenarios`: two concrete scenarios over the
  classes. The first adds A, B and C, reorders them and removes one. The second
  shows a reorder that the count check lets through.

The exercise's own requirements (the docstring at
`MusicStreamingApp/musicstreamingapp.py:1-19`) ask that a song cannot be
added twice to one playlist. An idealised design would also identify songs
by title and reject a reorder that names an unknown title. Where the code
does otherwise, the model follows the code:

- Songs are compared by identity, not by title. `SameTitleSameSong` proves
  that this makes no difference for songs stored in one library.
- `reorder_songs` does not reject an unknown title: it skips it. The
  `all(new_songs)` test always holds, because every song object is truthy
  and the comprehension already dropped the unresolved titles. Only the
  count is compared. So a list with an unknown title is accepted when the
  titles that do resolve have the right count. A repeated title, or a
  library song that is not in the playlist, is accepted too, and the
  playlist can then hold a song twice. `UnknownTitleSkipped`,
  `ReorderCanDuplicate` and `Scenarios.CountOnlyReorder` state this. No
  lemma claims that reordering keeps a playlist free of duplicates.

## Model

| member | source | states |
|---|---|---|
| `Library.Song.constructor` | MusicStreamingApp/musicstreamingapp.py:23-29 | a new song carries exactly the given title, artist, album, genre and length |
| `Library.MusicLibrary.constructor` | MusicStreamingApp/musicstreamingapp.py:33-34 | a new library is empty and well formed |
| `Library.PutIfAbsent` | MusicStreamingApp/musicstreamingapp.py:36-38 | storing keeps the dictionary well formed; a lookup afterwards gives the new song only for a title that was absent, and every other lookup is unchanged; a present title leaves the dictionary identical; a new song goes to the end of the values |
| `Library.MusicLibrary.AddSong` | MusicStreamingApp/musicstreamingapp.py:36-38 | the library stays valid; its new state is the insert-if-absent of the old one; with the title already present nothing changes; the title then looks up to the earlier song if there was one, otherwise to the song just added |
| `Library.AddSongIdempotent` | MusicStreamingApp/musicstreamingapp.py:36-38 | adding again under a title already added, whatever the metadata, changes nothing |
| `Library.StoreAllFirstWriteWins` | MusicStreamingApp/musicstreamingapp.py:36-38 | after any sequence of additions, a stored title keeps its song; a new title holds the first song added under it; a title never added looks up to `None` |
| `Library.SameTitleSameSong` | MusicStreamingApp/musicstreamingapp.py:36-38 | two songs stored in one library have the same title exactly when they are the same object |
| `Library.Matching` | MusicStreamingApp/musicstreamingapp.py:40-47 | the filter returns only songs of its input whose attribute equals the query, misses none of them, and keeps their order |
| `Library.MusicLibrary.GetSongsByArtist` | MusicStreamingApp/musicstreamingapp.py:40-41 | every stored song by the artist is returned, nothing else is, in insertion order |
| `Library.MusicLibrary.GetSongsByAlbum` | MusicStreamingApp/musicstreamingapp.py:43-44 | every stored song on the album is returned, nothing else is, in insertion order |
| `Library.MusicLibrary.GetSongsByGenre` | MusicStreamingApp/musicstreamingapp.py:46-47 | every stored song of the genre is returned, nothing else is, in insertion order |
| `Library.MatchingAppend` | MusicStreamingApp/musicstreamingapp.py:40-47 | filtering a list with one more song at the end gives the old result, followed by that song if it matches |
| `Library.AddThenQuery` | MusicStreamingApp/musicstreamingapp.py:36-47 | after a new title is added, each attribute query gives its old answer, with the new song appended when it matches |
| `Library.MusicLibrary.GetSongsByTitle` | MusicStreamingApp/musicstreamingapp.py:49-50 | the result is `None` exactly when the title is not a key; otherwise it is a stored song with that title |
| `Playlists.Playlist.constructor` | MusicStreamingApp/musicstreamingapp.py:54-57 | a new playlist has the given name and library, and no songs |
| `Playlists.AppendIfAbsent` | MusicStreamingApp/musicstreamingapp.py:59-61 | the length grows by one exactly when the song was absent; the old entries stay in front in their order; the song is present afterwards; the contents grow by that song only; a duplicate-free list stays duplicate-free |
| `Playlists.Playlist.AddSong` | MusicStreamingApp/musicstreamingapp.py:59-61 | the new list is the old one with the song appended if it was absent |
| `Playlists.AppendAllKeepsOrderAndDistinct` | MusicStreamingApp/musicstreamingapp.py:59-61 | after any sequence of additions, the earlier entries stay at the front and the list holds exactly the old and the added songs; from a duplicate-free list, the result has no duplicates (a duplicate left by a reorder stays) |
| `Playlists.RemoveFirst` | MusicStreamingApp/musicstreamingapp.py:63-65 | the length drops by one exactly when the song was present; an absent song leaves the list unchanged |
| `Playlists.RemoveFirstAt` | MusicStreamingApp/musicstreamingapp.py:63-65 | the entry removed is the first occurrence; the entries before and after it keep their order |
| `Playlists.RemoveFirstRemovesOne` | MusicStreamingApp/musicstreamingapp.py:63-65 | removal takes exactly one occurrence of the song out of the contents |
| `Playlists.RemoveFirstFromDistinct` | MusicStreamingApp/musicstreamingapp.py:63-65 | from a duplicate-free list, the song is gone afterwards and the list stays duplicate-free |
| `Playlists.Playlist.RemoveSong` | MusicStreamingApp/musicstreamingapp.py:63-66 | reports whether the song was present; removes its first occurrence, so the length drops by one; an absent song leaves the list unchanged |
| `Playlists.Resolve` | MusicStreamingApp/musicstreamingapp.py:69 | the candidates are library songs; there are as many as titles exactly when every title resolves; then the i-th candidate is the library's song for the i-th title |
| `Playlists.ResolveAppend` | MusicStreamingApp/musicstreamingapp.py:69 | resolving two title lists one after the other gives the two candidate lists one after the other |
| `Playlists.UnknownTitleSkipped` | MusicStreamingApp/musicstreamingapp.py:69 | a title the library does not hold, anywhere in the list, leaves the candidates unchanged |
| `Playlists.ResolvePermutation` | MusicStreamingApp/musicstreamingapp.py:69 | titles that are a rearrangement of each other resolve to candidates that are a rearrangement of each other |
| `Playlists.Playlist.ReorderSongs` | MusicStreamingApp/musicstreamingapp.py:68-76 | accepted exactly when the candidate count equals the playlist's length; then the playlist becomes the candidates, otherwise it is unchanged |
| `Playlists.PermutationReorderAccepted` | MusicStreamingApp/musicstreamingapp.py:68-76 | if every entry is the library's song for its title, a rearrangement of the playlist's own titles is accepted; the result holds the same songs, in the order the titles give |
| `Playlists.ReorderCanDuplicate` | MusicStreamingApp/musicstreamingapp.py:68-76 | for any two-entry playlist, one library title given twice is accepted and leaves that song in the playlist twice |
| `Playlists.Numbered` | MusicStreamingApp/musicstreamingapp.py:82-83 | one line per entry, in list order, numbered consecutively from the start value, with that entry's title and artist |
| `Playlists.Playlist.Display` | MusicStreamingApp/musicstreamingapp.py:80-83 | the listing has one line per entry, in list order, numbered 1 to the length, each with that entry's title and artist |
| `Scenarios.EndToEnd` | MusicStreamingApp/musicstreamingapp.py:32-83 | with songs A, B, C added to the library and the playlist, the listing is A, B, C; after reordering to C, A, B it is C, A, B; after removing A it is C, B |
| `Scenarios.CountOnlyReorder` | MusicStreamingApp/musicstreamingapp.py:68-76 | on the playlist A, B, C, the titles A, Z, A, B (Z unknown) are accepted, and the listing becomes A, A, B |

## Left out

- The console front end `main()` is not modelled: the menu loop, `input`, the `int()` and `float()` parsing, the comma split of the reorder titles, and the lookup of a playlist by name among the created playlists. The model's operations take the values that front end would pass.
- Printed messages are not modelled. The notices of `remove_song` and `reorder_songs` become the `removed` and `accepted` results. `display_playlist` becomes `Display`, which returns the numbered lines; the header line with the playlist's name is left out.
- `Song.length` is a Python float that no operation reads. It is carried as a Dafny `real`, with no floating-point behaviour.
- Song attributes, and a playlist's `name` and `library`, are ordinary Python attributes. They are modelled as constant fields, because nothing in the application assigns them after construction.
- `MusicLibrary` queries and `AddSong` require the library's invariant `Valid()`. The invariant says each title is a key once and each song sits under its own title. The constructor establishes it and `AddSong` keeps it.
- `SchoolFileSystem/schoolfilesystem.py` is not part of this model. It wraps a tabular-data library and file and network I/O, and its analysis methods are empty stubs.
