# Playlist manager store, modelled in Dafny

The program keeps up to 100 playlists in a fixed array, each holding up to
100 songs in a fixed array of its own. A name must be non-empty and made of
ASCII letters, digits and spaces. A rating lies in [0, 5]. Both arrays are
kept in non-increasing order of rating: they are re-sorted with `qsort`
after every addition or deletion and before every listing. Deletion takes a
1-based number and shifts the later entries one place to the left.

The model:

- `Names`: the validator `is_valid_string`, as a loop proved equal to the
  predicate `ValidName`.
- `Entities`: the `Song` and `Playlist` records, as datatypes, since the C
  code copies them by value. Also the two comparators.
- `Ordering`: the sort order (`SortedBy`) and removal by position
  (`RemovedAt`), with lemmas. Removal keeps a sorted sequence sorted. Two
  sorted arrangements of the same entries carry the same ratings position by
  position. So the re-sort after a deletion only re-establishes an order
  that already held, up to the order of equal ratings.
- `Buffers`: the two in-place array algorithms. `ShiftLeft` is the deletion
  loop. `SortByKey` stands for `qsort`: it promises a permutation in
  non-increasing order and nothing about ties.
- `Playlists`: `sort_songs`, `add_song`, `delete_song` and `show_songs`.
  Each takes the playlist it works on and returns it as it is afterwards.
- `Manager`: the class `Store` holding `playlists[MAX]` and
  `playlist_count`, with `sort_playlists`, `add_playlist`, `show_playlists`,
  `delete_playlist`, and the song operations applied to one playlist of the
  store.
- `Scenarios`: client code showing what callers can conclude from the
  contracts.

Ratings are `real`. The program only compares its `float` ratings and
checks their range. The model compares the typed values exactly, so it
leaves out float rounding: two typed ratings that round to the same
`float` tie in the program but may be ordered strictly here.

The input loops are replaced by parameters. The program reads a name, then
loops until the rating is in [0, 5]. It reads the rating only after the
capacity and name checks pass. So a rating in range is required only when
both checks pass. In the same way, the index prompt loops until the number
is in [1, count]. It is reached only when the store (or playlist) is not
empty, and the precondition says exactly that. A name from `fgets` has at
most 49 characters, and every add operation requires that bound.

The program has no rating or index errors: each prompt asks again until
the input is in range (main.cpp:152, 191, 226, 262). So the model has no
such outcomes and requires what those loops establish.

## Model

| member | source | states |
|---|---|---|
| Names.IsValidString | main.cpp:125-131 | accepts exactly the non-empty strings whose every character is an ASCII letter, digit or space; rejects exactly the empty string and strings with some other character |
| Names.ValidNameExamples | main.cpp:125-131 | "Rock & Roll" and "" are rejected, "Rock Roll" is accepted |
| Entities.CompareSongs | main.cpp:48-53 | result in {-1, 0, 1}: negative exactly when the first song is rated higher, positive exactly when lower, zero exactly on equal ratings |
| Entities.ComparePlaylists | main.cpp:55-60 | the same three-way, descending order on playlists |
| Entities.ComparatorsAreOrders | main.cpp:48-60 | both comparators are antisymmetric and their "not after" relation is transitive |
| Entities.SortedMatchesComparators | main.cpp:62-70 | an array is ordered for the comparator (no pair compares positive in order) exactly when it is non-increasing by rating |
| Ordering.RemovedAt | main.cpp:198-200 | removing position i drops the length by one; entries before i are unchanged, entry j at or after i is the old entry j+1 |
| Ordering.RemovedAtMultiset | main.cpp:198-200 | removal loses exactly the removed entry and nothing else |
| Ordering.RemovedAtKeepsSorted | main.cpp:198-201 | removing an entry from a sequence sorted by rating leaves it sorted |
| Ordering.SortedPermutationsAgree | main.cpp:62-70 | two sorted arrangements of the same entries have equal length and equal ratings at every position |
| Ordering.ResortAfterRemoval | main.cpp:198-201 | after removal from a sorted sequence, any sorted permutation of the result has the removal's ratings position by position |
| Buffers.ShiftLeft | main.cpp:198-199 | in place: the first n-1 slots become the old first n with entry i removed; the slots from n-1 on are unchanged |
| Buffers.SortByKey | main.cpp:62-70 | in place: the first n entries become a permutation of themselves, non-increasing by rating; the slots past n are unchanged |
| Playlists.SortSongs | main.cpp:62-65 | the playlist keeps its name and rating; its songs become a permutation of themselves, sorted by rating |
| Playlists.AddSong | main.cpp:206-239 | Full exactly when the playlist holds MAX or more songs, else InvalidName exactly when the name is invalid, and then nothing changes; otherwise the songs are the old songs plus the new one, sorted, one more than before; well-formedness is preserved |
| Playlists.DeleteSong | main.cpp:253-274 | Empty and nothing changes exactly when there are no songs; otherwise the songs are a sorted permutation of the old songs with song idx removed, one fewer; if they were sorted, the ratings equal those of the plain left shift |
| Playlists.ShiftSongs | main.cpp:268-269 | the playlist's songs become the old songs with position i removed, the later ones one place to the left; name and rating unchanged |
| Playlists.ShowSongs | main.cpp:241-251 | with no songs nothing changes; the songs end sorted and permuted; the listing numbers every song from 1 with its name and rating |
| Manager.Store.constructor | main.cpp:32-33 | a fresh store of capacity MAX with no playlists |
| Manager.Store.SortPlaylists | main.cpp:67-70 | the playlists in use become a permutation of themselves, sorted by rating; bounds and well-formedness are preserved |
| Manager.Store.AddPlaylist | main.cpp:133-167 | Full exactly when the store holds MAX, else InvalidName exactly when the name is invalid, and then the store is unchanged; otherwise the count rises by one, the playlists are the old ones plus (name, rating, no songs), sorted |
| Manager.Store.ShowPlaylists | main.cpp:169-179 | with no playlists nothing changes; the playlists end sorted and permuted; the listing numbers each from 1 with name, rating and song count |
| Manager.Store.DeletePlaylist | main.cpp:181-204 | Empty and the store unchanged exactly when it holds no playlists; otherwise the count drops by one and the playlists are a sorted permutation of the old ones with number idx removed, with the ratings of the plain left shift when the store was sorted |
| Manager.Store.RemovePlaylistAt | main.cpp:198-200 | the playlists in use become the old ones with position i removed, later ones one place left, and the count drops by one |
| Manager.Store.AddSong | main.cpp:206-239 | only the chosen playlist changes, as in Playlists.AddSong; the store's order and well-formedness are preserved |
| Manager.Store.ShowSongs | main.cpp:241-251 | only the chosen playlist changes: its songs are re-sorted and listed |
| Manager.Store.DeleteSong | main.cpp:253-274 | only the chosen playlist changes, as in Playlists.DeleteSong; when every playlist's songs were sorted, the re-sorted songs carry the ratings of the plain left shift |
| Scenarios.ChillThenParty | main.cpp:159-178 | adding Chill (3.5) then Party (4.2) to an empty store lists Party first, then Chill, both with no songs |
| Scenarios.HundredAndFirst | main.cpp:135-139 | after 100 additions the 101st is refused as Full and the store still holds 100 playlists |
| Scenarios.RockAndRoll | main.cpp:144-148 | "Rock & Roll" is refused as InvalidName whatever rating the caller holds; "Rock Roll" rated 5 is added |

Bounds: `Manager.Store.Valid` says the count is at most MAX and so is
every playlist's song count. Every operation preserves it. `WellFormed`
says every stored name is valid and at most 49 characters long, and every
rating is in [0, 5]. Every operation preserves it too. Every operation also
preserves the store's order by rating, and `SongsSorted`, which says every
playlist's songs are in order by rating.

## Left out

- `load_from_file` and `save_to_file` (main.cpp:72-123) are file I/O with
  `%f` parsing and `%.2f` formatting, so they are not part of this model.
  The save after every mutation is left out with them. A round trip would
  not hold in the source anyway. Song names are read back with `%49s`, which
  stops at a space. The loaded count is also never checked against MAX.
- The menus `main_menu` and `playlist_menu` (main.cpp:276-360) are
  interactive UI. The playlist choice at main.cpp:334-349 becomes the 0-based
  parameter `p` of the Store's song operations, with `p < count`.
- `clear_screen` and `clr` (main.cpp:35-46), the colour codes and all
  `printf` output are terminal presentation. The listings are returned as
  rows instead.
- The `scanf` retry loops (main.cpp:152, 191, 226, 262) are I/O. Each is
  kept only as the precondition it establishes, as described above.
- IEEE `float` behaviour (NaN, rounding, `%.2f`) is left out: ratings are
  exact reals.
- The `fgets` truncation of long input lines (main.cpp:142, 215) is left
  out. Only its result, a name of at most MAX_LEN - 1 characters, is kept,
  as a precondition.
- Playlists.SortSongs, Playlists.AddSong and Playlists.DeleteSong do not
  update the songs array inside the record in place. The songs are a
  sequence inside the `Playlist` value. Each operation runs the shared
  in-place algorithms on a scratch array and returns the new playlist
  value, which the store writes back into its slot. Pointer aliasing of
  `Playlist *pl` is not modelled.
- The stale song slots past `song_count` are not kept: a playlist holds
  only its songs in use. A new playlist's old song slots are never read,
  since its song count starts at 0.
- Buffers.SortByKey does not model `qsort`'s tie order, which the C standard
  leaves unspecified: only permutation and order are stated, and no caller
  relies on more.
- `isalnum` is taken in the "C" locale. Characters outside ASCII are
  rejected, as there.
