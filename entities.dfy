/** The two entities of the store, their ratings and the comparators that
    order them. */
module Entities {
  import opened Names
  import opened Ordering

  /** Capacity of the playlist array and of every playlist's song array. */
  const MAX: nat := 100

  /** A song. The C record holds a name buffer and a `float` rating; the
      rating is exact here, since the program only compares it. */
  datatype Song = Song(name: string, rating: real)

  /** A playlist. `songs` are the first `song_count` entries of the C
      record's song array; the slots past them hold nothing the program
      reads. */
  datatype Playlist = Playlist(name: string, rating: real, songs: seq<Song>)

  /** The range the rating prompt insists on. */
  predicate ValidRating(r: real) {
    0.0 <= r <= 5.0
  }

  /** What every song added through the program looks like. */
  predicate WellFormedSong(s: Song) {
    ValidName(s.name) && |s.name| < MAX_LEN && ValidRating(s.rating)
  }

  /** What every playlist added through the program looks like. */
  predicate WellFormedPlaylist(p: Playlist) {
    && ValidName(p.name) && |p.name| < MAX_LEN && ValidRating(p.rating)
    && |p.songs| <= MAX
    && forall s :: s in p.songs ==> WellFormedSong(s)
  }

  function SongRating(s: Song): real {
    s.rating
  }

  function PlaylistRating(p: Playlist): real {
    p.rating
  }

  /** C's conversion of a comparison result to `int`. */
  function BoolToInt(b: bool): int {
    if b then 1 else 0
  }

  /** `compare_songs`: negative when `a` is rated higher (so it sorts
      first), positive when lower, zero on equal ratings. */
  function CompareSongs(a: Song, b: Song): (r: int)
    ensures -1 <= r <= 1
    ensures r < 0 <==> a.rating > b.rating
    ensures r > 0 <==> a.rating < b.rating
    ensures r == 0 <==> a.rating == b.rating
  {
    BoolToInt(b.rating > a.rating) - BoolToInt(b.rating < a.rating)
  }

  /** `compare_playlists`: the same order on playlists. */
  function ComparePlaylists(a: Playlist, b: Playlist): (r: int)
    ensures -1 <= r <= 1
    ensures r < 0 <==> a.rating > b.rating
    ensures r > 0 <==> a.rating < b.rating
    ensures r == 0 <==> a.rating == b.rating
  {
    BoolToInt(b.rating > a.rating) - BoolToInt(b.rating < a.rating)
  }

  /** Both comparators are antisymmetric and their "not after" relation is
      transitive, so they are valid `qsort` comparators. */
  lemma ComparatorsAreOrders(a: Song, b: Song, c: Song, p: Playlist, q: Playlist, r: Playlist)
    ensures CompareSongs(a, b) == -CompareSongs(b, a)
    ensures CompareSongs(a, b) <= 0 && CompareSongs(b, c) <= 0 ==> CompareSongs(a, c) <= 0
    ensures ComparePlaylists(p, q) == -ComparePlaylists(q, p)
    ensures ComparePlaylists(p, q) <= 0 && ComparePlaylists(q, r) <= 0 ==> ComparePlaylists(p, r) <= 0
  {
  }

  /** What `qsort` makes of its comparator, no entry comparing as belonging
      after a later one, is exactly the rating order the model sorts by. */
  lemma SortedMatchesComparators(s: seq<Song>, t: seq<Playlist>)
    ensures SortedBy(s, SongRating) <==>
              forall i, j :: 0 <= i < j < |s| ==> CompareSongs(s[i], s[j]) <= 0
    ensures SortedBy(t, PlaylistRating) <==>
              forall i, j :: 0 <= i < j < |t| ==> ComparePlaylists(t[i], t[j]) <= 0
  {
  }

  /** Result of a store operation: one per kind of status message the
      program prints. */
  datatype Outcome =
    | Success      // the addition or deletion took place
    | Full         // the store, or the playlist, already holds MAX entries
    | InvalidName  // the name failed validation
    | Empty        // there was nothing to delete

  /** One line of the playlist listing: 1-based number, name, rating and
      number of songs. */
  datatype PlaylistRow = PlaylistRow(number: nat, name: string, rating: real, songCount: nat)

  /** One line of the song listing: 1-based number, name and rating. */
  datatype SongRow = SongRow(number: nat, name: string, rating: real)
}
