/** The song-level operations `sort_songs`, `add_song`, `delete_song` and
    `show_songs`, each taking the playlist it works on and giving back that
    playlist as it is afterwards. */
module Playlists {
  import opened Names
  import opened Entities
  import opened Ordering
  import opened Buffers

  /** `after` holds the songs of `before`, re-sorted, and the playlist's own
      name and rating. */
  ghost predicate SongsResorted(before: Playlist, after: Playlist) {
    && after.name == before.name && after.rating == before.rating
    && multiset(after.songs) == multiset(before.songs)
    && SortedBy(after.songs, SongRating)
  }

  /** `after` is `before` with `song` added and the songs re-sorted. */
  ghost predicate SongAdded(before: Playlist, after: Playlist, song: Song) {
    && after.name == before.name && after.rating == before.rating
    && multiset(after.songs) == multiset(before.songs) + multiset{song}
    && SortedBy(after.songs, SongRating)
  }

  /** `after` is `before` with its song at 0-based position `i` removed and
      the songs re-sorted. */
  ghost predicate SongRemoved(before: Playlist, after: Playlist, i: nat)
    requires i < |before.songs|
  {
    && after.name == before.name && after.rating == before.rating
    && multiset(after.songs) == multiset(RemovedAt(before.songs, i))
    && SortedBy(after.songs, SongRating)
  }

  /** `listing` numbers the songs of `pl` from 1 in their stored order. */
  ghost predicate ListsSongs(pl: Playlist, listing: seq<SongRow>) {
    && |listing| == |pl.songs|
    && forall i :: 0 <= i < |listing| ==>
         listing[i] == SongRow(i + 1, pl.songs[i].name, pl.songs[i].rating)
  }

  /** `sort_songs`: sorts the playlist's songs by rating, highest first. */
  method SortSongs(pl: Playlist) returns (after: Playlist)
    ensures SongsResorted(pl, after)
    ensures |after.songs| == |pl.songs|
    ensures WellFormedPlaylist(pl) ==> WellFormedPlaylist(after)
  {
    var n := |pl.songs|;
    var buf := new Song[n](i requires 0 <= i < n => pl.songs[i]);
    assert buf[..n] == pl.songs;
    SortByKey(buf, n, SongRating);
    after := pl.(songs := buf[..n]);
    assert forall s :: s in after.songs ==> s in multiset(pl.songs);
  }

  /** `add_song`: refuses a full playlist, then an invalid name; otherwise
      (the rating prompt having insisted on a rating in [0, 5]) appends the
      song and re-sorts. */
  method AddSong(pl: Playlist, name: string, rating: real) returns (res: Outcome, after: Playlist)
    requires |name| < MAX_LEN
    requires |pl.songs| < MAX && ValidName(name) ==> ValidRating(rating)
    ensures res == (if |pl.songs| >= MAX then Full
                    else if !ValidName(name) then InvalidName
                    else Success)
    ensures res != Success ==> after == pl
    ensures res == Success ==> SongAdded(pl, after, Song(name, rating))
    ensures res == Success ==> |after.songs| == |pl.songs| + 1 && Song(name, rating) in after.songs
    ensures WellFormedPlaylist(pl) ==> WellFormedPlaylist(after)
  {
    if |pl.songs| >= MAX {
      return Full, pl;
    }
    var ok := IsValidString(name);
    if !ok {
      return InvalidName, pl;
    }
    var grown := pl.(songs := pl.songs + [Song(name, rating)]);
    after := SortSongs(grown);
    assert Song(name, rating) in multiset(after.songs);
    res := Success;
  }

  /** `delete_song`: refuses an empty playlist; otherwise removes the song
      with 1-based number `idx` by shifting the later songs left, and
      re-sorts. */
  method DeleteSong(pl: Playlist, idx: int) returns (res: Outcome, after: Playlist)
    requires |pl.songs| > 0 ==> 1 <= idx <= |pl.songs|
    ensures res == (if |pl.songs| == 0 then Empty else Success)
    ensures res == Empty ==> after == pl
    ensures res == Success ==> |after.songs| == |pl.songs| - 1 && SongRemoved(pl, after, idx - 1)
    ensures res == Success && SortedBy(pl.songs, SongRating) ==>
              SameKeys(after.songs, RemovedAt(pl.songs, idx - 1), SongRating)
    ensures WellFormedPlaylist(pl) ==> WellFormedPlaylist(after)
  {
    if |pl.songs| == 0 {
      return Empty, pl;
    }
    var shrunk := ShiftSongs(pl, idx - 1);
    after := SortSongs(shrunk);
    res := Success;
    if SortedBy(pl.songs, SongRating) {
      ResortAfterRemoval(pl.songs, SongRating, idx - 1, after.songs);
    }
  }

  /** The left-shift loop of `delete_song`, run on the playlist's songs. */
  method ShiftSongs(pl: Playlist, i: nat) returns (shrunk: Playlist)
    requires i < |pl.songs|
    ensures shrunk == pl.(songs := RemovedAt(pl.songs, i))
    ensures WellFormedPlaylist(pl) ==> WellFormedPlaylist(shrunk)
  {
    var n := |pl.songs|;
    var buf := new Song[n](k requires 0 <= k < n => pl.songs[k]);
    assert buf[..n] == pl.songs;
    ShiftLeft(buf, n, i);
    shrunk := pl.(songs := buf[..n - 1]);
    RemovedAtMultiset(pl.songs, i);
    assert forall s :: s in shrunk.songs ==> s in multiset(pl.songs);
  }

  /** `show_songs`: with no songs, lists nothing and changes nothing;
      otherwise re-sorts and lists every song. */
  method ShowSongs(pl: Playlist) returns (after: Playlist, listing: seq<SongRow>)
    ensures |pl.songs| == 0 ==> after == pl
    ensures SongsResorted(pl, after)
    ensures ListsSongs(after, listing)
    ensures WellFormedPlaylist(pl) ==> WellFormedPlaylist(after)
  {
    if |pl.songs| == 0 {
      return pl, [];
    }
    after := SortSongs(pl);
    listing := [];
    for i := 0 to |after.songs|
      invariant |listing| == i
      invariant forall k :: 0 <= k < i ==>
                  listing[k] == SongRow(k + 1, after.songs[k].name, after.songs[k].rating)
    {
      listing := listing + [SongRow(i + 1, after.songs[i].name, after.songs[i].rating)];
    }
  }
}
