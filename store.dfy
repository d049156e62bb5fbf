/** The program's global state, `playlists[MAX]` and `playlist_count`, with
    the operations that change it in place. */
module Manager {
  import opened Names
  import opened Entities
  import opened Ordering
  import opened Buffers
  import Playlists

  /** `listing` numbers the playlists `s` from 1 in their stored order, with
      each one's name, rating and number of songs. */
  ghost predicate ListsPlaylists(s: seq<Playlist>, listing: seq<PlaylistRow>) {
    && |listing| == |s|
    && forall i :: 0 <= i < |listing| ==>
         listing[i] == PlaylistRow(i + 1, s[i].name, s[i].rating, |s[i].songs|)
  }

  class Store {
    /** The fixed array of MAX playlist records. */
    const playlists: array<Playlist>
    /** How many of them are in use (`playlist_count`). */
    var count: nat

    /** The bounds every operation keeps: at most MAX playlists, each with
        at most MAX songs. */
    ghost predicate Valid()
      reads this, playlists
    {
      && playlists.Length == MAX
      && count <= MAX
      && forall i :: 0 <= i < count ==> |playlists[i].songs| <= MAX
    }

    /** The playlists in use, in array order. */
    ghost function Model(): seq<Playlist>
      reads this, playlists
      requires Valid()
    {
      playlists[..count]
    }

    /** Every playlist in use has a valid name and rating and well-formed
        songs, as the operations that add them insist. */
    ghost predicate WellFormed()
      reads this, playlists
      requires Valid()
    {
      forall p :: p in Model() ==> WellFormedPlaylist(p)
    }

    /** The store is ordered by rating, highest first. */
    ghost predicate Sorted()
      reads this, playlists
      requires Valid()
    {
      SortedBy(Model(), PlaylistRating)
    }

    /** Every playlist's songs are ordered by rating, highest first. */
    ghost predicate SongsSorted()
      reads this, playlists
      requires Valid()
    {
      forall q :: q in Model() ==> SortedBy(q.songs, SongRating)
    }

    /** The initial state: no playlists. */
    constructor ()
      ensures Valid() && fresh(playlists)
      ensures Model() == []
      ensures Sorted() && SongsSorted()
    {
      playlists := new Playlist[MAX];
      count := 0;
    }

    /** `sort_playlists`: sorts the playlists in use by rating, highest
        first. */
    method SortPlaylists()
      requires Valid()
      modifies playlists
      ensures Valid()
      ensures multiset(Model()) == old(multiset(Model()))
      ensures Sorted()
      ensures playlists[count..] == old(playlists[count..])
      ensures old(WellFormed()) ==> WellFormed()
      ensures old(SongsSorted()) ==> SongsSorted()
    {
      ghost var before := playlists[..count];
      assert forall i :: 0 <= i < count ==> |before[i].songs| <= MAX;
      SortByKey(playlists, count, PlaylistRating);
      forall i | 0 <= i < count
        ensures |playlists[i].songs| <= MAX
      {
        assert playlists[..count][i] in multiset(before);
      }
      assert forall p :: p in Model() ==> p in multiset(before);
    }

    /** `add_playlist`: refuses when the store is full, then when the name is
        invalid; otherwise (the rating prompt having insisted on a rating in
        [0, 5]) fills the next free slot with an empty playlist and
        re-sorts. */
    method AddPlaylist(name: string, rating: real) returns (res: Outcome)
      requires Valid()
      requires |name| < MAX_LEN
      requires count < MAX && ValidName(name) ==> ValidRating(rating)
      modifies this, playlists
      ensures Valid()
      ensures res == (if old(count) >= MAX then Full
                      else if !ValidName(name) then InvalidName
                      else Success)
      ensures res != Success ==> count == old(count) && playlists[..] == old(playlists[..])
      ensures res == Success ==> count == old(count) + 1
      ensures res == Success ==>
                multiset(Model()) == multiset(old(Model())) + multiset{Playlist(name, rating, [])}
      ensures res == Success ==> Playlist(name, rating, []) in Model() && Sorted()
      ensures old(WellFormed()) ==> WellFormed()
      ensures old(SongsSorted()) ==> SongsSorted()
    {
      if count >= MAX {
        return Full;
      }
      var ok := IsValidString(name);
      if !ok {
        return InvalidName;
      }
      ghost var before := Model();
      playlists[count] := Playlist(name, rating, []);
      count := count + 1;
      assert Model() == before + [Playlist(name, rating, [])];
      SortPlaylists();
      assert Playlist(name, rating, []) in multiset(Model());
      res := Success;
    }

    /** `show_playlists`: with no playlists, lists nothing and changes
        nothing; otherwise re-sorts and lists every playlist. */
    method ShowPlaylists() returns (listing: seq<PlaylistRow>)
      requires Valid()
      modifies playlists
      ensures Valid() && count == old(count)
      ensures old(count) == 0 ==> playlists[..] == old(playlists[..])
      ensures multiset(Model()) == old(multiset(Model()))
      ensures Sorted()
      ensures ListsPlaylists(Model(), listing)
      ensures old(WellFormed()) ==> WellFormed()
      ensures old(SongsSorted()) ==> SongsSorted()
    {
      if count == 0 {
        return [];
      }
      SortPlaylists();
      listing := [];
      for i := 0 to count
        invariant |listing| == i
        invariant forall k :: 0 <= k < i ==>
                    listing[k] == PlaylistRow(k + 1, playlists[k].name, playlists[k].rating, |playlists[k].songs|)
      {
        listing := listing + [PlaylistRow(i + 1, playlists[i].name, playlists[i].rating, |playlists[i].songs|)];
      }
    }

    /** `delete_playlist`: refuses an empty store; otherwise (the index
        prompt having insisted on a number in [1, count]) removes playlist
        number `idx` by shifting the later ones left, and re-sorts. */
    method DeletePlaylist(idx: int) returns (res: Outcome)
      requires Valid()
      requires count > 0 ==> 1 <= idx <= count
      modifies this, playlists
      ensures Valid()
      ensures res == (if old(count) == 0 then Empty else Success)
      ensures res == Empty ==> count == 0 && playlists[..] == old(playlists[..])
      ensures res == Success ==> count == old(count) - 1
      ensures res == Success ==> multiset(Model()) == multiset(RemovedAt(old(Model()), idx - 1))
      ensures res == Success ==> Sorted()
      ensures res == Success && old(Sorted()) ==>
                SameKeys(Model(), RemovedAt(old(Model()), idx - 1), PlaylistRating)
      ensures old(WellFormed()) ==> WellFormed()
      ensures old(SongsSorted()) ==> SongsSorted()
    {
      if count == 0 {
        return Empty;
      }
      ghost var before := Model();
      RemovePlaylistAt(idx - 1);
      SortPlaylists();
      res := Success;
      if SortedBy(before, PlaylistRating) {
        ResortAfterRemoval(before, PlaylistRating, idx - 1, Model());
      }
    }

    /** The left-shift loop of `delete_playlist` and the decrement after
        it. */
    method RemovePlaylistAt(i: nat)
      requires Valid() && i < count
      modifies this, playlists
      ensures Valid() && count == old(count) - 1
      ensures Model() == RemovedAt(old(Model()), i)
      ensures old(WellFormed()) ==> WellFormed()
      ensures old(SongsSorted()) ==> SongsSorted()
    {
      ghost var before := playlists[..count];
      assert forall k :: 0 <= k < |before| ==> |before[k].songs| <= MAX;
      ShiftLeft(playlists, count, i);
      count := count - 1;
      ghost var after := playlists[..count];
      assert after == RemovedAt(before, i);
      forall j | 0 <= j < count
        ensures |playlists[j].songs| <= MAX
      {
        assert playlists[j] == after[j] == before[if j < i then j else j + 1];
      }
      RemovedAtMultiset(before, i);
      assert forall p :: p in after ==> p in multiset(before);
    }

    /** `add_song` on playlist `p` (0-based, as chosen from the menu):
        only that playlist changes. */
    method AddSong(p: nat, name: string, rating: real) returns (res: Outcome)
      requires Valid() && p < count
      requires |name| < MAX_LEN
      requires |playlists[p].songs| < MAX && ValidName(name) ==> ValidRating(rating)
      modifies playlists
      ensures Valid()
      ensures res == (if |old(playlists[p]).songs| >= MAX then Full
                      else if !ValidName(name) then InvalidName
                      else Success)
      ensures forall q :: 0 <= q < playlists.Length && q != p ==> playlists[q] == old(playlists[q])
      ensures res != Success ==> playlists[p] == old(playlists[p])
      ensures res == Success ==> Playlists.SongAdded(old(playlists[p]), playlists[p], Song(name, rating))
      ensures old(Sorted()) ==> Sorted()
      ensures old(WellFormed()) ==> WellFormed()
      ensures old(SongsSorted()) ==> SongsSorted()
    {
      var after;
      res, after := Playlists.AddSong(playlists[p], name, rating);
      playlists[p] := after;
      assert Model() == old(Model())[p := after];
    }

    /** `show_songs` on playlist `p`: re-sorts that playlist's songs (when it
        has any) and lists them. */
    method ShowSongs(p: nat) returns (listing: seq<SongRow>)
      requires Valid() && p < count
      modifies playlists
      ensures Valid()
      ensures forall q :: 0 <= q < playlists.Length && q != p ==> playlists[q] == old(playlists[q])
      ensures |old(playlists[p]).songs| == 0 ==> playlists[p] == old(playlists[p])
      ensures Playlists.SongsResorted(old(playlists[p]), playlists[p])
      ensures Playlists.ListsSongs(playlists[p], listing)
      ensures old(Sorted()) ==> Sorted()
      ensures old(WellFormed()) ==> WellFormed()
      ensures old(SongsSorted()) ==> SongsSorted()
    {
      var after;
      after, listing := Playlists.ShowSongs(playlists[p]);
      playlists[p] := after;
      assert Model() == old(Model())[p := after];
    }

    /** `delete_song` on playlist `p`: refuses when it has no songs;
        otherwise removes its song number `idx`. Only that playlist
        changes. */
    method DeleteSong(p: nat, idx: int) returns (res: Outcome)
      requires Valid() && p < count
      requires |playlists[p].songs| > 0 ==> 1 <= idx <= |playlists[p].songs|
      modifies playlists
      ensures Valid()
      ensures res == (if |old(playlists[p]).songs| == 0 then Empty else Success)
      ensures forall q :: 0 <= q < playlists.Length && q != p ==> playlists[q] == old(playlists[q])
      ensures res == Empty ==> playlists[p] == old(playlists[p])
      ensures res == Success ==> Playlists.SongRemoved(old(playlists[p]), playlists[p], idx - 1)
      ensures res == Success && SortedBy(old(playlists[p]).songs, SongRating) ==>
                SameKeys(playlists[p].songs, RemovedAt(old(playlists[p]).songs, idx - 1), SongRating)
      ensures res == Success && old(SongsSorted()) ==>
                SameKeys(playlists[p].songs, RemovedAt(old(playlists[p]).songs, idx - 1), SongRating)
      ensures old(Sorted()) ==> Sorted()
      ensures old(WellFormed()) ==> WellFormed()
      ensures old(SongsSorted()) ==> SongsSorted()
    {
      var after;
      res, after := Playlists.DeleteSong(playlists[p], idx);
      playlists[p] := after;
      assert Model() == old(Model())[p := after];
    }
  }
}
