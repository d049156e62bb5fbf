/** Client code that drives the store the way the menus do, and what the
    store's contracts let a caller conclude about it. */
module Scenarios {
  import opened Names
  import opened Entities
  import opened Manager
  import opened Ordering

  /** Starting empty, adding "Chill" rated 3.5 and then "Party" rated 4.2
      lists Party first: the higher rating comes first whatever the order of
      insertion. */
  method ChillThenParty() returns (listing: seq<PlaylistRow>)
    ensures listing == [PlaylistRow(1, "Party", 4.2, 0), PlaylistRow(2, "Chill", 3.5, 0)]
  {
    var store := new Store();
    var chill, party := Playlist("Chill", 3.5, []), Playlist("Party", 4.2, []);
    ScenarioNames();
    var first := store.AddPlaylist("Chill", 3.5);
    assert first == Success && store.count == 1;
    assert multiset(store.Model()) == multiset{chill};
    var second := store.AddPlaylist("Party", 4.2);
    assert second == Success && store.count == 2;
    assert multiset(store.Model()) == multiset{chill} + multiset{party};
    listing := store.ShowPlaylists();
    SortedPair(store.Model(), party, chill);
  }

  /** The names the scenarios use pass the validator. */
  lemma ScenarioNames()
    ensures ValidName("Chill") && ValidName("Party") && ValidName("Mix")
  {
  }

  /** The only arrangement of two playlists with different ratings that is
      sorted puts the higher-rated one first. */
  lemma SortedPair(m: seq<Playlist>, hi: Playlist, lo: Playlist)
    requires multiset(m) == multiset{lo} + multiset{hi}
    requires SortedBy(m, PlaylistRating)
    requires hi.rating > lo.rating
    ensures m == [hi, lo]
  {
    assert |m| == 2;
    assert m == [m[0], m[1]];
    assert multiset(m) == multiset{m[0], m[1]};
    assert m[0] in multiset(m) && m[1] in multiset(m);
    assert m[0] != lo;
  }

  /** One hundred additions fill the store; the hundred-and-first is
      refused and leaves all hundred playlists in place. */
  method HundredAndFirst() returns (last: Outcome, size: nat)
    ensures last == Full && size == MAX
  {
    var store := new Store();
    ScenarioNames();
    var i := 0;
    while i < MAX
      invariant 0 <= i <= MAX
      invariant store.Valid() && store.count == i
      invariant fresh(store.playlists)
    {
      var r := store.AddPlaylist("Mix", 2.5);
      i := i + 1;
    }
    last := store.AddPlaylist("Mix", 2.5);
    size := store.count;
  }

  /** A name with an ampersand is refused before the rating is asked for,
      so any rating may stand for the one never read; the same name without
      it is accepted. */
  method RockAndRoll(rating: real) returns (bad: Outcome, good: Outcome)
    ensures bad == InvalidName && good == Success
  {
    var store := new Store();
    ValidNameExamples();
    bad := store.AddPlaylist("Rock & Roll", rating);
    good := store.AddPlaylist("Rock Roll", 5.0);
  }
}
