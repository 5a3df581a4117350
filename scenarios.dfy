/** Short request sequences against the room store, checked from the handlers' contracts alone. */
module Scenarios {
  import opened Wrappers
  import opened OrderedMap
  import opened Room

  /** Two players join; the count grows by one each time. */
  method TwoPlayersJoin(clock: Clock) {
    var store := new RoomStore<int>();
    var alice := Player("p1", "Alice", clock.now, clock.later);
    var bob := Player("p2", "Bob", clock.now, clock.later);
    var r := store.Join(Fields(Some("p1"), Some("Alice"), None, None), clock);
    assert store.players == [("p1", alice)];
    assert r == Joined(1);
    assert "p1"[1] != "p2"[1];
    SetFresh(store.players, "p2", bob);
    r := store.Join(Fields(Some("p2"), Some("Bob"), None, None), clock);
    assert store.players == [("p1", alice), ("p2", bob)];
    assert r == Joined(2);
  }

  /** Each player submits a score; an unfiltered data query returns both entries. */
  method TwoScoresQueried(clock: Clock) {
    var store := new RoomStore<int>();
    var r: Reply<int>;
    var e1 := DataEntry("p1", "score", Some(42), clock.now);
    var e2 := DataEntry("p2", "score", Some(17), clock.now);
    assert DataKey("p1", "score") == "p1_score" && DataKey("p2", "score") == "p2_score";
    r := store.Submit(Fields(Some("p1"), None, Some("score"), Some(42)), clock);
    assert store.data == [("p1_score", e1)];
    assert r == Submitted("p1_score");
    assert "p1_score"[1] != "p2_score"[1];
    SetFresh(store.data, "p2_score", e2);
    r := store.Submit(Fields(Some("p2"), None, Some("score"), Some(17)), clock);
    assert store.data == [("p1_score", e1), ("p2_score", e2)];
    assert r == Submitted("p2_score");

    var all := store.QueryData(Fields(None, None, None, None));
    assert all.totalCount == 2;
    assert all.data[0].1.payload == Some(42) && all.data[1].1.payload == Some(17);
  }

  /** Re-joining keeps the player count; re-submitting overwrites the datum in place. */
  method RejoinAndOverwrite(clock: Clock) {
    var store := new RoomStore<int>();
    var r := store.Join(Fields(Some("p1"), Some("Alice"), None, None), clock);
    r := store.Join(Fields(Some("p1"), Some("Alice"), None, None), clock);
    assert r == Joined(1);
    assert DataKey("p1", "score") == "p1_score";
    r := store.Submit(Fields(Some("p1"), None, Some("score"), Some(42)), clock);
    r := store.Submit(Fields(Some("p1"), None, Some("score"), Some(50)), clock);
    assert store.data == [("p1_score", DataEntry("p1", "score", Some(50), clock.now))];
    var mine := store.QueryData(Fields(Some("p1"), None, Some("score"), None));
    assert mine.data == [("p1_score", DataEntry("p1", "score", Some(50), clock.now))];
    assert mine.totalCount == 1;
  }

  /** A refused join and a refused submit leave an empty room empty; recreate empties a full one. */
  method RefusalsAndRecreate(clock: Clock) {
    var store := new RoomStore<int>();
    var r := store.Join(Fields(Some(""), Some("Alice"), None, None), clock);
    assert r == BadRequest(MissingPlayerFields) && StatusCode(r) == 400;
    r := store.Submit(Fields(Some("p1"), None, None, Some(1)), clock);
    assert r == BadRequest(MissingDataFields);
    assert store.players == [] && store.data == [];

    r := store.Join(Fields(Some("p1"), Some("Alice"), None, None), clock);
    r := store.Submit(Fields(Some("p1"), None, Some("score"), Some(1)), clock);
    r := store.Recreate();
    var room := store.QueryRoom(clock);
    assert room.playerCount == 0 && room.dataCount == 0;
  }
}
