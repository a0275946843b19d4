/** What a reaper tick in the middle of a download can do: a run, from an ordinary start, in
    which a row gets two owners and a stored body is queued again. */
module ReapHazard {
  import opened Wrappers
  import opened Tables
  import opened BodyQueue

  /** One account, one mailbox, one message under UID 1. */
  ghost function Small(row: Row, message: Message): Tables {
    Tables(map[0 := Mailbox(0, None, None, None, 0, false, 0, 2)], map[0 := message], map[0 := row], 1, 1)
  }

  function RowIn(state: BodyState, attempts: nat, claimedAt: Option<nat>): Row {
    Row(0, 0, 1, Some(1), None, {}, state, attempts, claimedAt)
  }

  const PLACEHOLDER: Message := Message(0, Placeholder(0, 1), 0, None)
  const STORED: Message := Message(0, Sha256(""), 0, Some(""))

  lemma SmallIsSound(row: Row, message: Message)
    requires row.mailbox == 0 && row.message == 0
    ensures Small(row, message).Constraints()
  {
  }

  lemma SmallClaim(attempts: nat, now: nat, message: Message)
    requires attempts < 3
    ensures var t := Small(RowIn(Pending, attempts, None), message);
            && t.Constraints() && t.ClaimChoice({0}, 0, 1, 3, {}) && Addressable(t, {0}, 0)
            && t.Claim({0}, now) == Small(RowIn(Fetching, attempts, Some(now)), message)
            && ByUid(t, {0}, 0) == map[1 := 0] && NamesOf(t, {0}, 0) == map[0 := 1]
            && RecordsOf(t, {0}, 0) == {Record(0, 1, message.size)}
  {
    var t := Small(RowIn(Pending, attempts, None), message);
    SmallIsSound(RowIn(Pending, attempts, None), message);
    assert t.rows.Keys == {0};
    assert t.Claim({0}, now).rows == map[0 := RowIn(Fetching, attempts, Some(now))];
  }

  lemma SmallReap(attempts: nat, at: nat, message: Message)
    ensures Small(RowIn(Fetching, attempts, Some(at)), message).Reap(at + 1)
            == Small(RowIn(Pending, attempts, None), message)
    ensures Reapable(Small(RowIn(Fetching, attempts, Some(at)), message), 0, at + 1) == {0}
  {
    var t := Small(RowIn(Fetching, attempts, Some(at)), message);
    assert t.Reap(at + 1).rows == map[0 := RowIn(Pending, attempts, None)];
  }

  lemma SmallAttach(attempts: nat, at: nat)
    ensures Small(RowIn(Fetching, attempts, Some(at)), PLACEHOLDER).Attach(0, "")
            == Some(Small(RowIn(Stored, attempts, None), STORED))
  {
    var t := Small(RowIn(Fetching, attempts, Some(at)), PLACEHOLDER);
    assert t.MessageElsewhere(0, Sha256(""), 0) == None;
    assert t.messages[0 := STORED] == map[0 := STORED];
    assert t.rows[0 := RowIn(Stored, attempts, None)] == map[0 := RowIn(Stored, attempts, None)];
  }

  lemma SmallFail(attempts: nat)
    requires attempts + 1 < 3
    ensures Small(RowIn(Stored, attempts, None), STORED).MarkFailed(0, 3)
            == Small(RowIn(Pending, attempts + 1, None), STORED)
  {
    assert Small(RowIn(Stored, attempts, None), STORED).rows[0 := RowIn(Pending, attempts + 1, None)]
           == map[0 := RowIn(Pending, attempts + 1, None)];
  }

  /** Claimed at 5, taken, reaped at a cutoff of 6, claimed again at 7, taken by a second
      worker, stored by the first and failed by the second. */
  ghost function Hazard(): seq<Step> {
    [Claim(1, {}, {0}, 5), Remember, Take(0, 1), Reap(6), Claim(1, {}, {0}, 7), Remember, Take(1, 1),
     BodyQueue.Attach(0, "", true), Fail(1)]
  }

  /** What the run's states differ in. */
  ghost function At(row: Row, message: Message, held: map<Uid, Id>, claims: map<Uid, Id>, hands: map<Worker, Id>,
                    claims': nat, settles: nat, fetched: nat, reaped: nat): Queue {
    Queue(Small(row, message), held, claims, hands, map[], multiset{}[0 := claims'], multiset{}[0 := settles],
          multiset{}, if settles > 0 then 1 else 0, if settles > 1 then 1 else 0,
          if fetched > 0 then {0} else {}, fetched, {}, 0, reaped, {}, 5,
          if claims' > 0 then map[0 := 1] else map[], if claims' > 0 then {Record(0, 1, 0)} else {},
          if settles > 0 then {Body(0, "")} else {})
  }

  ghost predicate Moves(q: Queue, s: Step, q': Queue) {
    CanStep(q, s, 0, 3) && q' == Next(q, s, 0, 3)
  }

  lemma ClaimMoves(now: nat, hands: map<Worker, Id>, n: nat, reaped: nat)
    requires now >= 5
    ensures Moves(At(RowIn(Pending, 0, None), PLACEHOLDER, map[], map[], hands, n, 0, 0, reaped),
                  Claim(1, {}, {0}, now),
                  At(RowIn(Fetching, 0, Some(now)), PLACEHOLDER, map[1 := 0], map[], hands, n + 1, 0, 0, reaped))
  {
    hide Small, Tables.ClaimChoice, Tables.Claim, Tables.Constraints, ByUid, Addressable, NamesOf, RecordsOf;
    SmallClaim(0, now, PLACEHOLDER);
    assert multiset{}[0 := n] + multiset({0}) == multiset{}[0 := n + 1];
    assert map[0 := 1] + map[0 := 1] == map[0 := 1] && map[] + map[0 := 1] == map[0 := 1];
    assert {Record(0, 1, 0)} + {Record(0, 1, 0)} == {Record(0, 1, 0)} && {} + {Record(0, 1, 0)} == {Record(0, 1, 0)};
  }

  lemma RememberMoves(at: nat, hands: map<Worker, Id>, n: nat, reaped: nat)
    ensures Moves(At(RowIn(Fetching, 0, Some(at)), PLACEHOLDER, map[1 := 0], map[], hands, n, 0, 0, reaped), Remember,
                  At(RowIn(Fetching, 0, Some(at)), PLACEHOLDER, map[], map[1 := 0], hands, n, 0, 0, reaped))
  {
    SmallIsSound(RowIn(Fetching, 0, Some(at)), PLACEHOLDER);
    hide Small, Tables.Constraints;
    assert map[] + map[1 := 0] == map[1 := 0];
    assert Overwritten(map[], map[1 := 0]) == {};
  }

  lemma TakeMoves(w: Worker, at: nat, hands: map<Worker, Id>, n: nat, reaped: nat)
    requires w !in hands
    ensures Moves(At(RowIn(Fetching, 0, Some(at)), PLACEHOLDER, map[], map[1 := 0], hands, n, 0, 0, reaped), Take(w, 1),
                  At(RowIn(Fetching, 0, Some(at)), PLACEHOLDER, map[], map[], hands[w := 0], n, 0, 0, reaped))
  {
    SmallIsSound(RowIn(Fetching, 0, Some(at)), PLACEHOLDER);
    hide Small, Tables.Constraints;
  }

  lemma ReapMoves(at: nat, hands: map<Worker, Id>, n: nat)
    ensures Moves(At(RowIn(Fetching, 0, Some(at)), PLACEHOLDER, map[], map[], hands, n, 0, 0, 0), Reap(at + 1),
                  At(RowIn(Pending, 0, None), PLACEHOLDER, map[], map[], hands, n, 0, 0, 1))
  {
    SmallIsSound(RowIn(Fetching, 0, Some(at)), PLACEHOLDER);
    SmallReap(0, at, PLACEHOLDER);
    hide Small, Tables.Constraints, Tables.Reap, Reapable;
  }

  lemma AttachMoves(at: nat, n: nat)
    ensures Moves(At(RowIn(Fetching, 0, Some(at)), PLACEHOLDER, map[], map[], map[0 := 0, 1 := 0], n, 0, 0, 1),
                  BodyQueue.Attach(0, "", true),
                  At(RowIn(Stored, 0, None), STORED, map[], map[], map[1 := 0], n, 1, 1, 1))
  {
    SmallIsSound(RowIn(Fetching, 0, Some(at)), PLACEHOLDER);
    SmallAttach(0, at);
    hide Small, Tables.Constraints, Tables.Attach;
    assert map[0 := 0, 1 := 0] - {0} == map[1 := 0];
    assert multiset{}[0 := 0] + multiset{0} == multiset{}[0 := 1];
  }

  lemma FailMoves(n: nat)
    ensures Moves(At(RowIn(Stored, 0, None), STORED, map[], map[], map[1 := 0], n, 1, 1, 1), Fail(1),
                  At(RowIn(Pending, 1, None), STORED, map[], map[], map[], n, 2, 1, 1))
  {
    SmallIsSound(RowIn(Stored, 0, None), STORED);
    SmallFail(0);
    hide Small, Tables.Constraints, Tables.MarkFailed;
    assert map[1 := 0] - {1} == map[];
    assert multiset{}[0 := 1] + multiset{0} == multiset{}[0 := 2];
  }

  ghost function HazardStates(): seq<Queue> {
    var pending, first, second := RowIn(Pending, 0, None), RowIn(Fetching, 0, Some(5)), RowIn(Fetching, 0, Some(7));
    [At(pending, PLACEHOLDER, map[], map[], map[], 0, 0, 0, 0),
     At(first, PLACEHOLDER, map[1 := 0], map[], map[], 1, 0, 0, 0),
     At(first, PLACEHOLDER, map[], map[1 := 0], map[], 1, 0, 0, 0),
     At(first, PLACEHOLDER, map[], map[], map[0 := 0], 1, 0, 0, 0),
     At(pending, PLACEHOLDER, map[], map[], map[0 := 0], 1, 0, 0, 1),
     At(second, PLACEHOLDER, map[1 := 0], map[], map[0 := 0], 2, 0, 0, 1),
     At(second, PLACEHOLDER, map[], map[1 := 0], map[0 := 0], 2, 0, 0, 1),
     At(second, PLACEHOLDER, map[], map[], map[0 := 0, 1 := 0], 2, 0, 0, 1),
     At(RowIn(Stored, 0, None), STORED, map[], map[], map[1 := 0], 2, 1, 1, 1),
     At(RowIn(Pending, 1, None), STORED, map[], map[], map[], 2, 2, 1, 1)]
  }

  ghost predicate AllMove(qs: seq<Queue>, ss: seq<Step>) {
    |qs| == |ss| + 1 && forall i | 0 <= i < |ss| :: Moves(qs[i], ss[i], qs[i + 1])
  }

  lemma MovesMakeAPass(qs: seq<Queue>, ss: seq<Step>)
    requires AllMove(qs, ss)
    ensures Pass(qs, ss, 0, 3)
  {
    hide CanStep, Next;
    forall i | 0 <= i < |ss|
      ensures CanStep(qs[i], ss[i], 0, 3) && qs[i + 1] == Next(qs[i], ss[i], 0, 3)
    {
      assert Moves(qs[i], ss[i], qs[i + 1]);
    }
  }

  lemma HazardMoves()
    ensures AllMove(HazardStates(), Hazard())
  {
    hide At, RowIn, Moves;
    ClaimMoves(5, map[], 0, 0);
    RememberMoves(5, map[], 1, 0);
    TakeMoves(0, 5, map[], 1, 0);
    ReapMoves(5, map[0 := 0], 1);
    ClaimMoves(7, map[0 := 0], 1, 1);
    RememberMoves(7, map[0 := 0], 2, 1);
    TakeMoves(1, 7, map[0 := 0], 2, 1);
    AttachMoves(7, 2);
    FailMoves(2);
  }

  lemma FirstOwner()
    ensures !AllSpared(HazardStates(), Hazard())
  {
    var q := HazardStates()[3];
    assert q.hands[0] in Rows(q.hands);
    assert 0 in q.Owned();
    assert !Spared(q, 6) && Hazard()[3] == Reap(6);
  }

  lemma HazardStart()
    ensures Start(HazardStates()[0], 0, {})
  {
    SmallIsSound(RowIn(Pending, 0, None), PLACEHOLDER);
    assert multiset{}[0 := 0] == multiset{};
    assert InState(Small(RowIn(Pending, 0, None), PLACEHOLDER), 0, Fetching) == {};
    assert InState(Small(RowIn(Pending, 0, None), PLACEHOLDER), 0, TooLarge) == {};
    hide Tables.Constraints;
  }

  lemma HazardEnds()
    ensures var qs := HazardStates();
            && |qs| == 10 && qs[7].hands == map[0 := 0, 1 := 0]
            && qs[8].db.rows == map[0 := RowIn(Stored, 0, None)] && qs[9].db.rows == map[0 := RowIn(Pending, 1, None)]
  {
  }

  /** Without the condition on the reaper both promises fail: a row has two owners, and a
      stored body is queued for another download. */
  lemma ReapedInFlightIsDownloadedTwice() returns (qs: seq<Queue>, ss: seq<Step>)
    ensures Pass(qs, ss, 0, 3) && Start(qs[0], 0, {}) && !AllSpared(qs, ss) && |qs| == 10
    ensures qs[7].hands == map[0 := 0, 1 := 0]
    ensures qs[8].db.rows.Keys == {0} == qs[9].db.rows.Keys
    ensures qs[8].db.rows[0].state == Stored && qs[9].db.rows[0].state == Pending
  {
    hide Pass, Start, AllSpared, AllMove, HazardStates, Hazard, Small, At;
    qs, ss := HazardStates(), Hazard();
    HazardMoves();
    MovesMakeAPass(qs, ss);
    HazardStart();
    FirstOwner();
    HazardEnds();
  }
}
