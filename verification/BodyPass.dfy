/** The body pass as it runs, with one worker: claim, remember, plan, fetch, settle. Database
    calls fail when the fault script says so, the server answers what it likes, and the
    metadata pass and the reaper write in between. Every step is logged as a step of the queue,
    so what is proved of all passes of the queue holds of this one. */
module BodyPass {
  import opened Wrappers
  import opened Tables
  import Store
  import opened Claims
  import opened BodyQueue
  import opened Delivery
  import opened Planner
  import Oversize

  lemma RowCanBeWritten(t: Tables, r: Id, content: Content)
    requires t.Linked() && r in t.rows
    ensures t.Attach(r, content).Some?
  {
  }

  /** One message of a FETCH response; no literal means the message has vanished. A literal
      is usable when it could be read in full and put into the blob store. */
  datatype Answer = Answer(uid: Uid, literal: Option<Literal>)

  datatype Literal = Literal(size: nat, content: Content, usable: bool)

  /** failure is how the command itself ended; its value says whether a new connection helps. */
  datatype Response = Response(answers: seq<Answer>, failure: Option<bool>)

  datatype FetchError = ExceedsLimit | Fault(recoverable: bool)

  /** One attempt of the session at a command. */
  datatype Try = NoConnection(fatal: bool) | Answered(response: Response)

  predicate AboveLimit(a: Answer, maxSize: int) {
    a.literal.Some? && maxSize > 0 && a.literal.value.size > maxSize
  }

  /** Where the first literal above the limit stands, if there is one. */
  function FirstAbove(answers: seq<Answer>, maxSize: int): (k: nat)
    ensures k <= |answers| && (k < |answers| ==> AboveLimit(answers[k], maxSize))
    ensures forall i | 0 <= i < k :: !AboveLimit(answers[i], maxSize)
  {
    if answers == [] || AboveLimit(answers[0], maxSize) then 0 else 1 + FirstAbove(answers[1..], maxSize)
  }

  /** The UIDs a response brought a body for. */
  ghost function Delivered(answers: seq<Answer>): set<Uid> {
    set i | 0 <= i < |answers| && answers[i].literal.Some? :: answers[i].uid
  }

  /** The UIDs it brought a body for that can be kept. */
  ghost function Usable(answers: seq<Answer>): set<Uid> {
    set i | 0 <= i < |answers| && answers[i].literal.Some? && answers[i].literal.value.usable :: answers[i].uid
  }

  ghost function Uids(batch: seq<SizedUid>): set<Uid> {
    set i | 0 <= i < |batch| :: batch[i].uid
  }

  /** What reaches the command: the first answer for each UID it asked for. */
  function Received(answers: seq<Answer>, wanted: set<Uid>): (received: seq<Answer>)
    ensures forall a | a in received :: a in answers && a.uid in wanted
  {
    if answers == [] then []
    else if answers[0].uid in wanted then [answers[0]] + Received(answers[1..], wanted - {answers[0].uid})
    else Received(answers[1..], wanted)
  }

  ghost predicate DistinctUids(received: seq<Answer>) {
    forall i, j | 0 <= i < j < |received| :: received[i].uid != received[j].uid
  }

  ghost function AnsweredUids(answers: seq<Answer>): set<Uid> {
    set a | a in answers :: a.uid
  }

  lemma AnsweredFirst(first: Answer, rest: seq<Answer>)
    ensures AnsweredUids([first] + rest) == AnsweredUids(rest) + {first.uid}
    ensures DistinctUids(rest) && first.uid !in AnsweredUids(rest) ==> DistinctUids([first] + rest)
  {
    assert forall a :: a in [first] + rest <==> a == first || a in rest;
    assert forall i | 0 <= i < |rest| :: rest[i] in rest;
  }

  /** Each UID that was asked for and answered is received once, and no other. */
  lemma {:induction false} ReceivedOnce(answers: seq<Answer>, wanted: set<Uid>)
    ensures DistinctUids(Received(answers, wanted))
    ensures AnsweredUids(Received(answers, wanted)) == AnsweredUids(answers) * wanted
    decreases |answers|
  {
    if answers != [] {
      var first, rest := answers[0], answers[1..];
      assert answers == [first] + rest;
      AnsweredFirst(first, rest);
      var left := if first.uid in wanted then wanted - {first.uid} else wanted;
      ReceivedOnce(rest, left);
      AnsweredFirst(first, Received(rest, left));
      hide DistinctUids, AnsweredUids;
    }
  }

  /** The connection as the worker meets it: what the next attempts will bring, what all later ones
      bring, and the batches asked for so far. */
  class Wire {
    const last: Try
    var tries: seq<Try>
    ghost var asked: seq<seq<SizedUid>>

    constructor (tries: seq<Try>, last: Try)
      ensures this.tries == tries && this.last == last && asked == []
    {
      this.tries, this.last, asked := tries, last, [];
    }

    /** Every literal still to come is its message. */
    ghost predicate Honest(mail: Uid -> Content)
      reads this`tries
    {
      HonestTry(last, mail) && forall t | t in tries :: HonestTry(t, mail)
    }

    /** Every attempt still to come answers for all these UIDs. */
    ghost predicate Generous(uids: set<Uid>)
      reads this`tries
    {
      Full(last, uids) && forall t | t in tries :: Full(t, uids)
    }

    method NextTry(ghost mail: Uid -> Content, ghost uids: set<Uid>) returns (try: Try)
      modifies this`tries
      ensures try == TryAt(old(tries), last, 0) && tries == TriesFrom(old(tries), 1)
      ensures old(Honest(mail)) ==> Honest(mail) && HonestTry(try, mail)
      ensures old(Generous(uids)) ==> Generous(uids) && Full(try, uids)
    {
      try := last;
      if |tries| > 0 {
        try, tries := tries[0], tries[1..];
      }
    }
  }

  function TryAt(tries: seq<Try>, last: Try, i: nat): Try {
    if i < |tries| then tries[i] else last
  }

  function TriesFrom(tries: seq<Try>, n: nat): seq<Try> {
    if n < |tries| then tries[n..] else []
  }

  ghost predicate HonestTry(t: Try, mail: Uid -> Content) {
    t.Answered? ==> HonestAnswers(t.response.answers, mail)
  }

  /** How an attempt at a batch ends, when nothing fails on this side. */
  function EndOf(t: Try, wanted: set<Uid>, maxSize: int): Option<bool> {
    match t
    case NoConnection(_) => Some(true)
    case Answered(r) =>
      var received := Received(r.answers, wanted);
      if FirstAbove(received, maxSize) < |received| then None else r.failure
  }

  /** A fresh connection may do better. */
  predicate WorthRepeating(t: Try, wanted: set<Uid>, maxSize: int) {
    t != NoConnection(true) && EndOf(t, wanted, maxSize) == Some(true)
  }

  ghost predicate AllRepeated(tries: seq<Try>, last: Try, n: nat, wanted: set<Uid>, maxSize: int) {
    forall i: nat | i < n :: WorthRepeating(TryAt(tries, last, i), wanted, maxSize)
  }

  /** The first attempt that is not worth repeating decides, or else the last one. */
  ghost predicate Decided(tries: seq<Try>, last: Try, made: nat, attempts: int, wanted: set<Uid>, maxSize: int,
                          err: Option<bool>)
    requires made > 0
  {
    && AllRepeated(tries, last, made - 1, wanted, maxSize)
    && err == EndOf(TryAt(tries, last, made - 1), wanted, maxSize)
    && (made < attempts ==> !WorthRepeating(TryAt(tries, last, made - 1), wanted, maxSize))
  }

  lemma NothingMade(tries: seq<Try>, last: Try, wanted: set<Uid>, maxSize: int)
    ensures TriesFrom(tries, 0) == tries && AllRepeated(tries, last, 0, wanted, maxSize)
  {
  }

  lemma MakeOne(tries: seq<Try>, last: Try, n: nat, attempts: int, wanted: set<Uid>, maxSize: int)
    ensures var try := TryAt(tries, last, n);
            var end := EndOf(try, wanted, maxSize);
            && TriesFrom(TriesFrom(tries, n), 1) == TriesFrom(tries, n + 1)
            && TryAt(TriesFrom(tries, n), last, 0) == try
            && (AllRepeated(tries, last, n, wanted, maxSize) ==>
                  && (try != NoConnection(true) && end == Some(true) ==>
                        AllRepeated(tries, last, n + 1, wanted, maxSize))
                  && (Full(TryAt(tries, last, 0), wanted) ==> n == 0)
                  && (n + 1 >= attempts || try == NoConnection(true) || end != Some(true) ==>
                        Decided(tries, last, n + 1, attempts, wanted, maxSize, end)))
            && (Full(try, wanted) ==> try.Answered? && end == None)
  {
    if Full(TryAt(tries, last, 0), wanted) && n > 0 {
      assert !WorthRepeating(TryAt(tries, last, 0), wanted, maxSize);
    }
  }

  /** The attempt goes well and brings a usable body for each of these UIDs. */
  ghost predicate Full(t: Try, uids: set<Uid>) {
    && t.Answered? && t.response.failure == None && uids <= AnsweredUids(t.response.answers)
    && forall a | a in t.response.answers :: a.literal.Some? && a.literal.value.usable
  }

  lemma FullForFewer(t: Try, uids: set<Uid>, fewer: set<Uid>)
    requires Full(t, uids) && fewer <= uids
    ensures Full(t, fewer)
  {
  }

  /** Literals are as large as their messages, and what can be used is the message. */
  ghost predicate HonestAnswers(answers: seq<Answer>, mail: Uid -> Content) {
    forall a | a in answers :: HonestAnswer(a, mail)
  }

  predicate HonestAnswer(a: Answer, mail: Uid -> Content) {
    a.literal.Some? ==> a.literal.value.size == |mail(a.uid)|
                        && (a.literal.value.usable ==> a.literal.value.content == mail(a.uid))
  }

  class BodyWorker {
    const store: Store.Store
    const table: ClaimTable
    const wire: Wire
    const mailbox: Id
    const maxAttempts: nat
    const maxSize: int
    var faults: seq<Option<bool>>
    var meanwhile: seq<Statement>
    var fetched: nat
    ghost const stale: set<Id>
    ghost const start: nat
    ghost const began: nat
    /** The messages of the mailbox, and whether the server is known to send just these. */
    ghost const mail: Uid -> Content
    ghost const honest: bool
    /** The UIDs the server has there. */
    ghost const present: set<Uid>
    /** What the metadata pass and the reaper will write while the pass runs. */
    ghost const intrusions: seq<Statement>
    ghost const first: Queue
    ghost var queue: Queue
    ghost var queues: seq<Queue>
    ghost var steps: seq<Step>

    /** The steps taken so far are a pass of the queue, from an ordinary start to this state,
        in which the reaper took nothing out of anyone's hands. */
    ghost predicate Recorded()
      reads this`queues, this`steps, this`queue
    {
      && queues != [] && queues[0] == first && queues[|queues| - 1] == queue
      && Start(first, mailbox, stale) && Pass(queues, steps, mailbox, maxAttempts) && AllSpared(queues, steps)
      && OnlyIntrusions(steps, intrusions)
    }

    /** The queue is sound. */
    ghost predicate Sound()
      reads this`queue
    {
      && Inv(queue, mailbox, stale) && LargeIffMarked(queue, mailbox)
      && WithinBudget(queue, mailbox, maxAttempts, start)
      && Named(queue, mailbox) && (honest ==> BodiesTrue(queue, mail))
    }

    /** And it is what the store, the claim table and the counter say. */
    ghost predicate Logged()
      reads this, store, table
    {
      && Recorded() && Sound()
      && queue.db == store.View() && queue.Table() == table.Of(mailbox) && queue.fetched == fetched
      && queue.began == began && queue.large == first.large && ReapsOlder(meanwhile, began)
      && Remaining(meanwhile, intrusions)
    }

    /** A pass may begin at any moment, whatever earlier passes have left in the claim table. It
        does not outlast the age at which claims are reaped. */
    constructor (store: Store.Store, table: ClaimTable, wire: Wire, mailbox: Id, maxAttempts: nat, maxSize: int,
                 faults: seq<Option<bool>>, meanwhile: seq<Statement>, ghost began: nat, ghost mail: Uid -> Content,
                 ghost honest: bool, ghost present: set<Uid>)
      requires store.View().Constraints() && ReapsOlder(meanwhile, began)
      ensures Logged() && queue == first == NewQueue(store.View(), table.Of(mailbox), mailbox, began)
      ensures this.store == store && this.table == table && this.wire == wire && this.mailbox == mailbox
      ensures this.maxAttempts == maxAttempts && this.maxSize == maxSize && this.began == began
      ensures this.mail == mail && this.honest == honest && this.present == present && this.intrusions == meanwhile
      ensures this.fetched == 0 && this.faults == faults && this.meanwhile == meanwhile
    {
      hide Inv, WithinBudget, Pass, LargeIffMarked, Named, BodiesTrue, ReapsOlder, Claims.RowsFor, InState,
           Tables.Constraints, BodyQueue.Budget, Mine;
      this.store, this.table, this.wire, this.mailbox := store, table, wire, mailbox;
      this.maxAttempts, this.maxSize, this.began := maxAttempts, maxSize, began;
      this.mail, this.honest, this.present, this.intrusions := mail, honest, present, meanwhile;
      this.faults, this.meanwhile, fetched := faults, meanwhile, 0;
      stale := InState(store.View(), mailbox, Fetching);
      start := BodyQueue.Budget(Mine(store.View(), mailbox), maxAttempts);
      first := NewQueue(store.View(), table.Of(mailbox), mailbox, began);
      queue, queues, steps := NewQueue(store.View(), table.Of(mailbox), mailbox, began),
                              [NewQueue(store.View(), table.Of(mailbox), mailbox, began)], [];
      NothingYet(store.View(), table.Of(mailbox), mailbox, maxAttempts, began, mail);
    }

    // ------------------------------------------------------------ logging

    ghost method Log(s: Step)
      requires Recorded() && Sound() && CanStep(queue, s, mailbox, maxAttempts)
      requires s.Reap? ==> s.cutoff <= queue.began
      requires s.Meanwhile? ==> s.statement in intrusions && OfMetadata(s.statement)
      requires honest ==> AttachesOwn(queue, s, mail)
      modifies this`queues, this`steps, this`queue
      ensures Recorded() && Sound() && queue == Next(old(queue), s, mailbox, maxAttempts)
    {
      hide Inv, WithinBudget, LargeIffMarked, Next, CanStep, Spared, Named, BodiesTrue, AttachesOwn, OfMetadata;
      if s.Reap? {
        ReapedLater(queue, s.cutoff, mailbox, stale);
      }
      StepKeepsInv(queue, s, mailbox, maxAttempts, stale);
      StepKeepsLarge(queue, s, mailbox, maxAttempts, stale);
      StepStaysWithin(queue, s, mailbox, maxAttempts, stale, start);
      StepKeepsNamed(queue, s, mailbox, maxAttempts);
      if honest {
        StepKeepsTrue(queue, s, mailbox, maxAttempts, mail);
      }
      queue := Next(queue, s, mailbox, maxAttempts);
      queues, steps := queues + [queue], steps + [s];
    }

    lemma HasConstraints()
      requires Sound()
      ensures queue.db.Constraints() && queue.left.Keys !! queue.claims.Keys
    {
    }

    /** A remembered claim is for the UID its row was claimed under. */
    lemma ClaimIsNamed(uid: Uid)
      requires Sound() && uid in queue.claims
      ensures queue.claims[uid] in queue.names && queue.names[queue.claims[uid]] == uid
    {
      hide Inv, WithinBudget, LargeIffMarked, BodiesTrue, NamesHold;
    }

    /** Rows appear or come back only while there is something left to intrude. */
    twostate predicate Continued()
      reads this, store, table
    {
      && Logged() && |meanwhile| <= |old(meanwhile)|
      && old(queue).downloaded <= queue.downloaded && old(queue).skipped <= queue.skipped
      && (|meanwhile| == |old(meanwhile)| ==> queue.created == old(queue).created && queue.reaped == old(queue).reaped)
    }

    /** Which outcomes may have been recorded: stored, failed. */
    twostate predicate Settles(attach: bool, fail: bool)
      reads this
    {
      (!attach ==> queue.attached == old(queue).attached) && (!fail ==> queue.failed == old(queue).failed)
    }

    /** No claim was let go without an outcome. */
    twostate predicate NothingLost()
      reads this
    {
      queue.lost == old(queue).lost
    }

    /** Exactly these rows were marked too large. */
    twostate predicate Marked(rows: set<Id>)
      reads this
    {
      queue.skipped == old(queue).skipped + rows
    }

    twostate predicate Unmarked()
      reads this
    {
      queue.skipped == old(queue).skipped
    }

    twostate predicate MarkedWithin(rows: set<Id>)
      reads this
    {
      old(queue).skipped <= queue.skipped <= old(queue).skipped + rows
    }

    /** Nothing moved but the tables, and only as the metadata pass and the reaper move them. */
    twostate predicate OnlyMeanwhile()
      reads this, store, table
    {
      && Continued() && queue == old(queue).(db := store.View(), created := queue.created, reaped := queue.reaped)
    }

    /** No database call is going to fail, and nothing takes rows away. */
    ghost predicate Smooth()
      reads this`faults
    {
      faults == [] && AllGentle(intrusions, mailbox, present)
    }

    // ------------------------------------------------------------ between database calls

    method PopFault() returns (fault: Option<bool>)
      modifies this`faults
      ensures |faults| <= |old(faults)| && (old(faults) == [] ==> fault == None)
    {
      fault := None;
      if |faults| > 0 {
        fault, faults := faults[0], faults[1..];
      }
    }

    /** Something else may write first; then this call may fail. */
    method Tick() returns (fault: Option<bool>)
      requires Logged()
      modifies this, store
      ensures OnlyMeanwhile() && (old(meanwhile) != [] ==> |meanwhile| < |old(meanwhile)|)
      ensures old(faults) == [] ==> fault == None && faults == []
    {
      hide Recorded, Sound, Claims.RowsFor, Queue.Table;
      if |meanwhile| > 0 {
        var s := meanwhile[0];
        assert s in meanwhile;
        meanwhile := meanwhile[1..];
        Intrude(s);
      }
      fault := PopFault();
    }

    /** A statement of the metadata pass; anything else is not its business. */
    method Perform(s: Statement) returns (done: bool)
      requires store.View().Constraints()
      modifies store
      ensures !done ==> store.View() == old(store.View())
      ensures done ==> && OfMetadata(s) && Enabled(old(store.View()), s) && Foreign(old(store.View()), s, mailbox)
                       && store.View() == Apply(old(store.View()), s)
    {
      hide Tables.Constraints;
      done := true;
      match s
      case DoUpsert(m) =>
        done := m.mailbox in store.mailboxes;
        if done {
          var created := store.UpsertMetadata(m);
        }
      case DoUpdateFlags(box, uid, flags, modSeq) => store.UpdateFlags(box, uid, flags, modSeq);
      case DoDeleteMissing(box, present) => store.DeleteMissingUIDs(box, present);
      case DoCheckpoint(box, c) => store.SaveCheckpoint(box, c);
      case DoReset(box, v) =>
        done := box in store.mailboxes;
        if done {
          store.ResetForUIDValidityChange(box, v);
        }
      case _ => done := false;
    }

    method Intrude(s: Statement)
      requires Logged() && s in intrusions && (s.DoReap? ==> s.cutoff <= began)
      modifies this`queues, this`steps, this`queue, store
      ensures Logged() && Settles(false, false)
      ensures queue == old(queue).(db := store.View(), created := queue.created, reaped := queue.reaped)
    {
      hide Recorded, Sound, ReapsOlder, Remaining, Claims.RowsFor, Tables.Constraints, Appeared,
           Reapable, Apply, Enabled, Foreign, OfMetadata;
      HasConstraints();
      if s.DoReap? {
        store.ReapStaleClaims(s.cutoff);
        Log(Reap(s.cutoff));
      } else {
        var done := Perform(s);
        if done {
          Log(Meanwhile(s));
        }
      }
    }

    // ------------------------------------------------------------ settling one claim

    /** Nothing else was claimed, remembered or taken, and nothing has intruded. */
    twostate predicate SameClaims()
      reads this`queue
    {
      && queue.held == old(queue).held && queue.claims == old(queue).claims && queue.left == old(queue).left
      && queue.claimed == old(queue).claimed && queue.names == old(queue).names && queue.records == old(queue).records
      && queue.created == old(queue).created && queue.reaped == old(queue).reaped
      && queue.began == old(queue).began && queue.large == old(queue).large
    }

    /** The worker's hand is empty again. */
    twostate predicate LetGo()
      reads this, store, table
    {
      && Continued() && queue.hands == map[] && queue.claimed == old(queue).claimed
      && queue.held == old(queue).held && queue.claims == old(queue).claims && queue.left == old(queue).left
      && queue.records == old(queue).records && queue.names == old(queue).names
    }

    method TakeClaim(uid: Uid) returns (claim: Option<Store.PendingBody>)
      requires Logged() && queue.hands == map[] && uid !in queue.left
      modifies this`queues, this`steps, this`queue, table
      ensures Continued() && Settles(false, false)
      ensures queue.held == old(queue).held && queue.claimed == old(queue).claimed && queue.left == old(queue).left
      ensures table.Of(mailbox) == old(table.Of(mailbox)) - {uid}
      ensures queue.hands == if claim.Some? then map[0 := claim.value.row] else map[]
      ensures claim.Some? <==> uid in old(table.Of(mailbox))
      ensures claim.Some? ==> claim.value.row == old(table.Of(mailbox))[uid]
      ensures claim.Some? ==> claim.value.row in queue.names && queue.names[claim.value.row] == uid
      ensures queue.records == old(queue).records
      ensures NothingLost() && Unmarked()
    {
      hide Recorded, Sound, ReapsOlder, Remaining, Claims.RowsFor, Tables.Constraints, Next, CanStep;
      HasConstraints();
      TakeStep(queue, uid, mailbox, maxAttempts);
      if uid in queue.claims {
        ClaimIsNamed(uid);
      }
      claim := table.Take(mailbox, uid);
      Log(Take(0, uid));
    }

    /** The row stays as it is, and nobody owns it any more. */
    ghost method LoseClaim(row: Id)
      requires Logged() && queue.hands == map[0 := row]
      modifies this`queues, this`steps, this`queue
      ensures LetGo() && Settles(false, false) && Unmarked()
    {
      hide Recorded, Sound, ReapsOlder, Remaining, Claims.RowsFor, Tables.Constraints, Next, CanStep;
      HasConstraints();
      DropStep(queue, row, mailbox, maxAttempts);
      Log(Drop(0));
    }

    method FailBody(row: Id) returns (fault: Option<bool>)
      requires Logged() && queue.hands == map[0 := row]
      modifies this, store
      ensures LetGo() && Settles(false, true) && Unmarked()
      ensures fault == None ==> queue.failed == old(queue).failed + 1 && NothingLost()
      ensures old(faults) == [] ==> fault == None && faults == []
    {
      hide Recorded, Sound, ReapsOlder, Remaining, Claims.RowsFor, Queue.Table;
      fault := Tick();
      if fault.Some? {
        LoseClaim(row);
      } else {
        RecordFailed(row);
      }
    }

    method RecordFailed(row: Id)
      requires Logged() && queue.hands == map[0 := row]
      modifies this`queues, this`steps, this`queue, store
      ensures LetGo() && Settles(false, true) && Unmarked()
      ensures queue.failed == old(queue).failed + 1 && NothingLost()
    {
      hide Recorded, Sound, ReapsOlder, Remaining, Claims.RowsFor, Tables.Constraints, Next, CanStep, Tables.MarkFailed;
      HasConstraints();
      FailStep(queue, row, mailbox, maxAttempts);
      store.MarkBodyFailed(row, maxAttempts);
      Log(Fail(0));
    }

    method SkipBody(row: Id) returns (fault: Option<bool>)
      requires Logged() && queue.hands == map[0 := row]
      modifies this, store
      ensures LetGo() && Settles(false, false)
      ensures queue.skipped == old(queue).skipped + if fault == None then {row} else {}
      ensures fault == None ==> NothingLost()
      ensures old(faults) == [] ==> fault == None && faults == []
    {
      hide Recorded, Sound, ReapsOlder, Remaining, Claims.RowsFor, Queue.Table;
      fault := Tick();
      if fault.Some? {
        LoseClaim(row);
      } else {
        RecordTooLarge(row);
      }
    }

    method RecordTooLarge(row: Id)
      requires Logged() && queue.hands == map[0 := row]
      modifies this`queues, this`steps, this`queue, store
      ensures LetGo() && Settles(false, false) && Marked({row}) && NothingLost()
    {
      hide Recorded, Sound, ReapsOlder, Remaining, Claims.RowsFor, Tables.Constraints, Next, CanStep,
           Tables.MarkTooLarge;
      HasConstraints();
      SkipStep(queue, row, mailbox, maxAttempts);
      store.MarkBodyTooLarge(row);
      Log(Skip(0));
    }

    /** Attach, look the message up, count. */
    method StoreBody(row: Id, content: Content) returns (fault: Option<bool>)
      requires Logged() && queue.hands == map[0 := row]
      requires honest && row in queue.names ==> content == mail(queue.names[row])
      modifies this, store
      ensures LetGo() && Settles(true, false) && Unmarked()
      ensures old(Smooth()) ==> fault == None && Smooth()
      ensures fault == None ==> row in queue.downloaded && Body(row, content) in queue.bodies
    {
      hide Recorded, Sound, ReapsOlder, Remaining, Claims.RowsFor, Tables.Constraints, Tables.Attach, AllGentle;
      fault := Tick();
      if fault.Some? {
        LoseClaim(row);
        return;
      }
      fault := Attach(row, content);
    }

    method Attach(row: Id, content: Content) returns (fault: Option<bool>)
      requires Logged() && queue.hands == map[0 := row]
      requires honest && row in queue.names ==> content == mail(queue.names[row])
      modifies this`queues, this`steps, this`queue, this`fetched, this`faults, store
      ensures LetGo() && Settles(true, false) && Unmarked()
      ensures old(Smooth()) ==> fault == None && Smooth()
      ensures fault == None ==> row in queue.downloaded && Body(row, content) in queue.bodies
    {
      hide Recorded, Sound, ReapsOlder, Remaining, Claims.RowsFor, Tables.Constraints, Apply, Tables.Attach,
           Queue.Table, AllGentle;
      HasConstraints();
      HandIsPresent(row, content);
      var ok := Write(row, content);
      fault := Some(false);
      if ok {
        fault := PopFault();
      }
      LogAttach(row, content, fault.None?);
      fetched := fetched + if fault.None? then 1 else 0;
      assert Logged() && SameClaims();
      hide Logged, SameClaims;
    }

    lemma AllClaimedPresent()
      requires Logged() && AllGentle(intrusions, mailbox, present)
      ensures NamesPresent(queue.db, queue.names, mailbox)
    {
      hide Sound, AllSpared, CanStep, Next, Start, AllGentle, OnlyIntrusions, NamesPresent, Queue.Table, Claims.RowsFor,
           ReapsOlder, Remaining;
      ClaimedArePresent(queues, steps, mailbox, maxAttempts, stale, intrusions, present, |steps|);
    }

    lemma HandIsFiled(row: Id)
      requires Sound() && queue.hands == map[0 := row]
      ensures row in queue.names && queue.db.Linked()
    {
      hide Inv, WithinBudget, LargeIffMarked, BodiesTrue, NamesHold;
      HasConstraints();
      HandsAreFiled(queue);
      assert 0 in queue.hands && queue.hands[0] == row;
    }

    /** With nothing taking rows away, the row in hand can be written. */
    lemma HandIsPresent(row: Id, content: Content)
      requires Logged() && queue.hands == map[0 := row]
      ensures AllGentle(intrusions, mailbox, present) ==> store.View().Attach(row, content).Some?
    {
      if AllGentle(intrusions, mailbox, present) {
        AllClaimedPresent();
        HandIsFiled(row);
        hide Recorded, Sound, AllGentle, Claims.RowsFor, ReapsOlder, Remaining, Queue.Table, Tables.Linked,
             Tables.Attach;
        RowCanBeWritten(store.View(), row, content);
      }
    }

    method Write(row: Id, content: Content) returns (ok: bool)
      requires store.View().Constraints()
      modifies store
      ensures store.View() == Apply(old(store.View()), DoAttach(row, content))
      ensures ok <==> old(store.View()).Attach(row, content).Some?
    {
      hide Tables.Constraints, Tables.Attach;
      ok := store.AttachBody(row, content);
    }

    ghost method LogAttach(row: Id, content: Content, lookedUp: bool)
      requires Recorded() && Sound() && queue.hands == map[0 := row] && queue.db.Constraints()
      requires honest && row in queue.names ==> content == mail(queue.names[row])
      requires lookedUp ==> queue.db.Attach(row, content).Some?
      modifies this`queues, this`steps, this`queue
      ensures Recorded() && Sound() && SameClaims() && queue.failed == old(queue).failed && Unmarked()
      ensures queue.hands == map[] && queue.Table() == old(queue).Table()
      ensures queue.db == Apply(old(queue).db, DoAttach(row, content))
      ensures queue.fetched == old(queue).fetched + (if lookedUp then 1 else 0)
      ensures old(queue).downloaded <= queue.downloaded
      ensures lookedUp ==> row in queue.downloaded && Body(row, content) in queue.bodies
    {
      hide Recorded, Sound, Tables.Constraints, Tables.Attach, Next, CanStep, Queue.Table;
      AttachStep(queue, row, content, lookedUp, mailbox, maxAttempts);
      Log(BodyQueue.Attach(0, content, lookedUp));
    }

    // ------------------------------------------------------------ one batch

    /** Between messages: nothing in hand, and claims have only been consumed. */
    twostate predicate Consumed()
      reads this, store, table
    {
      && Continued() && queue.hands == map[] && queue.held == old(queue).held && queue.claimed == old(queue).claimed
      && queue.left == old(queue).left && queue.records == old(queue).records
      && PartOf(table.Of(mailbox), old(table.Of(mailbox)))
    }

    /** The body handler, behind the size gate. */
    method Deliver(a: Answer) returns (err: Option<FetchError>)
      requires Logged() && queue.hands == map[] && a.uid !in queue.left && (honest ==> HonestAnswer(a, mail))
      modifies this, store, table
      ensures Consumed() && Unmarked()
      ensures var usable := a.literal.Some? && a.literal.value.usable;
              var claimed := a.uid in old(table.Of(mailbox)) && a.literal.Some?;
              Settles(claimed && usable, claimed && !usable)
      ensures err == None && a.literal.Some? && a.literal.value.usable && a.uid in old(table.Of(mailbox)) ==>
                var row := old(table.Of(mailbox))[a.uid];
                && row in queue.downloaded && Body(row, a.literal.value.content) in queue.bodies
                && row in queue.names && queue.names[row] == a.uid
      ensures err == None ==> table.Of(mailbox) == old(table.Of(mailbox)) - Delivered([a])
      ensures old(Smooth()) ==> Smooth() && (err == None || err == Some(ExceedsLimit))
      ensures err == Some(ExceedsLimit) <==> AboveLimit(a, maxSize)
      ensures AboveLimit(a, maxSize) ==> table.Of(mailbox) == old(table.Of(mailbox)) && faults == old(faults)
      ensures err == None && a.literal.Some? && !a.literal.value.usable && a.uid in old(table.Of(mailbox)) ==>
                queue.failed == old(queue).failed + 1
    {
      hide Logged, PartOf, ReapsOlder, Remaining, Claims.RowsFor, Tables.Constraints, AllGentle;
      err := None;
      DeliveredOne(a);
      PartOfItself(table.Of(mailbox), {});
      if a.literal.None? {
        return;
      }
      if AboveLimit(a, maxSize) {
        return Some(ExceedsLimit);
      }
      PartOfItself(table.Of(mailbox), {a.uid});
      var claim := TakeClaim(a.uid);
      if claim.None? {
        return;
      }
      var fault;
      if !a.literal.value.usable {
        fault := FailBody(claim.value.row);
      } else {
        fault := StoreBody(claim.value.row, a.literal.value.content);
      }
      if fault.Some? {
        err := Some(Fault(fault.value));
      }
    }

    /** Delivers answer after answer, up to the first that is above the limit or cannot be
        recorded. */
    method Fetch(answers: seq<Answer>, failure: Option<bool>) returns (err: Option<FetchError>)
      requires Logged() && queue.hands == map[] && AnswersApart(answers, queue.left)
      requires honest ==> HonestAnswers(answers, mail)
      modifies this, store, table
      ensures Consumed() && Settles(true, true) && Unmarked()
      ensures Delivered(answers) !! old(table.Of(mailbox)).Keys ==> Settles(false, false)
      ensures err == None ==> FirstAbove(answers, maxSize) == |answers|
                              && table.Of(mailbox) == old(table.Of(mailbox)) - Delivered(answers)
      ensures err == Some(ExceedsLimit) ==>
                var k := FirstAbove(answers, maxSize);
                k < |answers| && table.Of(mailbox) == old(table.Of(mailbox)) - Delivered(answers[..k])
      ensures old(Smooth()) ==>
                Smooth() && err == if FirstAbove(answers, maxSize) < |answers| then Some(ExceedsLimit)
                                  else if failure.Some? then Some(Fault(failure.value)) else None
      ensures DistinctUids(answers) && (err == None || err == Some(ExceedsLimit)) ==>
                RowsAt(old(table.Of(mailbox)), Usable(answers[..FirstAbove(answers, maxSize)])) <= queue.downloaded
      ensures answers != [] && FirstAbove(answers, maxSize) == 0 ==> err == Some(ExceedsLimit) && faults == old(faults)
    {
      hide Logged, PartOf, ReapsOlder, Remaining, Claims.RowsFor, Tables.Constraints, AboveLimit, Delivered,
           Usable, RowsAt, AllGentle;
      ghost var claims := table.Of(mailbox);
      ghost var nothing := Delivered(answers) !! claims.Keys;
      DeliveredNone(answers);
      UsableNone(claims, answers);
      PartOfItself(claims, {});
      for i := 0 to |answers|
        invariant Consumed() && Settles(true, true) && Unmarked()
        invariant old(Smooth()) ==> Smooth()
        invariant DistinctUids(answers) ==> RowsAt(claims, Usable(answers[..i])) <= queue.downloaded
        invariant nothing ==> Settles(false, false)
        invariant table.Of(mailbox) == claims - Delivered(answers[..i])
        invariant i <= FirstAbove(answers, maxSize) && (i == 0 ==> faults == old(faults))
      {
        DeliveredNext(answers, i);
        DeliveredOne(answers[i]);
        DeliveredSoFar(answers, i + 1);
        UsableNext(claims, answers, i);
        assert answers[i] in answers;
        ghost var before := table.Of(mailbox);
        err := Deliver(answers[i]);
        PartOfPart(table.Of(mailbox), before, claims);
        LessTwice(claims, Delivered(answers[..i]), Delivered([answers[i]]));
        if err.Some? {
          return;
        }
      }
      assert answers[..|answers|] == answers;
      err := if failure.Some? then Some(Fault(failure.value)) else None;
    }

    /** Whatever the batch still claims is marked too large. */
    method SkipBatch(batch: seq<SizedUid>) returns (fault: Option<bool>)
      requires Logged() && queue.hands == map[] && Uids(batch) !! queue.left.Keys
      modifies this, store, table
      ensures Consumed() && Settles(false, false)
      ensures MarkedWithin(RowsAt(old(table.Of(mailbox)), Uids(batch)))
      ensures fault == None ==> && table.Of(mailbox) == old(table.Of(mailbox)) - Uids(batch) && NothingLost()
                                && Marked(RowsAt(old(table.Of(mailbox)), Uids(batch)))
      ensures old(faults) == [] ==> fault == None && faults == []
    {
      hide Logged, PartOf, ReapsOlder, Remaining, Claims.RowsFor, Tables.Constraints, Uids, RowsAt;
      UidsNone(batch);
      PartOfItself(table.Of(mailbox), {});
      ghost var claims := table.Of(mailbox);
      RowsAtNone(claims);
      for i := 0 to |batch|
        invariant NothingLost() && Consumed() && Settles(false, false)
        invariant table.Of(mailbox) == claims - Uids(batch[..i]) && Marked(RowsAt(claims, Uids(batch[..i])))
        invariant old(faults) == [] ==> faults == []
      {
        UidsNext(batch, i);
        UidsSoFar(batch, i + 1);
        RowsAtNext(claims, Uids(batch[..i]), batch[i].uid);
        RowsAtSome(claims, Uids(batch[..i + 1]), Uids(batch));
        PartOfItself(claims, Uids(batch[..i + 1]));
        LessTwice(claims, Uids(batch[..i]), {batch[i].uid});
        var claim := TakeClaim(batch[i].uid);
        if claim.Some? {
          fault := SkipBody(claim.value.row);
          if fault.Some? {
            return;
          }
        }
      }
      assert batch[..|batch|] == batch;
      fault := None;
    }

    /** Whatever the batch still claims is released for another attempt. */
    method FailBatch(batch: seq<SizedUid>)
      requires Logged() && queue.hands == map[] && Uids(batch) !! queue.left.Keys
      modifies this, store, table
      ensures old(table.Of(mailbox)).Keys !! Uids(batch) ==> Settles(false, false)
      ensures Consumed() && Settles(false, true) && Unmarked()
      ensures table.Of(mailbox).Keys !! Uids(batch)
      ensures old(faults) == [] ==> faults == [] && NothingLost()
    {
      hide Logged, PartOf, ReapsOlder, Remaining, Claims.RowsFor, Tables.Constraints, Uids;
      UidsNone(batch);
      ghost var claims := table.Of(mailbox);
      PartOfItself(claims, {});
      ghost var nothing := table.Of(mailbox).Keys !! Uids(batch);
      for i := 0 to |batch|
        invariant old(faults) == [] ==> faults == [] && NothingLost()
        invariant nothing ==> Settles(false, false)
        invariant Consumed() && Settles(false, true) && Unmarked()
        invariant table.Of(mailbox) == claims - Uids(batch[..i])
      {
        UidsNext(batch, i);
        UidsSoFar(batch, i + 1);
        PartOfItself(claims, Uids(batch[..i + 1]));
        LessTwice(claims, Uids(batch[..i]), {batch[i].uid});
        var claim := TakeClaim(batch[i].uid);
        if claim.Some? {
          var fault := FailBody(claim.value.row);
        }
      }
      assert batch[..|batch|] == batch;
    }

    /** Downloads one batch. On success without a literal above the limit exactly the delivered
        claims are consumed; with one, the rows of all claims the batch still had are marked too
        large, and no other row ever is. After a failure none of the batch's claims remain,
        unless marking itself failed. */
    method FetchBatch(batch: seq<SizedUid>, response: Response) returns (err: Option<bool>)
      requires Logged() && queue.hands == map[] && Uids(batch) !! queue.left.Keys
      requires honest ==> HonestAnswers(response.answers, mail)
      modifies this, store, table
      ensures Consumed() && Settles(true, true)
      ensures old(table.Of(mailbox)).Keys !! Uids(batch) ==> Settles(false, false) && Unmarked()
      ensures MarkedWithin(RowsAt(old(table.Of(mailbox)), Uids(batch)))
      ensures var received := Received(response.answers, Uids(batch));
              var k := FirstAbove(received, maxSize);
              var rest := old(table.Of(mailbox)) - Delivered(received[..k]);
              && (k == |received| ==> Unmarked() && (err.Some? ==> table.Of(mailbox).Keys !! Uids(batch)))
              && (err == None && k == |received| ==> table.Of(mailbox) == rest)
              && (err == None && k < |received| ==>
                    table.Of(mailbox) == rest - Uids(batch) && Marked(RowsAt(rest, Uids(batch))))
              && (old(Smooth()) ==> Smooth() && err == if k < |received| then None else response.failure)
              && (err == None ==> RowsAt(old(table.Of(mailbox)), Usable(received[..k])) <= queue.downloaded)
              && (old(faults) == [] && received != [] && k == 0 ==> err == None)
    {
      hide Logged, PartOf, ReapsOlder, Remaining, Claims.RowsFor, Tables.Constraints, Uids, Delivered, AboveLimit,
           Received, FirstAbove, RowsAt, Usable, AllGentle;
      var received := Receive(batch, response.answers);
      ReceivedOnce(response.answers, Uids(batch));
      ghost var claims := table.Of(mailbox);
      DeliveredAreReceived(received, Uids(batch));
      var failure := Fetch(received, response.failure);
      ghost var rest := table.Of(mailbox);
      RowsAtPart(table.Of(mailbox), claims, Uids(batch));
      assert received[..|received|] == received;
      err := None;
      match failure
      case None =>
      case Some(ExceedsLimit) =>
        err := SkipBatch(batch);
        PartOfPart(table.Of(mailbox), rest, claims);
      case Some(Fault(recoverable)) =>
        FailBatch(batch);
        PartOfPart(table.Of(mailbox), rest, claims);
        err := Some(recoverable);
    }

    /** No claim of the batch is left, and each of its rows is stored or marked too large: stored if
        all of its messages are within the limit, marked if none is. */
    twostate predicate WholeBatch(batch: seq<SizedUid>)
      reads this, table
    {
      var rows := RowsAt(old(table.Of(mailbox)), Uids(batch));
      && table.Of(mailbox) == old(table.Of(mailbox)) - Uids(batch)
      && rows <= queue.downloaded + queue.skipped
      && (honest && AllWithin(Uids(batch), mail, maxSize) ==> rows <= queue.downloaded)
      && (honest && AllTooLarge(Uids(batch), mail, maxSize) ==> rows <= queue.skipped)
    }

    /** One attempt at the batch. */
    method Attempt(batch: seq<SizedUid>, try: Try) returns (err: Option<bool>)
      requires Logged() && queue.hands == map[] && Uids(batch) !! queue.left.Keys
      requires honest ==> HonestTry(try, mail)
      modifies this, store, table
      ensures Consumed() && MarkedWithin(RowsAt(old(table.Of(mailbox)), Uids(batch)))
      ensures honest ==> Unmarked() || AnyTooLarge(Uids(batch), mail, maxSize)
      ensures try.NoConnection? ==> err == Some(true)
      ensures old(Smooth()) ==> Smooth() && err == EndOf(try, Uids(batch), maxSize)
      ensures old(Smooth()) && Full(try, Uids(batch)) ==> WholeBatch(batch)
    {
      hide Logged, PartOf, ReapsOlder, Remaining, Claims.RowsFor, Tables.Constraints, Uids, Delivered, AboveLimit,
           Received, FirstAbove, RowsAt, Settles, AnyTooLarge, HonestAnswers, AllGentle, Usable, AnsweredUids,
           AllWithin, AllTooLarge;
      err := Some(true);
      PartOfItself(table.Of(mailbox), {});
      if try.Answered? {
        ghost var answers := try.response.answers;
        HonestIsTooLarge(answers, Uids(batch), mail, maxSize);
        if Full(try, Uids(batch)) {
          FullSettles(try.response, table.Of(mailbox), Uids(batch), maxSize);
          if honest {
            FullLimits(try.response, table.Of(mailbox), Uids(batch), mail, maxSize);
          }
          RowsAtNone(table.Of(mailbox));
        }
        err := FetchBatch(batch, try.response);
      }
    }

    /** Runs the batch again on a fresh connection while that could help. By then a failed
        attempt has released the batch, so the repeat finds no claim and settles nothing. Rows
        are marked too large only among the batch's own, and only if the batch holds a message
        that really is. With nothing to fail here, the first attempt that is not worth repeating
        decides, or the last; and one that brings every body settles the whole batch. */
    method FetchBatchSession(batch: seq<SizedUid>, attempts: int) returns (err: Option<bool>, ghost made: nat)
      requires Logged() && queue.hands == map[] && Uids(batch) !! queue.left.Keys && (honest ==> wire.Honest(mail))
      modifies this, store, table, wire
      ensures Consumed() && wire.asked == old(wire.asked) + [batch] && (honest ==> wire.Honest(mail))
      ensures MarkedWithin(RowsAt(old(table.Of(mailbox)), Uids(batch)))
      ensures honest ==> Unmarked() || AnyTooLarge(Uids(batch), mail, maxSize)
      ensures wire.tries == TriesFrom(old(wire.tries), made) && 1 <= made <= (if attempts < 1 then 1 else attempts)
      ensures old(wire.Generous(present)) ==> wire.Generous(present)
      ensures old(Smooth()) ==>
                Smooth() && Decided(old(wire.tries), wire.last, made, attempts, Uids(batch), maxSize, err)
      ensures old(Smooth()) && Full(TryAt(old(wire.tries), wire.last, 0), Uids(batch)) ==>
                err == None && made == 1 && WholeBatch(batch)
    {
      hide Logged, PartOf, ReapsOlder, Remaining, Claims.RowsFor, Tables.Constraints, Uids, RowsAt, Settles,
           AnyTooLarge, Wire.Honest, Wire.Generous, HonestAnswers, HonestTry, AllGentle, AllWithin, AllTooLarge, Full,
           EndOf, WorthRepeating, TryAt, TriesFrom, AllRepeated, Decided;
      var n := if attempts < 1 then 1 else attempts;
      wire.asked := wire.asked + [batch];
      err, made := Some(true), 0;
      ghost var claims, tries := table.Of(mailbox), wire.tries;
      PartOfItself(claims, {});
      NothingMade(tries, wire.last, Uids(batch), maxSize);
      for attempt := 0 to n
        invariant Consumed() && wire.asked == old(wire.asked) + [batch] && (honest ==> wire.Honest(mail))
        invariant MarkedWithin(RowsAt(claims, Uids(batch)))
        invariant honest ==> Unmarked() || AnyTooLarge(Uids(batch), mail, maxSize)
        invariant made == attempt && wire.tries == TriesFrom(tries, attempt)
        invariant attempt == 0 ==> table.Of(mailbox) == claims
        invariant old(wire.Generous(present)) ==> wire.Generous(present)
        invariant old(Smooth()) ==> Smooth() && AllRepeated(tries, wire.last, attempt, Uids(batch), maxSize)
        invariant old(Smooth()) && attempt == n ==>
                    Decided(tries, wire.last, n, attempts, Uids(batch), maxSize, err)
      {
        MakeOne(tries, wire.last, attempt, attempts, Uids(batch), maxSize);
        var try := wire.NextTry(mail, present);
        made := attempt + 1;
        RowsAtPart(table.Of(mailbox), claims, Uids(batch));
        ghost var before := table.Of(mailbox);
        err := Attempt(batch, try);
        PartOfPart(table.Of(mailbox), before, claims);
        if try == NoConnection(true) || err != Some(true) {
          return;
        }
      }
      MakeOne(tries, wire.last, n, attempts, Uids(batch), maxSize);
    }

    // ------------------------------------------------------------ the producer

    /** Claims the newest rows that may be, and reports what the tables say of them. */
    method ClaimWork(limit: nat, locked: set<Id>, clock: nat) returns (claimed: seq<Store.PendingBody>)
      requires Logged() && queue.hands == map[] && queue.held == map[] && clock >= began
      modifies this`queues, this`steps, this`queue, store
      ensures Continued() && queue.hands == map[] && queue.claims == old(queue).claims && queue.left == old(queue).left
      ensures queue.created == old(queue).created && queue.reaped == old(queue).reaped && Unmarked()
      ensures old(store.View()).ClaimChoice(Store.RowsIn(claimed), mailbox, limit, maxAttempts, locked)
      ensures store.View() == old(store.View()).Claim(Store.RowsIn(claimed), clock)
      ensures Store.AllDescribed(old(store.View()), claimed) && |claimed| == |Store.RowsIn(claimed)|
      ensures queue.claimed == old(queue).claimed + multiset(Store.RowsIn(claimed))
      ensures queue.records == old(queue).records + Reported(claimed)
      ensures queue.held == RowsByUid(Index(claimed)) && (|claimed| == 0 ==> queue.held == map[])
      ensures Indexed(queue.held, claimed)
      ensures |claimed| == 0 && limit > 0 ==>
                forall r | store.View().Claimable(r, mailbox, maxAttempts) :: r in locked
    {
      hide Recorded, Sound, ReapsOlder, Remaining, Claims.RowsFor, Tables.Constraints, Store.AllDescribed, Store.RowsIn,
           Tables.ClaimChoice, Tables.Claim, Next, CanStep, Index, RowsByUid, Indexed, Reported;
      HasConstraints();
      ghost var q := queue;
      var taken;
      claimed, taken := store.ClaimPendingBodies(mailbox, limit, maxAttempts, locked, clock);
      ClaimStep(q, claimed, taken, limit, locked, clock, mailbox, maxAttempts);
      Log(BodyQueue.Claim(limit, locked, taken, clock));
    }

    /** The round's claims are in the table, and none of their UIDs stands for an older claim. */
    method RememberWork(claimed: seq<Store.PendingBody>)
      requires Logged() && queue.hands == map[] && queue.held == RowsByUid(Index(claimed))
      requires Indexed(queue.held, claimed)
      modifies this`queues, this`steps, this`queue, table
      ensures Continued() && queue.hands == map[] && queue.held == map[] && Unmarked()
      ensures queue.created == old(queue).created && queue.reaped == old(queue).reaped
      ensures queue.claimed == old(queue).claimed && queue.records == old(queue).records
      ensures Indexed(table.Of(mailbox), claimed) && Uids(Sized(claimed)) !! queue.left.Keys
    {
      hide Recorded, Sound, ReapsOlder, Remaining, Claims.RowsFor, Tables.Constraints, Next, CanStep, Index, RowsByUid,
           Indexed, Uids, Sized;
      HasConstraints();
      var byUid := BuildIndex(claimed);
      IndexedBeneath(queue.left, queue.claims, queue.held, claimed);
      RememberStep(queue, mailbox, maxAttempts);
      table.Remember(mailbox, byUid);
      Log(BodyQueue.Remember);
    }

    /** One batch of the plan. */
    method FetchPlanned(ghost claimed: seq<Store.PendingBody>, ghost claims: map<Uid, Id>, plan: seq<seq<SizedUid>>,
                        i: nat, ghost budget: BatchBudget, attempts: int, ghost exact: bool)
      returns (err: Option<bool>)
      requires Logged() && queue.hands == map[] && Uids(Sized(claimed)) !! queue.left.Keys
      requires budget.Partition(Sized(claimed), plan) && i < |plan| && PartOf(table.Of(mailbox), claims)
      requires honest ==> wire.Honest(mail)
      requires exact ==> honest && TrueSizes(Reported(claimed), mail) && Oversize.KeepsApart(budget, maxSize)
      modifies this, store, table, wire
      ensures Consumed() && wire.asked == old(wire.asked) + [plan[i]] && (honest ==> wire.Honest(mail))
      ensures exact && Indexed(claims, claimed) ==> MarkedWithin(RowsAbove(Reported(claimed), maxSize))
      ensures (old(Smooth()) ==> Smooth()) && (old(wire.Generous(present)) ==> wire.Generous(present))
      ensures old(Smooth() && wire.Generous(present)) && Uids(Sized(claimed)) <= present ==>
                && err == None
                && (old(RoundSoFar(Reported(claimed), claims, plan, i, table.Of(mailbox), queue, maxSize, exact)) ==>
                      RoundSoFar(Reported(claimed), claims, plan, i + 1, table.Of(mailbox), queue, maxSize, exact))
    {
      hide Logged, PartOf, ReapsOlder, Remaining, Claims.RowsFor, Tables.Constraints, BatchBudget.Partition, Sized,
           Uids, RowsAt, Indexed, TrueSizes, RowsAbove, Reported, Wire.Honest, Wire.Generous, Oversize.KeepsApart,
           AnyTooLarge, AllWithin, AllTooLarge, AllGentle, RoundSoFar, Full, TryAt, TriesFrom, Decided;
      PlanIsPart(budget, Sized(claimed), plan, i);
      RowsAtPart(table.Of(mailbox), claims, Uids(plan[i]));
      if exact {
        BatchIsOneKind(claimed, plan, i, budget, mail, maxSize);
        if Indexed(claims, claimed) {
          BatchRowsAbove(claims, claimed, plan, i, budget, mail, maxSize);
        }
      }
      if wire.Generous(present) && Uids(Sized(claimed)) <= present {
        GenerousIsFull(wire, present, Uids(plan[i]));
      }
      ghost var before, q, made := table.Of(mailbox), queue, 0;
      err, made := FetchBatchSession(plan[i], attempts);
      if old(Smooth() && wire.Generous(present)) && Uids(Sized(claimed)) <= present
         && RoundSoFar(Reported(claimed), claims, plan, i, before, q, maxSize, exact) {
        RoundGoesOn(Reported(claimed), claims, plan, i, before, table.Of(mailbox), q, queue, maxSize, exact);
      }
    }

    /** Plans one round of claims and fetches it, every claim in one legal batch. After a batch
        has failed for good the worker only drains: the claims of later batches stay in the
        table. With an honest server, settings that keep the sizes apart, and recorded sizes that
        are true, no message within the limit is marked too large. And if the server answers in
        full and nothing fails here, every claim is settled. */
    method FetchAll(claimed: seq<Store.PendingBody>, budget: BatchBudget, attempts: int, broken: bool)
      returns (broken': bool, ghost batches: seq<seq<SizedUid>>)
      requires Logged() && queue.hands == map[] && queue.held == map[] && Uids(Sized(claimed)) !! queue.left.Keys
      requires honest ==> wire.Honest(mail)
      modifies this, store, table, wire
      ensures Continued() && queue.hands == map[] && queue.held == map[] && queue.claimed == old(queue).claimed
      ensures queue.records == old(queue).records && (honest ==> wire.Honest(mail))
      ensures budget.Partition(Sized(claimed), batches) && old(wire.asked) <= wire.asked <= old(wire.asked) + batches
      ensures if broken' then broken ==> wire.asked == old(wire.asked) else wire.asked == old(wire.asked) + batches
      ensures honest && old(Indexed(table.Of(mailbox), claimed)) && TrueSizes(Reported(claimed), mail)
              && Oversize.KeepsApart(budget, maxSize)
              ==> MarkedWithin(RowsAbove(Reported(claimed), maxSize))
      ensures (old(Smooth()) ==> Smooth()) && (old(wire.Generous(present)) ==> wire.Generous(present))
      ensures old(Smooth() && wire.Generous(present) && Indexed(table.Of(mailbox), claimed))
              && Uids(Sized(claimed)) <= present && !broken ==>
                && !broken' && AllSettled(Reported(claimed), queue, maxSize, false)
                && (honest && TrueSizes(Reported(claimed), mail) && Oversize.KeepsApart(budget, maxSize) ==>
                      AllSettled(Reported(claimed), queue, maxSize, true))
    {
      hide AskedSoFar, Logged, PartOf, ReapsOlder, Remaining, Claims.RowsFor, Tables.Constraints, BatchBudget.Partition,
           BatchBudget.Maximal, Sized, Uids, RowsAt, Indexed, TrueSizes, RowsAbove, Reported, Wire.Honest,
           Wire.Generous, Oversize.KeepsApart, Settles, AllGentle, RoundSoFar, AllSettled, Smooth;
      var sized := SizeUp(claimed);
      var plan := PlanBatches(sized, budget);
      batches := plan;
      broken' := broken;
      ghost var done, asked, claims := 0, wire.asked, table.Of(mailbox);
      AskedOneMore(asked, plan, 0);
      ghost var exact := honest && TrueSizes(Reported(claimed), mail) && Oversize.KeepsApart(budget, maxSize);
      ghost var full := Smooth() && wire.Generous(present) && Indexed(claims, claimed)
                        && Uids(Sized(claimed)) <= present && !broken;
      PartOfItself(claims, {});
      if full {
        RoundBegins(claims, claimed, plan, queue, maxSize, exact);
      }
      for i := 0 to |plan|
        invariant Consumed()
        invariant done <= i && AskedSoFar(asked, plan, done, wire.asked)
        invariant broken ==> broken'
        invariant if broken' then broken ==> done == 0 else done == i
        invariant (honest ==> wire.Honest(mail)) && (old(Smooth()) ==> Smooth())
        invariant old(wire.Generous(present)) ==> wire.Generous(present)
        invariant exact && Indexed(claims, claimed) ==> MarkedWithin(RowsAbove(Reported(claimed), maxSize))
        invariant full ==>
                    && !broken'
                    && RoundSoFar(Reported(claimed), claims, plan, i, table.Of(mailbox), queue, maxSize, exact)
      {
        if !broken' {
          ghost var before := table.Of(mailbox);
          var err := FetchPlanned(claimed, claims, plan, i, budget, attempts, exact);
          PartOfPart(table.Of(mailbox), before, claims);
          broken' := err.Some?;
          AskedOneMore(asked, plan, done);
          done := done + 1;
        }
      }
      AskedAtMost(asked, plan, done, wire.asked);
      if full {
        RoundEnds(budget, claimed, claims, plan, table.Of(mailbox), queue, maxSize, exact);
      }
    }

    /** One round: what was claimed is remembered, then fetched. */
    method Work(claimed: seq<Store.PendingBody>, budget: BatchBudget, attempts: int, broken: bool, ghost base: set<Id>)
      returns (broken': bool)
      requires Logged() && queue.hands == map[] && queue.held == RowsByUid(Index(claimed))
      requires Indexed(queue.held, claimed) && Reported(claimed) <= queue.records && (honest ==> wire.Honest(mail))
      modifies this, store, table, wire
      ensures Continued() && queue.hands == map[] && queue.held == map[] && queue.claimed == old(queue).claimed
      ensures queue.records == old(queue).records && (honest ==> wire.Honest(mail))
      ensures honest && TrueSizes(queue.records, mail) && Oversize.KeepsApart(budget, maxSize)
              && OnlyAbove(old(queue).skipped, base, queue.records, maxSize)
              ==> OnlyAbove(queue.skipped, base, queue.records, maxSize)
      ensures (old(Smooth()) ==> Smooth()) && (old(wire.Generous(present)) ==> wire.Generous(present))
      ensures old(Smooth() && wire.Generous(present)) && Uids(Sized(claimed)) <= present && !broken ==>
                && !broken' && AllSettled(Reported(claimed), queue, maxSize, false)
                && (honest && TrueSizes(queue.records, mail) && Oversize.KeepsApart(budget, maxSize) ==>
                      AllSettled(Reported(claimed), queue, maxSize, true))
    {
      hide Logged, ReapsOlder, Remaining, Claims.RowsFor, Tables.Constraints, Index, RowsByUid, Indexed, Sized, Uids,
           TrueSizes, RowsAbove, Reported, Wire.Honest, Wire.Generous, Oversize.KeepsApart, BatchBudget.Partition,
           Queue.Table, AllGentle, AllSettled;
      MoreRecords(Reported(claimed), queue.records, mail, maxSize);
      RememberWork(claimed);
      ghost var batches;
      broken', batches := FetchAll(claimed, budget, attempts, broken);
    }

    lemma WithinBounds()
      requires Logged()
      ensures |queue.claimed| <= MostClaims(queue, maxAttempts, start)
    {
    }

    /** What the pass leaves being fetched was so before it began, lost its claim to a failed
        database call, or is in the claim table. */
    ghost predicate LeavesNothingElse()
      reads this, store, table
    {
      && (forall r | r in InState(store.View(), mailbox, Fetching) ::
            r in stale || r in queue.lost || r in Rows(table.Of(mailbox)))
      && (forall r | r in Rows(queue.claims) && r in store.View().rows ::
            InFlight(store.View().rows[r], mailbox, began))
    }

    /** No UIDs have turned up but the server's. */
    lemma UidsArePresent()
      requires Logged() && first.db.UidsOf(mailbox) <= present
      ensures AllGentle(intrusions, mailbox, present) ==> store.View().UidsOf(mailbox) <= present
    {
      hide Sound, AllSpared, CanStep, Next, Start, AllGentle, OnlyIntrusions, Queue.Table, Claims.RowsFor, ReapsOlder,
           Remaining, Stays;
      if AllGentle(intrusions, mailbox, present) {
        PassKeepsRows(queues, steps, mailbox, maxAttempts, intrusions, present, |steps|);
        StaysPresent(first.db, store.View(), mailbox, present);
      }
    }

    /** One sweep: claim what there is, and work it off. */
    method Sweep(limit: nat, locked: set<Id>, clock: nat, budget: BatchBudget, attempts: int, broken: bool,
                 ghost base: set<Id>, ghost known: set<Record>, ghost apart: bool, ghost full: bool)
      returns (fault: Option<bool>, claims: nat, broken': bool)
      requires Logged() && queue.hands == map[] && queue.held == map[] && clock >= began && known <= queue.records
      requires (honest ==> wire.Honest(mail)) && (apart ==> honest && Oversize.KeepsApart(budget, maxSize))
      requires full ==> Smooth() && wire.Generous(present) && first.db.UidsOf(mailbox) <= present
      requires Tally(base, known, queue, mail, maxSize, apart, full, broken)
      modifies this, store, table, wire
      ensures Continued() && queue.hands == map[] && queue.held == map[] && old(queue).records <= queue.records
      ensures |queue.claimed| == |old(queue).claimed| + claims && (honest ==> wire.Honest(mail))
      ensures old(meanwhile) != [] ==> |meanwhile| < |old(meanwhile)|
      ensures fault == None && claims == 0 && limit > 0 ==>
                forall r | store.View().Claimable(r, mailbox, maxAttempts) :: r in locked
      ensures Tally(base, known, queue, mail, maxSize, apart, full, broken')
      ensures (old(Smooth()) ==> fault == None && Smooth()) && (old(wire.Generous(present)) ==> wire.Generous(present))
    {
      hide Logged, PartOf, ReapsOlder, Remaining, Claims.RowsFor, Tables.Constraints, Index, RowsByUid,
           Tables.Claimable, Tables.ClaimChoice, Tables.Claim, Store.AllDescribed, Store.RowsIn, Indexed, Sized,
           OnlyAbove, Uids, TrueSizes, RowsAbove, Reported, Wire.Honest, Wire.Generous, Oversize.KeepsApart,
           BatchBudget.Partition, Queue.Table, AllGentle, Tally, Tables.UidsOf;
      claims, broken' := 0, broken;
      ghost var before := queue;
      fault := Tick();
      TallyStays(base, known, before, queue, mail, maxSize, apart, full, broken);
      if fault.Some? {
        return;
      }
      claims, broken' := ClaimAndWork(limit, locked, clock, budget, attempts, broken, base, known, apart, full);
    }

    method ClaimAndWork(limit: nat, locked: set<Id>, clock: nat, budget: BatchBudget, attempts: int, broken: bool,
                        ghost base: set<Id>, ghost known: set<Record>, ghost apart: bool, ghost full: bool)
      returns (claims: nat, broken': bool)
      requires Logged() && queue.hands == map[] && queue.held == map[] && clock >= began && known <= queue.records
      requires (honest ==> wire.Honest(mail)) && (apart ==> honest && Oversize.KeepsApart(budget, maxSize))
      requires full ==> Smooth() && wire.Generous(present) && first.db.UidsOf(mailbox) <= present
      requires Tally(base, known, queue, mail, maxSize, apart, full, broken)
      modifies this, store, table, wire
      ensures Continued() && queue.hands == map[] && queue.held == map[] && old(queue).records <= queue.records
      ensures |queue.claimed| == |old(queue).claimed| + claims && (honest ==> wire.Honest(mail))
      ensures claims == 0 && limit > 0 ==>
                forall r | store.View().Claimable(r, mailbox, maxAttempts) :: r in locked
      ensures Tally(base, known, queue, mail, maxSize, apart, full, broken')
      ensures (old(Smooth()) ==> Smooth()) && (old(wire.Generous(present)) ==> wire.Generous(present))
    {
      hide Logged, PartOf, ReapsOlder, Remaining, Claims.RowsFor, Tables.Constraints, Index, RowsByUid,
           Tables.Claimable, Tables.ClaimChoice, Tables.Claim, Store.AllDescribed, Store.RowsIn, Indexed, Sized,
           OnlyAbove, Uids, TrueSizes, RowsAbove, Reported, Wire.Honest, Wire.Generous, Oversize.KeepsApart,
           BatchBudget.Partition, Queue.Table, AllGentle, SettledSoFar, AllSettled, Tables.UidsOf;
      ghost var q, t := queue, store.View();
      broken' := broken;
      if first.db.UidsOf(mailbox) <= present {
        UidsArePresent();
      }
      var claimed := ClaimWork(limit, locked, clock);
      claims := |claimed|;
      CountClaimed(old(queue).claimed, Store.RowsIn(claimed));
      StillAbove(queue.skipped, base, q.records, queue.records, mail, maxSize);
      ClaimedUids(t, claimed, limit, locked, mailbox, maxAttempts);
      if |claimed| == 0 {
        ReportedNothing(claimed);
        SettledLater(known, q, queue, {}, mail, maxSize, apart);
      } else {
        broken' := Work(claimed, budget, attempts, broken, base);
        SettledLater(known, q, queue, Reported(claimed), mail, maxSize, apart);
      }
    }

    /** The whole pass. It ends, and unless a claim failed it ends only when the metadata pass
        has finished and a last sweep found nothing left to claim but what others had locked.
        However it ends, it is known what is still being fetched. With an honest server,
        settings that keep the sizes apart, and true sizes recorded of what was claimed, only
        rows recorded above the limit have become too large. And if no database call fails,
        nothing takes rows away and the server answers in full, whatever was claimed is settled:
        under the same conditions, stored if within the limit and too large if not. */
    method Run(limit: nat, locked: nat -> set<Id>, budget: BatchBudget, attempts: int, clock: nat -> nat)
      returns (ok: bool, broken: bool, ghost sweeps: nat)
      requires Logged() && queue.hands == map[] && queue.held == map[] && forall n: nat :: clock(n) >= began
      requires honest ==> wire.Honest(mail)
      modifies this, store, table, wire
      ensures Continued() && queue.hands == map[] && queue.held == map[] && LeavesNothingElse()
      ensures ok ==> meanwhile == []
      ensures ok && limit > 0 ==> forall r | store.View().Claimable(r, mailbox, maxAttempts) :: r in locked(sweeps)
      ensures old(queue).records <= queue.records && (honest ==> wire.Honest(mail))
      ensures honest && TrueSizes(queue.records, mail) && Oversize.KeepsApart(budget, maxSize) ==>
                forall r | r in InState(store.View(), mailbox, TooLarge) ::
                  r in first.large + old(queue).skipped + RowsAbove(queue.records, maxSize)
      ensures old(Smooth()) ==> ok && Smooth()
      ensures old(Smooth() && wire.Generous(present)) && first.db.UidsOf(mailbox) <= present ==>
                && !broken && wire.Generous(present)
                && AllSettled(queue.records - old(queue).records, queue, maxSize, false)
                && (honest && TrueSizes(queue.records, mail) && Oversize.KeepsApart(budget, maxSize) ==>
                      AllSettled(queue.records - old(queue).records, queue, maxSize, true))
    {
      hide Logged, PartOf, ReapsOlder, Remaining, Claims.RowsFor, Tables.Constraints, Tables.Claimable, ClaimsLeft,
           MostClaims, OnlyAbove, TrueSizes, RowsAbove, Wire.Honest, Wire.Generous, Oversize.KeepsApart, InState,
           LeavesNothingElse, Queue.Table, AllGentle, Tally, AllSettled, Tables.UidsOf;
      var finished := false;
      broken, ok, sweeps := false, false, 0;
      ghost var apart := honest && Oversize.KeepsApart(budget, maxSize);
      ghost var base, known := queue.skipped, queue.records;
      ghost var full := Smooth() && wire.Generous(present) && first.db.UidsOf(mailbox) <= present;
      NothingTallied(queue, mail, maxSize, apart, full);
      var sweep := 0;
      while true
        invariant Continued() && queue.hands == map[] && queue.held == map[]
        invariant finished ==> meanwhile == []
        invariant known <= queue.records
        invariant (honest ==> wire.Honest(mail)) && (old(Smooth()) ==> Smooth())
        invariant old(wire.Generous(present)) ==> wire.Generous(present)
        invariant Tally(base, known, queue, mail, maxSize, apart, full, broken)
        decreases |meanwhile|, if finished then 0 else 1, ClaimsLeft(queue, maxAttempts, start)
      {
        ghost var q := queue;
        WithinBounds();
        var fault, claimed;
        fault, claimed, broken := Sweep(limit, locked(sweep), clock(sweep), budget, attempts, broken, base, known,
                                        apart, full);
        sweeps, sweep := sweep, sweep + 1;
        WithinBounds();
        ClaimingLeavesFewer(q, queue, maxAttempts, start);
        NothingClaimed(q, queue, maxAttempts, start);
        if fault.Some? || (claimed == 0 && finished) {
          ok := fault == None;
          break;
        }
        if claimed == 0 {
          finished := |meanwhile| == 0;
        }
      }
      Ending(base);
      TallyEnds(base, known, queue, mail, maxSize, apart, full, broken);
    }

    lemma Ending(base: set<Id>)
      requires Logged() && queue.hands == map[] && queue.held == map[]
      ensures LeavesNothingElse()
      ensures OnlyAbove(queue.skipped, base, queue.records, maxSize) ==>
                forall r | r in InState(store.View(), mailbox, TooLarge) ::
                  r in first.large + base + RowsAbove(queue.records, maxSize)
    {
      hide Named, BodiesTrue, Recorded, WithinBudget;
    }
  }

  ghost predicate Remaining(meanwhile: seq<Statement>, intrusions: seq<Statement>) {
    forall s | s in meanwhile :: s in intrusions
  }

  /** The first n batches of the plan have been asked for. */
  ghost predicate AskedSoFar(before: seq<seq<SizedUid>>, plan: seq<seq<SizedUid>>, n: nat, asked: seq<seq<SizedUid>>) {
    n <= |plan| && asked == before + plan[..n]
  }

  lemma AskedOneMore(before: seq<seq<SizedUid>>, plan: seq<seq<SizedUid>>, n: nat)
    ensures AskedSoFar(before, plan, 0, before)
    ensures forall asked | n < |plan| && AskedSoFar(before, plan, n, asked) ::
              AskedSoFar(before, plan, n + 1, asked + [plan[n]])
  {
    assert n < |plan| ==> plan[..n + 1] == plan[..n] + [plan[n]];
  }

  lemma AskedAtMost(before: seq<seq<SizedUid>>, plan: seq<seq<SizedUid>>, n: nat, asked: seq<seq<SizedUid>>)
    requires AskedSoFar(before, plan, n, asked)
    ensures before <= asked <= before + plan && (n == 0 ==> asked == before) && (n == |plan| ==> asked == before + plan)
  {
    assert before + plan == before + plan[..n] + plan[n..];
    assert plan[..|plan|] == plan;
  }

  function MostClaims(q: Queue, maxAttempts: nat, start: nat): nat {
    start + maxAttempts * q.created + q.reaped
  }

  /** How many more claims the attempts allow, unless more messages turn up or come back. */
  function ClaimsLeft(q: Queue, maxAttempts: nat, start: nat): nat {
    if |q.claimed| <= MostClaims(q, maxAttempts, start) then MostClaims(q, maxAttempts, start) - |q.claimed| else 0
  }

  lemma ClaimingLeavesFewer(q: Queue, q': Queue, maxAttempts: nat, start: nat)
    ensures && q'.created == q.created && q'.reaped == q.reaped
            && |q.claimed| < |q'.claimed| <= MostClaims(q', maxAttempts, start)
            ==> ClaimsLeft(q', maxAttempts, start) < ClaimsLeft(q, maxAttempts, start)
  {
  }

  lemma NothingClaimed(q: Queue, q': Queue, maxAttempts: nat, start: nat)
    ensures q'.created == q.created && q'.reaped == q.reaped && |q.claimed| == |q'.claimed|
            ==> ClaimsLeft(q', maxAttempts, start) == ClaimsLeft(q, maxAttempts, start)
  {
  }

  /** The reaper takes back only what was claimed before the pass began. */
  ghost predicate ReapsOlder(statements: seq<Statement>, began: nat) {
    forall s | s in statements && s.DoReap? :: s.cutoff <= began
  }

  /** Some of a table, unchanged. */
  ghost predicate PartOf(part: map<Uid, Id>, whole: map<Uid, Id>) {
    forall u | u in part :: u in whole && part[u] == whole[u]
  }

  lemma PartOfItself(whole: map<Uid, Id>, gone: set<Uid>)
    ensures PartOf(whole - gone, whole) && PartOf(whole, whole) && whole - {} == whole
  {
  }

  lemma PartOfPart(part: map<Uid, Id>, more: map<Uid, Id>, whole: map<Uid, Id>)
    requires PartOf(part, more) && PartOf(more, whole)
    ensures PartOf(part, whole)
  {
  }

  lemma LessTwice(whole: map<Uid, Id>, a: set<Uid>, b: set<Uid>)
    ensures whole - a - b == whole - (a + b)
  {
  }

  ghost predicate AnswersApart(answers: seq<Answer>, left: map<Uid, Id>) {
    forall a | a in answers :: a.uid !in left
  }

  /** The rows a table holds for these UIDs. */
  ghost function RowsAt(table: map<Uid, Id>, uids: set<Uid>): set<Id> {
    set u | u in table && u in uids :: table[u]
  }

  lemma RowsAtNone(table: map<Uid, Id>)
    ensures RowsAt(table, {}) == {}
  {
  }

  lemma RowsAtNext(table: map<Uid, Id>, seen: set<Uid>, u: Uid)
    ensures RowsAt(table, seen + {u}) == RowsAt(table, seen) + if u in table then {table[u]} else {}
    ensures u in table && u in seen ==> table[u] in RowsAt(table, seen)
  {
  }

  lemma RowsAtSome(table: map<Uid, Id>, some: set<Uid>, uids: set<Uid>)
    requires some <= uids
    ensures RowsAt(table, some) <= RowsAt(table, uids)
  {
  }

  lemma RowsAtPart(part: map<Uid, Id>, whole: map<Uid, Id>, uids: set<Uid>)
    requires PartOf(part, whole)
    ensures RowsAt(part, uids) <= RowsAt(whole, uids) && part.Keys <= whole.Keys
    ensures whole.Keys !! uids ==> RowsAt(part, uids) == {}
  {
  }

  method Receive(batch: seq<SizedUid>, answers: seq<Answer>) returns (received: seq<Answer>)
    ensures received == Received(answers, Uids(batch))
  {
    var wanted := set i | 0 <= i < |batch| :: batch[i].uid;
    received := [];
    for i := 0 to |answers|
      invariant Received(answers, Uids(batch)) == received + Received(answers[i..], wanted)
    {
      assert answers[i..][1..] == answers[i + 1..];
      if answers[i].uid in wanted {
        received := received + [answers[i]];
        wanted := wanted - {answers[i].uid};
      }
    }
  }

  lemma DeliveredAreReceived(answers: seq<Answer>, wanted: set<Uid>)
    requires forall a | a in answers :: a.uid in wanted
    ensures Delivered(answers) <= wanted
  {
    forall u | u in Delivered(answers)
      ensures u in wanted
    {
      var i :| 0 <= i < |answers| && answers[i].literal.Some? && answers[i].uid == u;
      assert answers[i] in answers;
    }
  }

  /** A message of the batch is really above the limit. */
  ghost predicate AnyTooLarge(uids: set<Uid>, mail: Uid -> Content, maxSize: int) {
    exists u :: u in uids && |mail(u)| > maxSize
  }

  /** An honest literal above the limit is a message above the limit. */
  ghost predicate AllTooLarge(uids: set<Uid>, mail: Uid -> Content, maxSize: int) {
    maxSize > 0 && forall u | u in uids :: |mail(u)| > maxSize
  }

  ghost predicate AllWithin(uids: set<Uid>, mail: Uid -> Content, maxSize: int) {
    maxSize <= 0 || forall u | u in uids :: |mail(u)| <= maxSize
  }

  /** What a full response leaves of a batch's claims: those before the first literal above the
      limit are delivered, and the rest is marked. */
  lemma FullSettles(response: Response, claims: map<Uid, Id>, wanted: set<Uid>, maxSize: int)
    requires Full(Answered(response), wanted)
    ensures var received := Received(response.answers, wanted);
            var k := FirstAbove(received, maxSize);
            var rest := claims - Delivered(received[..k]);
            && rest - wanted == claims - wanted && (k == |received| ==> rest == claims - wanted)
            && RowsAt(claims, wanted) <= RowsAt(claims, Usable(received[..k])) + RowsAt(rest, wanted)
            && (k == |received| ==> RowsAt(claims, wanted) <= RowsAt(claims, Usable(received[..k])))
  {
    var received := Received(response.answers, wanted);
    var k := FirstAbove(received, maxSize);
    ReceivedOnce(response.answers, wanted);
    FullReceived(received, k);
    assert AnsweredUids(received) == wanted;
    assert received[..|received|] == received;
    hide Received, FirstAbove, Usable, Delivered, AnsweredUids, DistinctUids;
    RowsSplit(claims, wanted, Delivered(received[..k]));
  }

  lemma RowsSplit(claims: map<Uid, Id>, wanted: set<Uid>, delivered: set<Uid>)
    requires delivered <= wanted
    ensures claims - delivered - wanted == claims - wanted
    ensures RowsAt(claims, wanted) <= RowsAt(claims, delivered) + RowsAt(claims - delivered, wanted)
    ensures delivered == wanted ==> RowsAt(claims, wanted) <= RowsAt(claims, delivered)
  {
    forall u | u in claims && u in wanted
      ensures claims[u] in RowsAt(claims, delivered) + RowsAt(claims - delivered, wanted)
    {
      if u !in delivered {
        assert (claims - delivered)[u] == claims[u];
      }
    }
  }

  /** Where honest sizes put the first literal above the limit. */
  lemma FullLimits(response: Response, claims: map<Uid, Id>, wanted: set<Uid>, mail: Uid -> Content, maxSize: int)
    requires Full(Answered(response), wanted) && HonestAnswers(response.answers, mail)
    ensures var received := Received(response.answers, wanted);
            var k := FirstAbove(received, maxSize);
            && (AllWithin(wanted, mail, maxSize) ==> k == |received|)
            && (AllTooLarge(wanted, mail, maxSize) ==> claims - Delivered(received[..k]) == claims)
            && (AllTooLarge(wanted, mail, maxSize) && k == |received| ==> wanted == {})
  {
    var received := Received(response.answers, wanted);
    ReceivedOnce(response.answers, wanted);
    if received != [] {
      HonestLimits(response.answers, wanted, mail, maxSize);
      assert received[0].uid in AnsweredUids(received);
    }
    DeliveredNone(received);
    hide Received, FirstAbove, HonestAnswers, Delivered;
    assert claims - {} == claims;
    assert AnsweredUids([]) == {};
  }

  /** Of a response in which all can be kept, what is delivered is what was usable. */
  lemma FullReceived(received: seq<Answer>, k: nat)
    requires k <= |received| && forall a | a in received :: a.literal.Some? && a.literal.value.usable
    ensures Usable(received[..k]) == Delivered(received[..k]) <= AnsweredUids(received)
    ensures Delivered(received) == AnsweredUids(received)
  {
    assert forall i | 0 <= i < k :: received[..k][i] == received[i] && received[i] in received;
    forall a | a in received
      ensures a.uid in Delivered(received)
    {
      var i :| 0 <= i < |received| && received[i] == a;
    }
  }

  lemma HonestLimits(answers: seq<Answer>, wanted: set<Uid>, mail: Uid -> Content, maxSize: int)
    requires HonestAnswers(answers, mail) && Received(answers, wanted) != []
    requires forall a | a in answers :: a.literal.Some?
    ensures var received := Received(answers, wanted);
            && (AllWithin(wanted, mail, maxSize) ==> FirstAbove(received, maxSize) == |received|)
            && (AllTooLarge(wanted, mail, maxSize) ==> FirstAbove(received, maxSize) == 0)
  {
    var received := Received(answers, wanted);
    var k := FirstAbove(received, maxSize);
    if k < |received| {
      assert received[k] in received;
      assert HonestAnswer(received[k], mail);
    }
    assert received[0] in received;
    assert HonestAnswer(received[0], mail);
  }

  lemma HonestIsTooLarge(answers: seq<Answer>, wanted: set<Uid>, mail: Uid -> Content, maxSize: int)
    ensures var received := Received(answers, wanted);
            HonestAnswers(answers, mail) && FirstAbove(received, maxSize) < |received| ==>
              AnyTooLarge(wanted, mail, maxSize)
  {
    var received := Received(answers, wanted);
    var k := FirstAbove(received, maxSize);
    if HonestAnswers(answers, mail) && k < |received| {
      assert received[k] in received;
      assert HonestAnswer(received[k], mail);
      assert received[k].uid in wanted && |mail(received[k].uid)| > maxSize;
    }
  }

  // ---------------------------------------------------------------- sizes

  /** What was recorded of these messages is true. */
  ghost predicate TrueSizes(records: set<Record>, mail: Uid -> Content) {
    forall c | c in records :: c.size == |mail(c.uid)|
  }

  /** The rows claimed for messages above the limit. */
  ghost function RowsAbove(records: set<Record>, maxSize: int): set<Id> {
    set c | c in records && c.size > maxSize :: c.row
  }

  /** What was claimed is stored or marked too large; with exact, stored if its size is within the
      limit and marked if not. */
  predicate Settled(c: Record, q: Queue, maxSize: int, exact: bool) {
    if !exact then c.row in q.downloaded + q.skipped
    else if 0 < maxSize < c.size then c.row in q.skipped
    else c.row in q.downloaded
  }

  ghost predicate AllSettled(records: set<Record>, q: Queue, maxSize: int, exact: bool) {
    forall c | c in records :: Settled(c, q, maxSize, exact)
  }

  lemma StaySettled(records: set<Record>, q: Queue, q': Queue, maxSize: int, exact: bool)
    requires AllSettled(records, q, maxSize, exact)
    requires q.downloaded <= q'.downloaded && q.skipped <= q'.skipped
    ensures AllSettled(records, q', maxSize, exact)
  {
  }

  lemma MoreSettled(records: set<Record>, more: set<Record>, q: Queue, maxSize: int, exact: bool)
    ensures AllSettled({}, q, maxSize, exact)
    ensures AllSettled(records + more, q, maxSize, exact) <==>
            AllSettled(records, q, maxSize, exact) && AllSettled(more, q, maxSize, exact)
  {
  }

  /** What was claimed beyond these records is settled. */
  ghost predicate SettledSoFar(known: set<Record>, q: Queue, mail: Uid -> Content, maxSize: int, apart: bool) {
    && AllSettled(q.records - known, q, maxSize, false)
    && (apart && TrueSizes(q.records, mail) ==> AllSettled(q.records - known, q, maxSize, true))
  }

  /** What a pass has done so far about what it claimed. */
  ghost predicate Tally(base: set<Id>, known: set<Record>, q: Queue, mail: Uid -> Content, maxSize: int, apart: bool,
                        full: bool, broken: bool) {
    && (apart && TrueSizes(q.records, mail) ==> OnlyAbove(q.skipped, base, q.records, maxSize))
    && (full ==> !broken && SettledSoFar(known, q, mail, maxSize, apart))
  }

  lemma NothingTallied(q: Queue, mail: Uid -> Content, maxSize: int, apart: bool, full: bool)
    ensures Tally(q.skipped, q.records, q, mail, maxSize, apart, full, false)
  {
  }

  lemma TallyStays(base: set<Id>, known: set<Record>, q: Queue, q': Queue, mail: Uid -> Content, maxSize: int,
                   apart: bool, full: bool, broken: bool)
    requires Tally(base, known, q, mail, maxSize, apart, full, broken)
    requires q'.records == q.records && q'.skipped == q.skipped && q.downloaded <= q'.downloaded
    ensures Tally(base, known, q', mail, maxSize, apart, full, broken)
  {
    assert q.records + {} == q.records;
    SettledLater(known, q, q', {}, mail, maxSize, apart);
    hide SettledSoFar;
  }

  lemma TallyEnds(base: set<Id>, known: set<Record>, q: Queue, mail: Uid -> Content, maxSize: int, apart: bool,
                  full: bool, broken: bool)
    requires Tally(base, known, q, mail, maxSize, apart, full, broken)
    ensures apart && TrueSizes(q.records, mail) ==> OnlyAbove(q.skipped, base, q.records, maxSize)
    ensures full ==> !broken && AllSettled(q.records - known, q, maxSize, false)
    ensures full && apart && TrueSizes(q.records, mail) ==> AllSettled(q.records - known, q, maxSize, true)
  {
  }

  lemma SettledLater(known: set<Record>, q: Queue, q': Queue, more: set<Record>, mail: Uid -> Content, maxSize: int,
                     apart: bool)
    requires q'.records == q.records + more && q.downloaded <= q'.downloaded && q.skipped <= q'.skipped
    ensures && SettledSoFar(known, q, mail, maxSize, apart) && (more == {} || AllSettled(more, q', maxSize, false))
            && (more == {} || (apart && TrueSizes(q'.records, mail) ==> AllSettled(more, q', maxSize, true)))
            ==> SettledSoFar(known, q', mail, maxSize, apart)
  {
    MoreRecords(q.records, q'.records, mail, maxSize);
    SettledTogether(known, q, q', more, maxSize, false);
    SettledTogether(known, q, q', more, maxSize, true);
    hide AllSettled, TrueSizes;
  }

  lemma SettledTogether(known: set<Record>, q: Queue, q': Queue, more: set<Record>, maxSize: int, exact: bool)
    requires q'.records == q.records + more && q.downloaded <= q'.downloaded && q.skipped <= q'.skipped
    ensures AllSettled(q.records - known, q, maxSize, exact) && (more == {} || AllSettled(more, q', maxSize, exact)) ==>
              AllSettled(q'.records - known, q', maxSize, exact)
  {
    if AllSettled(q.records - known, q, maxSize, exact) && (more == {} || AllSettled(more, q', maxSize, exact)) {
      forall c | c in q'.records - known
        ensures Settled(c, q', maxSize, exact)
      {
        if c in q.records {
          assert Settled(c, q, maxSize, exact);
        }
      }
    }
  }

  lemma CountClaimed(claimed: multiset<Id>, rows: set<Id>)
    ensures |claimed + multiset(rows)| == |claimed| + |rows|
  {
  }

  lemma ReportedNothing(claimed: seq<Store.PendingBody>)
    requires |claimed| == 0
    ensures Reported(claimed) == {}
  {
  }

  lemma ClaimedUids(t: Tables, claimed: seq<Store.PendingBody>, limit: nat, locked: set<Id>, mailbox: Id,
                    maxAttempts: nat)
    requires Store.AllDescribed(t, claimed)
    requires t.ClaimChoice(Store.RowsIn(claimed), mailbox, limit, maxAttempts, locked)
    ensures Uids(Sized(claimed)) <= t.UidsOf(mailbox)
  {
    forall u | u in Uids(Sized(claimed))
      ensures u in t.UidsOf(mailbox)
    {
      var i :| 0 <= i < |claimed| && Sized(claimed)[i].uid == u;
      assert Store.Describes(t, claimed[i]) && claimed[i].row in Store.RowsIn(claimed);
      assert t.Claimable(claimed[i].row, mailbox, maxAttempts);
    }
  }

  lemma StaysPresent(t: Tables, t': Tables, mailbox: Id, present: set<Uid>)
    requires Stays(t, t', mailbox, present) && t.UidsOf(mailbox) <= present
    ensures t'.UidsOf(mailbox) <= present
  {
    forall u | u in t'.UidsOf(mailbox)
      ensures u in present
    {
      var r :| r in t'.rows && t'.rows[r].mailbox == mailbox && t'.rows[r].uid == Some(u);
    }
  }

  /** Claims of a round that are still in the table are under their own row there; the others are
      settled. */
  ghost predicate Outstanding(records: set<Record>, table: map<Uid, Id>, q: Queue, maxSize: int, exact: bool) {
    forall c | c in records :: (c.uid in table && table[c.uid] == c.row) || Settled(c, q, maxSize, exact)
  }

  lemma AllOutstanding(table: map<Uid, Id>, claimed: seq<Store.PendingBody>, q: Queue, maxSize: int, exact: bool)
    requires Indexed(table, claimed)
    ensures Outstanding(Reported(claimed), table, q, maxSize, exact)
  {
  }

  lemma NoneOutstanding(claimed: seq<Store.PendingBody>, table: map<Uid, Id>, q: Queue, maxSize: int, exact: bool)
    requires Outstanding(Reported(claimed), table, q, maxSize, exact) && table.Keys !! Uids(Sized(claimed))
    ensures AllSettled(Reported(claimed), q, maxSize, exact)
  {
    forall c | c in Reported(claimed)
      ensures Settled(c, q, maxSize, exact)
    {
      var d :| d in claimed && c == Record(d.row, d.uid, d.size);
      var i :| 0 <= i < |claimed| && claimed[i] == d;
      assert Sized(claimed)[i].uid == c.uid;
      assert c.uid in Uids(Sized(claimed));
    }
  }

  /** A batch that was settled whole takes its claims out of the table. */
  lemma BatchOutstanding(records: set<Record>, table: map<Uid, Id>, table': map<Uid, Id>, q: Queue, q': Queue,
                         uids: set<Uid>, maxSize: int, exact: bool)
    requires Outstanding(records, table, q, maxSize, exact) && table' == table - uids
    requires q.downloaded <= q'.downloaded && q.skipped <= q'.skipped
    requires RowsAt(table, uids) <= q'.downloaded + q'.skipped
    requires exact ==> forall c | c in records && c.uid in uids ::
                         RowsAt(table, uids) <= if 0 < maxSize < c.size then q'.skipped else q'.downloaded
    ensures Outstanding(records, table', q', maxSize, exact)
  {
    forall c | c in records
      ensures (c.uid in table' && table'[c.uid] == c.row) || Settled(c, q', maxSize, exact)
    {
      if c.uid in table && table[c.uid] == c.row && c.uid in uids {
        assert c.row in RowsAt(table, uids);
      }
    }
  }

  /** The first n batches of the plan have been settled whole. */
  ghost predicate RoundSoFar(records: set<Record>, claims: map<Uid, Id>, plan: seq<seq<SizedUid>>, n: nat,
                             table: map<Uid, Id>, q: Queue, maxSize: int, exact: bool)
    requires n <= |plan|
  {
    && table == claims - UidsOfBatches(plan[..n]) && Outstanding(records, table, q, maxSize, false)
    && (exact ==> Outstanding(records, table, q, maxSize, true))
  }

  lemma RoundBegins(claims: map<Uid, Id>, claimed: seq<Store.PendingBody>, plan: seq<seq<SizedUid>>, q: Queue,
                    maxSize: int, exact: bool)
    requires Indexed(claims, claimed)
    ensures RoundSoFar(Reported(claimed), claims, plan, 0, claims, q, maxSize, exact)
  {
    UidsOfNoBatch(plan);
    AllOutstanding(claims, claimed, q, maxSize, false);
    AllOutstanding(claims, claimed, q, maxSize, true);
    hide Outstanding, UidsOfBatches, Reported, Indexed;
    PartOfItself(claims, {});
  }

  lemma RoundGoesOn(records: set<Record>, claims: map<Uid, Id>, plan: seq<seq<SizedUid>>, n: nat, table: map<Uid, Id>,
                    table': map<Uid, Id>, q: Queue, q': Queue, maxSize: int, exact: bool)
    requires n < |plan| && RoundSoFar(records, claims, plan, n, table, q, maxSize, exact)
    requires table' == table - Uids(plan[n]) && q.downloaded <= q'.downloaded && q.skipped <= q'.skipped
    requires RowsAt(table, Uids(plan[n])) <= q'.downloaded + q'.skipped
    requires exact ==> forall c | c in records && c.uid in Uids(plan[n]) ::
                         RowsAt(table, Uids(plan[n])) <= if 0 < maxSize < c.size then q'.skipped else q'.downloaded
    ensures RoundSoFar(records, claims, plan, n + 1, table', q', maxSize, exact)
  {
    BatchOutstanding(records, table, table', q, q', Uids(plan[n]), maxSize, false);
    if exact {
      BatchOutstanding(records, table, table', q, q', Uids(plan[n]), maxSize, true);
    }
    hide Outstanding, Uids, RowsAt;
    UidsOfNextBatch(plan, n);
    hide UidsOfBatches;
    LessTwice(claims, UidsOfBatches(plan[..n]), Uids(plan[n]));
  }

  lemma RoundEnds(budget: BatchBudget, claimed: seq<Store.PendingBody>, claims: map<Uid, Id>,
                  plan: seq<seq<SizedUid>>, table: map<Uid, Id>, q: Queue, maxSize: int, exact: bool)
    requires budget.Partition(Sized(claimed), plan)
    requires RoundSoFar(Reported(claimed), claims, plan, |plan|, table, q, maxSize, exact)
    ensures AllSettled(Reported(claimed), q, maxSize, false)
    ensures exact ==> AllSettled(Reported(claimed), q, maxSize, true)
  {
    PlanCovers(budget, Sized(claimed), plan);
    hide Outstanding, UidsOfBatches, Uids, Sized, Reported, AllSettled, BatchBudget.Partition;
    NoneOutstanding(claimed, table, q, maxSize, false);
    if exact {
      NoneOutstanding(claimed, table, q, maxSize, true);
    }
  }

  /** With settings that keep the sizes apart and true recorded sizes, a batch's messages are all
      within the limit or all above it. */
  lemma BatchIsOneKind(claimed: seq<Store.PendingBody>, plan: seq<seq<SizedUid>>, i: nat, budget: BatchBudget,
                       mail: Uid -> Content, maxSize: int)
    requires TrueSizes(Reported(claimed), mail) && Oversize.KeepsApart(budget, maxSize)
    requires budget.Partition(Sized(claimed), plan) && i < |plan|
    ensures forall c | c in Reported(claimed) && c.uid in Uids(plan[i]) ::
              if 0 < maxSize < c.size then AllTooLarge(Uids(plan[i]), mail, maxSize)
              else AllWithin(Uids(plan[i]), mail, maxSize)
  {
    var batch := plan[i];
    BatchIsPart(Sized(claimed), plan, i);
    Oversize.LegalIsUnmixed(budget, batch, maxSize);
    forall k | 0 <= k < |batch|
      ensures batch[k].size == |mail(batch[k].uid)|
    {
      var c := SizedHolds(claimed, batch[k]);
      assert Record(c.row, c.uid, c.size) in Reported(claimed);
    }
    forall c | c in Reported(claimed) && c.uid in Uids(batch)
      ensures if 0 < maxSize < c.size then AllTooLarge(Uids(batch), mail, maxSize)
              else AllWithin(Uids(batch), mail, maxSize)
    {
      var k :| 0 <= k < |batch| && batch[k].uid == c.uid;
      assert batch[k].size == c.size;
    }
  }

  /** What a list of claims says of the messages. */
  ghost function Reported(claimed: seq<Store.PendingBody>): set<Record> {
    set c | c in claimed :: Record(c.row, c.uid, c.size)
  }

  /** Every row marked beyond those was claimed for a message above the limit. */
  ghost predicate OnlyAbove(skipped: set<Id>, base: set<Id>, records: set<Record>, maxSize: int) {
    skipped <= base + RowsAbove(records, maxSize)
  }

  lemma NoneAbove(base: set<Id>, records: set<Record>, maxSize: int)
    ensures OnlyAbove(base, base, records, maxSize)
  {
  }

  lemma MoreRecords(some: set<Record>, records: set<Record>, mail: Uid -> Content, maxSize: int)
    requires some <= records
    ensures TrueSizes(records, mail) ==> TrueSizes(some, mail)
    ensures RowsAbove(some, maxSize) <= RowsAbove(records, maxSize)
  {
  }

  lemma StillAbove(skipped: set<Id>, base: set<Id>, some: set<Record>, records: set<Record>, mail: Uid -> Content,
                   maxSize: int)
    requires some <= records
    ensures TrueSizes(records, mail) ==> TrueSizes(some, mail)
    ensures OnlyAbove(skipped, base, some, maxSize) ==> OnlyAbove(skipped, base, records, maxSize)
  {
    MoreRecords(some, records, mail, maxSize);
  }

  lemma {:induction false} BatchIsPart(msgs: seq<SizedUid>, plan: seq<seq<SizedUid>>, i: nat)
    requires Concat(plan) == msgs && i < |plan|
    ensures (forall m | m in plan[i] :: m in msgs) && Uids(plan[i]) <= Uids(msgs)
    decreases i
  {
    if i > 0 {
      BatchIsPart(Concat(plan[1..]), plan[1..], i - 1);
    }
    forall m | m in plan[i]
      ensures m in msgs
    {
    }
    forall u | u in Uids(plan[i])
      ensures u in Uids(msgs)
    {
      var k :| 0 <= k < |plan[i]| && plan[i][k].uid == u;
      assert plan[i][k] in msgs;
      var j :| 0 <= j < |msgs| && msgs[j] == plan[i][k];
      assert msgs[j].uid == u;
    }
  }

  /** The UIDs these batches ask for. */
  ghost function UidsOfBatches(plan: seq<seq<SizedUid>>): set<Uid> {
    set i, u | 0 <= i < |plan| && u in Uids(plan[i]) :: u
  }

  lemma UidsOfNoBatch(plan: seq<seq<SizedUid>>)
    ensures UidsOfBatches(plan[..0]) == {}
  {
  }

  lemma UidsOfNextBatch(plan: seq<seq<SizedUid>>, i: nat)
    requires i < |plan|
    ensures UidsOfBatches(plan[..i + 1]) == UidsOfBatches(plan[..i]) + Uids(plan[i])
  {
    hide Uids;
    var longer, shorter := plan[..i + 1], plan[..i];
    assert forall k | 0 <= k < i :: longer[k] == shorter[k];
    assert longer[i] == plan[i];
  }

  lemma {:induction false} BatchesCover(plan: seq<seq<SizedUid>>)
    ensures Uids(Concat(plan)) <= UidsOfBatches(plan)
  {
    if plan != [] {
      var first, rest := plan[0], plan[1..];
      BatchesCover(rest);
      forall u | u in Uids(Concat(plan))
        ensures u in UidsOfBatches(plan)
      {
        var k :| 0 <= k < |Concat(plan)| && Concat(plan)[k].uid == u;
        if k < |first| {
          assert first[k].uid == u;
          assert u in Uids(plan[0]);
        } else {
          assert Concat(rest)[k - |first|].uid == u;
          assert u in Uids(Concat(rest));
          var j :| 0 <= j < |rest| && u in Uids(rest[j]);
          assert plan[j + 1] == rest[j];
        }
      }
    }
  }

  lemma PlanCovers(budget: BatchBudget, msgs: seq<SizedUid>, plan: seq<seq<SizedUid>>)
    requires budget.Partition(msgs, plan)
    ensures Uids(msgs) <= UidsOfBatches(plan) && plan[..|plan|] == plan
  {
    BatchesCover(plan);
  }

  lemma GenerousIsFull(wire: Wire, present: set<Uid>, uids: set<Uid>)
    requires wire.Generous(present) && uids <= present
    ensures Full(TryAt(wire.tries, wire.last, 0), uids)
  {
    FullForFewer(TryAt(wire.tries, wire.last, 0), present, uids);
  }

  lemma PlanIsPart(budget: BatchBudget, msgs: seq<SizedUid>, plan: seq<seq<SizedUid>>, i: nat)
    requires budget.Partition(msgs, plan) && i < |plan|
    ensures Uids(plan[i]) <= Uids(msgs)
  {
    BatchIsPart(msgs, plan, i);
  }

  lemma SizedHolds(claimed: seq<Store.PendingBody>, m: SizedUid) returns (c: Store.PendingBody)
    requires m in Sized(claimed)
    ensures c in claimed && c.uid == m.uid && c.size == m.size
  {
    var i :| 0 <= i < |claimed| && Sized(claimed)[i] == m;
    c := claimed[i];
  }

  /** If a batch can be marked too large at all, all of it is. */
  lemma BatchRowsAbove(table: map<Uid, Id>, claimed: seq<Store.PendingBody>, plan: seq<seq<SizedUid>>, i: nat,
                       budget: BatchBudget, mail: Uid -> Content, maxSize: int)
    requires Indexed(table, claimed) && TrueSizes(Reported(claimed), mail) && Oversize.KeepsApart(budget, maxSize)
    requires budget.Partition(Sized(claimed), plan) && i < |plan|
    ensures AnyTooLarge(Uids(plan[i]), mail, maxSize) ==>
              RowsAt(table, Uids(plan[i])) <= RowsAbove(Reported(claimed), maxSize)
  {
    var batch := plan[i];
    BatchIsPart(Sized(claimed), plan, i);
    if AnyTooLarge(Uids(batch), mail, maxSize) {
      Oversize.LegalIsUnmixed(budget, batch, maxSize);
      var u :| u in Uids(batch) && |mail(u)| > maxSize;
      var k :| 0 <= k < |batch| && batch[k].uid == u;
      var c := SizedHolds(claimed, batch[k]);
      assert Record(c.row, c.uid, c.size) in Reported(claimed);
      assert batch[k].size > maxSize;
      forall v | v in table && v in Uids(batch)
        ensures table[v] in RowsAbove(Reported(claimed), maxSize)
      {
        var j :| 0 <= j < |batch| && batch[j].uid == v;
        var d := SizedHolds(claimed, batch[j]);
        assert batch[j].size > maxSize;
        assert Record(d.row, d.uid, d.size) in Reported(claimed) && d.size > maxSize && table[v] == d.row;
      }
    }
  }

  /** The index has the row of every claim under its UID. */
  ghost predicate Indexed(index: map<Uid, Id>, claimed: seq<Store.PendingBody>) {
    forall c | c in claimed :: c.uid in index && index[c.uid] == c.row
  }

  lemma IndexedBeneath(left: map<Uid, Id>, claims: map<Uid, Id>, held: map<Uid, Id>, claimed: seq<Store.PendingBody>)
    requires Indexed(held, claimed)
    ensures Indexed(left + claims + held, claimed) && Uids(Sized(claimed)) !! (left - held.Keys).Keys
  {
    forall u | u in Uids(Sized(claimed))
      ensures u in held
    {
      var i :| 0 <= i < |claimed| && Sized(claimed)[i].uid == u;
      assert claimed[i] in claimed;
    }
  }

  lemma NothingYet(t: Tables, left: map<Uid, Id>, mailbox: Id, maxAttempts: nat, began: nat, mail: Uid -> Content)
    requires t.Constraints()
    ensures var q := NewQueue(t, left, mailbox, began);
            && Inv(q, mailbox, InState(t, mailbox, Fetching)) && LargeIffMarked(q, mailbox) && q.Table() == left
            && WithinBudget(q, mailbox, maxAttempts, BodyQueue.Budget(Mine(t, mailbox), maxAttempts))
            && Pass([q], [], mailbox, maxAttempts) && Named(q, mailbox) && BodiesTrue(q, mail)
  {
    StartInv(NewQueue(t, left, mailbox, began), mailbox, InState(t, mailbox, Fetching));
    StartNamed(NewQueue(t, left, mailbox, began), mailbox, InState(t, mailbox, Fetching));
    hide Inv, Start, Named;
  }

  lemma DeliveredOne(a: Answer)
    ensures Delivered([a]) == if a.literal.Some? then {a.uid} else {}
  {
    assert [a][0] == a;
  }

  lemma DeliveredNone(answers: seq<Answer>)
    ensures Delivered(answers[..0]) == {}
  {
  }

  lemma DeliveredNext(answers: seq<Answer>, i: nat)
    requires i < |answers|
    ensures Delivered(answers[..i + 1]) == Delivered(answers[..i]) + Delivered([answers[i]])
  {
    DeliveredOne(answers[i]);
    var longer, shorter := answers[..i + 1], answers[..i];
    assert longer == shorter + [answers[i]];
    assert forall k | 0 <= k < i :: longer[k] == shorter[k];
    assert longer[i] == answers[i];
  }

  lemma UsableNone(table: map<Uid, Id>, answers: seq<Answer>)
    ensures RowsAt(table, Usable(answers[..0])) == {}
  {
    assert Usable(answers[..0]) == {};
  }

  /** One more answer: a usable body adds the row of its UID, which no answer before has taken. */
  lemma UsableNext(table: map<Uid, Id>, answers: seq<Answer>, i: nat)
    requires i < |answers|
    ensures var u, usable := answers[i].uid, answers[i].literal.Some? && answers[i].literal.value.usable;
            && RowsAt(table, Usable(answers[..i + 1]))
               == RowsAt(table, Usable(answers[..i])) + (if usable && u in table then {table[u]} else {})
            && (DistinctUids(answers) ==> u !in Delivered(answers[..i]))
  {
    var longer, shorter, u := answers[..i + 1], answers[..i], answers[i].uid;
    var usable := answers[i].literal.Some? && answers[i].literal.value.usable;
    assert forall k | 0 <= k < i :: longer[k] == shorter[k] == answers[k];
    assert longer[i] == answers[i];
    assert Usable(longer) == Usable(shorter) + if usable then {u} else {};
    RowsAtNext(table, Usable(shorter), u);
    assert Usable(shorter) + {} == Usable(shorter);
  }

  lemma UidsNone(batch: seq<SizedUid>)
    ensures Uids(batch[..0]) == {}
  {
  }

  lemma UidsNext(batch: seq<SizedUid>, i: nat)
    requires i < |batch|
    ensures Uids(batch[..i + 1]) == Uids(batch[..i]) + {batch[i].uid}
  {
    var longer, shorter := batch[..i + 1], batch[..i];
    assert forall k | 0 <= k < i :: longer[k] == shorter[k];
    assert longer[i] == batch[i];
  }

  /** What each logged step makes of the queue. */
  lemma TakeStep(q: Queue, uid: Uid, mailbox: Id, maxAttempts: nat)
    requires q.db.Constraints() && q.hands == map[] && uid !in q.left && q.left.Keys !! q.claims.Keys
    ensures CanStep(q, Take(0, uid), mailbox, maxAttempts)
    ensures Next(q, Take(0, uid), mailbox, maxAttempts)
            == q.(claims := q.claims - {uid}, hands := if uid in q.Table() then map[0 := q.Table()[uid]] else map[])
    ensures Next(q, Take(0, uid), mailbox, maxAttempts).Table() == q.Table() - {uid}
  {
    hide Tables.Constraints;
  }

  lemma DropStep(q: Queue, row: Id, mailbox: Id, maxAttempts: nat)
    requires q.db.Constraints() && q.hands == map[0 := row]
    ensures CanStep(q, Drop(0), mailbox, maxAttempts)
    ensures Next(q, Drop(0), mailbox, maxAttempts) == q.(hands := map[], lost := q.lost + multiset{row})
  {
    hide Tables.Constraints;
  }

  lemma FailStep(q: Queue, row: Id, mailbox: Id, maxAttempts: nat)
    requires q.db.Constraints() && q.hands == map[0 := row]
    ensures CanStep(q, Fail(0), mailbox, maxAttempts)
    ensures Next(q, Fail(0), mailbox, maxAttempts)
            == q.(db := q.db.MarkFailed(row, maxAttempts), hands := map[], settled := q.settled + multiset{row},
                  failed := q.failed + 1)
  {
    hide Tables.Constraints, Tables.MarkFailed;
  }

  lemma SkipStep(q: Queue, row: Id, mailbox: Id, maxAttempts: nat)
    requires q.db.Constraints() && q.hands == map[0 := row]
    ensures CanStep(q, Skip(0), mailbox, maxAttempts)
    ensures Next(q, Skip(0), mailbox, maxAttempts)
            == q.(db := q.db.MarkTooLarge(row), hands := map[], settled := q.settled + multiset{row},
                  skipped := q.skipped + {row})
  {
    hide Tables.Constraints, Tables.MarkTooLarge;
  }

  lemma RememberStep(q: Queue, mailbox: Id, maxAttempts: nat)
    requires q.db.Constraints()
    ensures CanStep(q, Remember, mailbox, maxAttempts)
    ensures var q' := Next(q, Remember, mailbox, maxAttempts);
            && q' == q.(claims := q.claims + q.held, held := map[], left := q.left - q.held.Keys, lost := q'.lost)
            && q'.Table() == q.Table() + q.held
  {
    hide Tables.Constraints;
  }

  lemma AttachStep(q: Queue, row: Id, content: Content, lookedUp: bool, mailbox: Id, maxAttempts: nat)
    requires q.db.Constraints() && q.hands == map[0 := row]
    ensures CanStep(q, BodyQueue.Attach(0, content, lookedUp), mailbox, maxAttempts)
    ensures var q' := Next(q, BodyQueue.Attach(0, content, lookedUp), mailbox, maxAttempts);
            var counts := q.db.Attach(row, content).Some? && lookedUp;
            && q' == q.(db := q'.db, hands := map[], settled := q'.settled, lost := q'.lost, attached := q'.attached,
                        downloaded := q'.downloaded, fetched := q'.fetched, bodies := q'.bodies)
            && q'.Table() == q.Table()
            && q'.db == (match q.db.Attach(row, content) case Some(db) => db case None => q.db)
            && q'.fetched == q.fetched + (if counts then 1 else 0) && q.downloaded <= q'.downloaded
            && (counts ==> row in q'.downloaded && Body(row, content) in q'.bodies)
  {
    hide Tables.Attach, Tables.Constraints;
  }

  lemma DeliveredSoFar(answers: seq<Answer>, n: nat)
    requires n <= |answers|
    ensures Delivered(answers[..n]) <= Delivered(answers)
  {
    forall u | u in Delivered(answers[..n])
      ensures u in Delivered(answers)
    {
      var i :| 0 <= i < n && answers[..n][i].literal.Some? && answers[..n][i].uid == u;
      assert answers[i].uid == u;
    }
  }

  lemma UidsSoFar(batch: seq<SizedUid>, n: nat)
    requires n <= |batch|
    ensures Uids(batch[..n]) <= Uids(batch)
  {
    forall u | u in Uids(batch[..n])
      ensures u in Uids(batch)
    {
      var i :| 0 <= i < n && batch[..n][i].uid == u;
      assert batch[i].uid == u;
    }
  }

  /** The producer's byUID map: a later row for the same UID would win. */
  function Index(claimed: seq<Store.PendingBody>): map<Uid, Store.PendingBody> {
    if claimed == [] then map[]
    else
      var n := |claimed| - 1;
      Index(claimed[..n])[claimed[n].uid := claimed[n]]
  }

  method BuildIndex(claimed: seq<Store.PendingBody>) returns (byUid: map<Uid, Store.PendingBody>)
    ensures byUid == Index(claimed)
  {
    byUid := map[];
    for i := 0 to |claimed|
      invariant byUid == Index(claimed[..i])
    {
      assert claimed[..i + 1][..i] == claimed[..i];
      byUid := byUid[claimed[i].uid := claimed[i]];
    }
    assert claimed[..|claimed|] == claimed;
  }

  lemma {:induction false} IndexHolds(claimed: seq<Store.PendingBody>)
    ensures forall u | u in Index(claimed) :: Index(claimed)[u] in claimed && Index(claimed)[u].uid == u
    ensures forall c | c in claimed :: c.uid in Index(claimed)
  {
    if claimed != [] {
      var n := |claimed| - 1;
      IndexHolds(claimed[..n]);
      assert claimed == claimed[..n] + [claimed[n]];
    }
  }

  /** Claims of distinct rows have distinct UIDs, so indexing them loses none. */
  lemma IndexIsByUid(t: Tables, claimed: seq<Store.PendingBody>, taken: set<Id>, mailbox: Id)
    requires t.UidsUnique() && Addressable(t, taken, mailbox)
    requires Store.AllDescribed(t, claimed) && taken == Store.RowsIn(claimed)
    ensures RowsByUid(Index(claimed)) == ByUid(t, taken, mailbox) && Indexed(RowsByUid(Index(claimed)), claimed)
  {
    var index, byUid := RowsByUid(Index(claimed)), ByUid(t, taken, mailbox);
    IndexHolds(claimed);
    hide Tables.UidsUnique, Index, ByUid, Store.AllDescribed, Store.RowsIn, Addressable;
    forall c | c in claimed
      ensures c.uid in byUid && byUid[c.uid] == c.row
    {
      ClaimIsByUid(t, claimed, taken, mailbox, c);
    }
    forall u | u in byUid
      ensures u in index
    {
      var c := ClaimOf(t, claimed, taken, mailbox, u);
      assert c.uid == u;
    }
  }

  lemma ClaimIsByUid(t: Tables, claimed: seq<Store.PendingBody>, taken: set<Id>, mailbox: Id, c: Store.PendingBody)
    requires t.UidsUnique() && Addressable(t, taken, mailbox)
    requires Store.AllDescribed(t, claimed) && taken == Store.RowsIn(claimed) && c in claimed
    ensures c.row in taken && c.uid in ByUid(t, taken, mailbox) && ByUid(t, taken, mailbox)[c.uid] == c.row
  {
    assert Store.Describes(t, c);
    ByUidAt(t, taken, mailbox, c.row);
    hide Tables.UidsUnique, ByUid;
  }

  lemma ClaimOf(t: Tables, claimed: seq<Store.PendingBody>, taken: set<Id>, mailbox: Id, u: Uid)
    returns (c: Store.PendingBody)
    requires t.UidsUnique() && Addressable(t, taken, mailbox) && u in ByUid(t, taken, mailbox)
    requires Store.AllDescribed(t, claimed) && taken == Store.RowsIn(claimed)
    ensures c in claimed && c.uid == u
  {
    assert ByUid(t, taken, mailbox)[u] in taken;
    c :| c in claimed && c.row == ByUid(t, taken, mailbox)[u];
    assert Store.Describes(t, c);
  }

  lemma ByUidAt(t: Tables, taken: set<Id>, mailbox: Id, r: Id)
    requires t.UidsUnique() && Addressable(t, taken, mailbox) && r in taken
    ensures t.rows[r].uid.value in ByUid(t, taken, mailbox) && ByUid(t, taken, mailbox)[t.rows[r].uid.value] == r
  {
  }

  lemma NothingToClaim(t: Tables, taken: set<Id>, limit: nat, locked: set<Id>, mailbox: Id, maxAttempts: nat)
    requires t.ClaimChoice(taken, mailbox, limit, maxAttempts, locked) && taken == {} && limit > 0
    ensures forall r | t.Claimable(r, mailbox, maxAttempts) :: r in locked
  {
  }

  lemma ClaimNothing(t: Tables, now: nat)
    ensures t.Claim({}, now) == t
  {
    assert t.Claim({}, now).rows == t.rows;
  }

  lemma ReportedIsRecorded(t: Tables, claimed: seq<Store.PendingBody>, taken: set<Id>, mailbox: Id)
    requires t.Linked() && Addressable(t, taken, mailbox)
    requires Store.AllDescribed(t, claimed) && taken == Store.RowsIn(claimed)
    ensures RecordsOf(t, taken, mailbox) == Reported(claimed)
  {
    var records := RecordsOf(t, taken, mailbox);
    forall c | c in claimed
      ensures c.row in taken && Record(c.row, c.uid, c.size) in records
    {
      var i :| 0 <= i < |claimed| && claimed[i] == c;
      assert Store.Describes(t, claimed[i]);
    }
    forall r | r in taken
      ensures Record(r, t.rows[r].uid.value, t.messages[t.rows[r].message].size) in Reported(claimed)
    {
      var c :| c in claimed && c.row == r;
      var i :| 0 <= i < |claimed| && claimed[i] == c;
      assert Store.Describes(t, claimed[i]);
    }
  }

  lemma ClaimStep(q: Queue, claimed: seq<Store.PendingBody>, taken: set<Id>, limit: nat, locked: set<Id>, now: nat,
                  mailbox: Id, maxAttempts: nat)
    requires q.db.Constraints() && q.held == map[] && q.db.ClaimChoice(taken, mailbox, limit, maxAttempts, locked)
    requires now >= q.began && Store.AllDescribed(q.db, claimed) && taken == Store.RowsIn(claimed)
    requires |claimed| == |taken|
    ensures CanStep(q, BodyQueue.Claim(limit, locked, taken, now), mailbox, maxAttempts)
    ensures var q' := Next(q, BodyQueue.Claim(limit, locked, taken, now), mailbox, maxAttempts);
            && q' == q.(db := q.db.Claim(taken, now), held := RowsByUid(Index(claimed)),
                        claimed := q.claimed + multiset(taken), names := q'.names,
                        records := q.records + Reported(claimed))
            && (|claimed| == 0 ==> q'.held == map[]) && Indexed(q'.held, claimed)
            && (|claimed| == 0 && limit > 0 ==>
                  forall r | q'.db.Claimable(r, mailbox, maxAttempts) :: r in locked)
  {
    ClaimableAreUntouched(q.db, taken, limit, locked, mailbox, maxAttempts, now);
    IndexIsByUid(q.db, claimed, taken, mailbox);
    ReportedIsRecorded(q.db, claimed, taken, mailbox);
    assert |claimed| == 0 ==> RowsByUid(Index(claimed)) == map[];
    if taken == {} && limit > 0 {
      NothingToClaim(q.db, taken, limit, locked, mailbox, maxAttempts);
      ClaimNothing(q.db, now);
    }
    hide Tables.DigestsUnique, Tables.UidsUnique, Tables.Linked, Tables.ClaimChoice, Tables.Claim, Tables.Claimable,
         Store.AllDescribed, Store.RowsIn, Index, RowsByUid, ByUid, Addressable, Indexed, Reported, RecordsOf, NamesOf;
  }

  /** What the planner is given. */
  function Sized(claimed: seq<Store.PendingBody>): (sized: seq<SizedUid>)
    ensures |sized| == |claimed|
  {
    seq(|claimed|, i requires 0 <= i < |claimed| => SizedUid(claimed[i].uid, claimed[i].size))
  }

  method SizeUp(claimed: seq<Store.PendingBody>) returns (sized: seq<SizedUid>)
    ensures sized == Sized(claimed)
  {
    sized := [];
    for i := 0 to |claimed|
      invariant |sized| == i && sized == Sized(claimed)[..i]
    {
      sized := sized + [SizedUid(claimed[i].uid, claimed[i].size)];
    }
  }
}
