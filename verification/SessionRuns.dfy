/** What a call of the self-healing session does, as a function of the session's state and of
    what the outside decides, and what holds of every such call. */
module SessionRuns {
  import opened Wrappers
  import Backoff
  import Powers

  datatype Cause = Cancelled | Poisoned | BrokenConnection | Deadline | Network | Other

  datatype Failure = Failure(severity: Severity, cause: Cause)

  /** Could a fresh connection plausibly succeed? Cancellation is asked first. */
  predicate Recoverable(f: Failure) {
    if f.cause == Cancelled then false
    else if f.severity == FatalAccount || f.severity == FatalMailbox then false
    else f.cause in {Poisoned, BrokenConnection, Deadline, Network}
  }

  /** The failures of a connection: it broke, ran out of time, could not be reached or was given
      up on, and the account and the mailbox are not to blame. */
  predicate OfConnection(f: Failure) {
    && f.severity == Retryable
    && (f.cause == BrokenConnection || f.cause == Deadline || f.cause == Network || f.cause == Cause.Poisoned)
  }

  datatype Opened = Opened(name: string, readOnly: bool)

  datatype Op = Command | SelectOp(mailbox: Opened)

  /** How one command goes on a connection that carries it: refused means the server answered
      and said no; closes means the connection is closed by the end of it, for whatever reason:
      a broken link, a response that cannot be parsed, a farewell; poisons means a deadline
      fired, which closes it too and says so. Neither follows from the error. */
  datatype Outcome = Outcome(error: Option<Failure>, refused: bool, closes: bool, poisons: bool)

  /** A connection: the mailbox open on it, whether it is closed, and whether the session can
      tell. Nothing tells the session of any other closing. */
  datatype Conn = Conn(open: Option<Opened>, closed: bool, poisoned: bool)
  {
    /** A command put on it reaches the server. */
    predicate Carries() {
      !closed && !poisoned
    }
  }

  const FRESH: Conn := Conn(None, false, false)

  const POISONED: Failure := Failure(Retryable, Cause.Poisoned)
  const CLOSED: Failure := Failure(Retryable, Network)

  /** The mailbox open after a command; a refused SELECT leaves none (section 6.3.1 of RFC 3501). */
  function OpenAfter(c: Conn, op: Op, outcome: Outcome): Option<Opened> {
    if op.Command? then c.open
    else if outcome.error == None then Some(op.mailbox)
    else if outcome.refused then None
    else c.open
  }

  /** A command on a poisoned connection is turned away; on a closed one it fails at the first
      write. Neither reaches the server. */
  function Exec(c: Conn, op: Op, outcome: Outcome): (Conn, Option<Failure>) {
    if c.poisoned then (c, Some(POISONED))
    else if c.closed then (c, Some(CLOSED))
    else (Conn(OpenAfter(c, op, outcome), outcome.closes || outcome.poisons, outcome.poisons), outcome.error)
  }

  /** Everything the outside decides about one attempt; dropped says whether the peer has hung up
      before it. */
  datatype Attempt = Attempt(
    cancelled: bool, dropped: bool, dial: Option<Failure>, reopen: Outcome, run: Outcome, goesOn: bool)

  const QUIET: Outcome := Outcome(None, false, false, false)

  /** When the script has run out, the caller has gone away. */
  const CANCELLED: Attempt := Attempt(true, false, None, QUIET, QUIET, false)

  function At(script: seq<Attempt>, i: nat): Attempt {
    if i < |script| then script[i] else CANCELLED
  }

  function Rest(script: seq<Attempt>, n: nat): seq<Attempt> {
    if n < |script| then script[n..] else []
  }

  /** What happened, in order, what the outside made of it, and the connection the session holds
      afterwards. Ran also records the connection as the command found it. */
  datatype Event =
    | Dropped(left: Option<Conn>)
    | Dialled(error: Option<Failure>, left: Option<Conn>)
    | Reopened(mailbox: Opened, outcome: Outcome, error: Option<Failure>, left: Option<Conn>)
    | Ran(found: Conn, remembered: Option<Opened>, op: Op, outcome: Outcome, error: Option<Failure>, left: Option<Conn>)

  datatype State = State(conn: Option<Conn>, remembered: Option<Opened>)

  /** The peer hangs up between commands. */
  function Dropping(st: State, a: Attempt): (State, seq<Event>) {
    if a.dropped && st.conn.Some? then
      var left := Some(st.conn.value.(closed := true));
      (st.(conn := left), [Dropped(left)])
    else (st, [])
  }

  datatype Connected = Connected(state: State, log: seq<Event>, error: Option<Failure>)

  /** ensureConnected: what is held and not poisoned is used; otherwise a connection is dialled
      and the remembered mailbox opened on it, or none is kept. */
  function Connect(st: State, a: Attempt): (r: Connected)
    ensures r.error == None ==> r.state.conn.Some?
  {
    if st.conn.Some? && !st.conn.value.poisoned then Connected(st, [], None)
    else if a.dial.Some? then Connected(st.(conn := None), [Dialled(a.dial, None)], a.dial)
    else if st.remembered == None then Connected(st.(conn := Some(FRESH)), [Dialled(None, Some(FRESH))], None)
    else
      var (c, error) := Exec(FRESH, SelectOp(st.remembered.value), a.reopen);
      var left := if error == None then Some(c) else None;
      Connected(st.(conn := left), [Dialled(None, Some(FRESH)), Reopened(st.remembered.value, a.reopen, error, left)],
                error)
  }

  /** The command on the connection held; what a fresh connection could cure discards this one. */
  function Running(st: State, op: Op, outcome: Outcome): (State, Event)
    requires st.conn.Some?
  {
    var found := st.conn.value;
    var (c, error) := Exec(found, op, outcome);
    var left := Kept(c, error);
    (st.(conn := left), Ran(found, st.remembered, op, outcome, error, left))
  }

  function Kept(c: Conn, error: Option<Failure>): Option<Conn> {
    if error.Some? && Recoverable(error.value) then None else Some(c)
  }

  datatype Verdict = Done | GaveUp(failure: Failure) | Again(failure: Failure)

  datatype Tried = Tried(state: State, log: seq<Event>, verdict: Verdict)

  /** One attempt. */
  function TryOnce(st: State, op: Op, a: Attempt): Tried {
    if a.cancelled then Tried(st, [], GaveUp(Failure(Retryable, Cancelled)))
    else
      var (st', dropped) := Dropping(st, a);
      var reached := Connect(st', a);
      if reached.error.Some? then
        Tried(reached.state, dropped + reached.log,
              if reached.error.value.severity == FatalAccount || !a.goesOn then GaveUp(reached.error.value)
              else Again(reached.error.value))
      else
        var (ran, event) := Running(reached.state, op, a.run);
        Tried(ran, dropped + reached.log + [event],
              if event.error == None then Done
              else if !Recoverable(event.error.value) || !a.goesOn then GaveUp(event.error.value)
              else Again(event.error.value))
  }

  /** A finished call, or sequence of calls: the state it leaves, what happened, how it ended and
      how many attempts it took. */
  datatype Finish = Finish(state: State, log: seq<Event>, error: Option<Failure>, tried: nat)

  function After(log: seq<Event>, tried: nat, f: Finish): Finish {
    f.(log := log + f.log, tried := tried + f.tried)
  }

  /** A call with k attempts left, after the given failure. */
  function DoFrom(st: State, op: Op, script: seq<Attempt>, k: nat, last: Failure): Finish
    decreases k
  {
    if k == 0 then Finish(st, [], Some(last), 0)
    else
      var t := TryOnce(st, op, At(script, 0));
      match t.verdict
      case Done => Finish(t.state, t.log, None, 1)
      case GaveUp(f) => Finish(t.state, t.log, Some(f), 1)
      case Again(f) => After(t.log, 1, DoFrom(t.state, op, Rest(script, 1), k - 1, f))
  }

  const NOT_YET: Failure := Failure(Retryable, Other)

  function Called(st: State, op: Op, script: seq<Attempt>, attempts: int): Finish {
    DoFrom(st, op, script, Backoff.Most(attempts), NOT_YET)
  }

  /** A successful SELECT is remembered. */
  function Remember(st: State, op: Op, error: Option<Failure>): State {
    if op.SelectOp? && error == None
    then st.(remembered := if op.mailbox.name == "" then None else Some(op.mailbox))
    else st
  }

  /** A sequence of calls. */
  function Served(st: State, ops: seq<Op>, script: seq<Attempt>, attempts: int): Finish
    decreases |ops|
  {
    if ops == [] then Finish(st, [], None, 0)
    else
      var op := ops[|ops| - 1];
      var before := Served(st, ops[..|ops| - 1], script, attempts);
      var f := Called(before.state, op, Rest(script, before.tried), attempts);
      After(before.log, before.tried, f.(state := Remember(f.state, op, f.error)))
  }

  lemma Begin(st: State, op: Op, script: seq<Attempt>, attempts: int)
    ensures Rest(script, 0) == script
    ensures Called(st, op, script, attempts) == After([], 0, DoFrom(st, op, script, Backoff.Most(attempts), NOT_YET))
  {
    var f := DoFrom(st, op, script, Backoff.Most(attempts), NOT_YET);
    assert [] + f.log == f.log;
  }

  /** A call is its first attempt and, if that is not the end, a call with one attempt less. */
  lemma CallUnfolds(st: State, op: Op, script: seq<Attempt>, k: nat, last: Failure)
    ensures k == 0 ==> DoFrom(st, op, script, k, last) == Finish(st, [], Some(last), 0)
    ensures var f, t := DoFrom(st, op, script, k, last), TryOnce(st, op, At(script, 0));
            k > 0 ==>
              && (t.verdict.Done? ==> f == Finish(t.state, t.log, None, 1))
              && (t.verdict.GaveUp? ==> f == Finish(t.state, t.log, Some(t.verdict.failure), 1))
              && (t.verdict.Again? ==>
                    f == After(t.log, 1, DoFrom(t.state, op, Rest(script, 1), k - 1, t.verdict.failure)))
  {
    hide TryOnce, At, Rest, After;
  }

  /** What one attempt adds to a call under way. */
  lemma AttemptOnce(whole: Finish, log: seq<Event>, tried: nat, st: State, op: Op, script: seq<Attempt>, k: nat,
                    last: Failure)
    requires whole == After(log, tried, DoFrom(st, op, script, k, last)) && k > 0
    ensures var t := TryOnce(st, op, At(script, 0));
            && (t.verdict.Done? ==> whole == Finish(t.state, log + t.log, None, tried + 1))
            && (t.verdict.GaveUp? ==> whole == Finish(t.state, log + t.log, Some(t.verdict.failure), tried + 1))
            && (t.verdict.Again? ==>
                  whole == After(log + t.log, tried + 1,
                                 DoFrom(t.state, op, Rest(script, 1), k - 1, t.verdict.failure)))
  {
    hide TryOnce, At, Rest, DoFrom;
    CallUnfolds(st, op, script, k, last);
    var t := TryOnce(st, op, At(script, 0));
    if t.verdict.Again? {
      var f := DoFrom(t.state, op, Rest(script, 1), k - 1, t.verdict.failure);
      assert log + (t.log + f.log) == log + t.log + f.log;
    }
  }

  lemma OutOfAttempts(whole: Finish, log: seq<Event>, tried: nat, st: State, op: Op, script: seq<Attempt>,
                      last: Failure)
    requires whole == After(log, tried, DoFrom(st, op, script, 0, last))
    ensures whole == Finish(st, log, Some(last), tried)
  {
    assert log + [] == log;
  }

  lemma RestTwice(script: seq<Attempt>, n: nat, m: nat)
    ensures Rest(Rest(script, n), m) == Rest(script, n + m)
  {
  }

  lemma ServeNothing(st: State, script: seq<Attempt>, attempts: int)
    ensures Served(st, [], script, attempts) == Finish(st, [], None, 0) && Rest(script, 0) == script
  {
  }

  lemma ServeOneMore(st: State, ops: seq<Op>, i: nat, script: seq<Attempt>, attempts: int)
    requires i < |ops|
    ensures var before := Served(st, ops[..i], script, attempts);
            var f := Called(before.state, ops[i], Rest(script, before.tried), attempts);
            Served(st, ops[..i + 1], script, attempts)
            == After(before.log, before.tried, f.(state := Remember(f.state, ops[i], f.error)))
  {
    assert ops[..i + 1][..i] == ops[..i];
  }

  // ---------------------------------------------------------------- the connection's history

  /** What an event makes of the connection held before it. */
  predicate Follows(before: Option<Conn>, e: Event) {
    match e
    case Dropped(left) => before.Some? && left == Some(before.value.(closed := true))
    case Dialled(error, left) =>
      (before.None? || before.value.poisoned) && left == if error == None then Some(FRESH) else None
    case Reopened(m, outcome, error, left) =>
      && before == Some(FRESH) && error == Exec(FRESH, SelectOp(m), outcome).1
      && left == if error == None then Some(Exec(FRESH, SelectOp(m), outcome).0) else None
    case Ran(found, _, op, outcome, error, left) =>
      && before == Some(found) && error == Exec(found, op, outcome).1
      && left == Kept(Exec(found, op, outcome).0, error)
  }

  function HeldBefore(start: Option<Conn>, log: seq<Event>, i: nat): Option<Conn>
    requires i <= |log|
  {
    if i == 0 then start else log[i - 1].left
  }

  predicate FollowsAt(start: Option<Conn>, log: seq<Event>, i: nat)
    requires i < |log|
  {
    Follows(HeldBefore(start, log, i), log[i])
  }

  /** Each event works on the connection the one before it left. */
  ghost predicate Chained(start: Option<Conn>, log: seq<Event>) {
    forall i | 0 <= i < |log| :: FollowsAt(start, log, i)
  }

  ghost predicate Leads(start: Option<Conn>, log: seq<Event>, end: Option<Conn>) {
    Chained(start, log) && HeldBefore(start, log, |log|) == end
  }

  lemma LeadsOn(start: Option<Conn>, log: seq<Event>, mid: Option<Conn>, more: seq<Event>, end: Option<Conn>)
    requires Leads(start, log, mid) && Leads(mid, more, end)
    ensures Leads(start, log + more, end)
  {
    var all := log + more;
    hide Follows;
    forall i | 0 <= i < |all|
      ensures FollowsAt(start, all, i)
    {
      if i < |log| {
        assert FollowsAt(start, log, i);
      } else {
        assert FollowsAt(mid, more, i - |log|);
      }
    }
  }

  lemma LeadsNowhere(start: Option<Conn>)
    ensures Leads(start, [], start)
  {
  }

  lemma LeadsOnce(start: Option<Conn>, e: Event)
    requires Follows(start, e)
    ensures Leads(start, [e], e.left)
  {
  }

  lemma ConnectLeads(st: State, a: Attempt)
    ensures var r := Connect(st, a); Leads(st.conn, r.log, r.state.conn) && r.state.remembered == st.remembered
  {
  }

  lemma TryLeads(st: State, op: Op, a: Attempt)
    ensures var t := TryOnce(st, op, a); Leads(st.conn, t.log, t.state.conn) && t.state.remembered == st.remembered
  {
    var (st', dropped) := Dropping(st, a);
    var r := Connect(st', a);
    assert Leads(st.conn, dropped, st'.conn);
    ConnectLeads(st', a);
    assert Leads(st.conn, [], st.conn);
    hide Leads, Connect, Dropping;
    LeadsOn(st.conn, dropped, st'.conn, r.log, r.state.conn);
    if !a.cancelled && r.error == None {
      var (ran, event) := Running(r.state, op, a.run);
      LeadsOnce(r.state.conn, event);
      LeadsOn(st.conn, dropped + r.log, r.state.conn, [event], ran.conn);
    }
  }

  lemma {:induction false} CallLeads(st: State, op: Op, script: seq<Attempt>, k: nat, last: Failure)
    ensures var f := DoFrom(st, op, script, k, last);
            Leads(st.conn, f.log, f.state.conn) && f.state.remembered == st.remembered
    decreases k
  {
    LeadsNowhere(st.conn);
    hide Leads, TryOnce, At, Rest, DoFrom;
    CallUnfolds(st, op, script, k, last);
    if k > 0 {
      var t := TryOnce(st, op, At(script, 0));
      TryLeads(st, op, At(script, 0));
      if t.verdict.Again? {
        var f := DoFrom(t.state, op, Rest(script, 1), k - 1, t.verdict.failure);
        CallLeads(t.state, op, Rest(script, 1), k - 1, t.verdict.failure);
        LeadsOn(st.conn, t.log, t.state.conn, f.log, f.state.conn);
      }
    }
  }

  /** Over any sequence of calls, each event works on the connection the one before it left. */
  lemma {:induction false} ServiceLeads(st: State, ops: seq<Op>, script: seq<Attempt>, attempts: int)
    ensures var f := Served(st, ops, script, attempts); Leads(st.conn, f.log, f.state.conn)
    decreases |ops|
  {
    if ops != [] {
      var before := Served(st, ops[..|ops| - 1], script, attempts);
      ServiceLeads(st, ops[..|ops| - 1], script, attempts);
      var rest := Rest(script, before.tried);
      CallLeads(before.state, ops[|ops| - 1], rest, Backoff.Most(attempts), NOT_YET);
      hide Leads, DoFrom;
      LeadsOn(st.conn, before.log, before.state.conn, Called(before.state, ops[|ops| - 1], rest, attempts).log,
              Called(before.state, ops[|ops| - 1], rest, attempts).state.conn);
    }
  }

  /** The connection was closed and nothing tells the session: the peer hung up in between, or a
      command closed it with no error or with one that is not on the recoverable list. */
  predicate ClosesUnnoticed(e: Event) {
    match e
    case Dropped(left) => left.Some? && !left.value.poisoned
    case Dialled(_, _) => false
    case Reopened(_, outcome, error, _) => error == None && outcome.closes && !outcome.poisons
    case Ran(found, _, _, outcome, error, _) =>
      found.Carries() && outcome.closes && !outcome.poisons && !(error.Some? && OfConnection(error.value))
  }

  /** A command starts on a closed connection exactly when the event just before it closed that
      connection unnoticed. */
  lemma StartsClosedIff(start: Option<Conn>, log: seq<Event>, i: nat)
    requires Chained(start, log) && 0 < i < |log| && log[i].Ran?
    ensures log[i].found.closed && !log[i].found.poisoned <==> ClosesUnnoticed(log[i - 1])
  {
    assert FollowsAt(start, log, i) && FollowsAt(start, log, i - 1);
  }

  /** So over any sequence of calls. */
  lemma CommandsStartClosedIff(st: State, ops: seq<Op>, script: seq<Attempt>, attempts: int, i: nat)
    requires var log := Served(st, ops, script, attempts).log; 0 < i < |log| && log[i].Ran?
    ensures var log := Served(st, ops, script, attempts).log;
            log[i].found.closed && !log[i].found.poisoned <==> ClosesUnnoticed(log[i - 1])
  {
    hide Served;
    ServiceLeads(st, ops, script, attempts);
    StartsClosedIff(st.conn, Served(st, ops, script, attempts).log, i);
  }

  /** A response that cannot be parsed: the connection is closed, and the error is none of those a
      fresh connection is tried for. */
  const GARBLED: Outcome := Outcome(Some(Failure(Retryable, Other)), false, true, false)

  /** Two commands, the first answered with garbage, the second with what it asked for. */
  lemma ClosedConnectionIsHandedOut(m: Opened)
    ensures var first := Attempt(false, false, None, QUIET, GARBLED, true);
            var second := Attempt(false, false, None, QUIET, QUIET, true);
            var held := Conn(Some(m), false, false);
            var f := Served(State(Some(held), Some(m)), [Command, Command], [first, second], 1);
            && |f.log| == 2 && f.log[0].Ran? && f.log[0].left == Some(held.(closed := true))
            && f.log[1].Ran? && f.log[1].found.closed && !f.log[1].found.poisoned
            && f.error == Some(CLOSED)
  {
    var first := Attempt(false, false, None, QUIET, GARBLED, true);
    var second := Attempt(false, false, None, QUIET, QUIET, true);
    var st := State(Some(Conn(Some(m), false, false)), Some(m));
    assert [Command, Command][..1] == [Command];
    assert [Command][..0] == [];
    var f := Called(st, Command, [first, second], 1);
    assert Served(st, [Command], [first, second], 1) == f;
    assert Rest([first, second], 1) == [second];
    var g := Called(f.state, Command, [second], 1);
    assert g.error == Some(CLOSED);
  }

  // ---------------------------------------------------------------- the remembered mailbox

  /** A command that reaches the server finds the remembered mailbox open. */
  predicate FoundRestored(e: Event) {
    e.Ran? && e.found.Carries() ==> e.found.open == e.remembered
  }

  ghost predicate AllFound(log: seq<Event>) {
    forall i | 0 <= i < |log| :: FoundRestored(log[i])
  }

  predicate Restored(st: State) {
    st.conn.Some? && st.conn.value.Carries() ==> st.conn.value.open == st.remembered
  }

  /** A server that was reached has refused a SELECT, and the session holds on to the connection. */
  predicate Refuses(e: Event) {
    && e.Ran? && e.found.Carries() && e.op.SelectOp? && e.error.Some? && e.outcome.refused
    && e.left.Some? && e.left.value.Carries()
  }

  ghost predicate NoneRefuses(log: seq<Event>) {
    forall i | 0 <= i < |log| :: !Refuses(log[i])
  }

  predicate EndsRefused(log: seq<Event>) {
    log != [] && Refuses(log[|log| - 1])
  }

  lemma AllFoundIn(log: seq<Event>, more: seq<Event>)
    ensures AllFound(log + more) <==> AllFound(log) && AllFound(more)
    ensures NoneRefuses(log + more) <==> NoneRefuses(log) && NoneRefuses(more)
    ensures AllFound([]) && NoneRefuses([])
    ensures more != [] ==> (EndsRefused(log + more) <==> EndsRefused(more))
  {
    assert forall i | 0 <= i < |more| :: (log + more)[|log| + i] == more[i];
    assert forall i | 0 <= i < |log| :: (log + more)[i] == log[i];
  }

  lemma RunFinds(st: State, op: Op, outcome: Outcome)
    requires st.conn.Some? && Restored(st)
    ensures var (st', e) := Running(st, op, outcome);
            && FoundRestored(e)
            && (op.Command? ==> Restored(st') && !Refuses(e))
            && (op.SelectOp? && e.error == None && op.mailbox.name != "" ==> Restored(Remember(st', op, None)))
            && (e.error.Some? ==> (Restored(st') <==> !(Refuses(e) && st.remembered.Some?)))
  {
  }

  lemma ConnectFinds(st: State, a: Attempt)
    requires Restored(st)
    ensures var (st', dropped) := Dropping(st, a);
            var r := Connect(st', a);
            && Restored(r.state) && AllFound(dropped + r.log) && NoneRefuses(dropped + r.log)
            && (r.error.Some? ==> r.state.conn == None)
  {
  }

  /** What one attempt leaves of the promise. */
  ghost predicate Keeps(st: State, op: Op, log: seq<Event>, error: Option<Failure>, st': State) {
    && AllFound(log)
    && (op.Command? ==> Restored(st') && NoneRefuses(log))
    && (op.SelectOp? && error == None && op.mailbox.name != "" ==> Restored(Remember(st', op, None)))
    && (error.Some? ==> (Restored(st') <==> !(EndsRefused(log) && st.remembered.Some?)))
  }

  lemma TryFinds(st: State, op: Op, a: Attempt)
    requires Restored(st)
    ensures var t := TryOnce(st, op, a);
            && Keeps(st, op, t.log, if t.verdict.Done? then None else Some(t.verdict.failure), t.state)
            && (t.verdict.Again? ==> Restored(t.state) && t.state.conn == None)
  {
    AllFoundIn([], []);
    if !a.cancelled {
      var (st', dropped) := Dropping(st, a);
      var r := Connect(st', a);
      ConnectFinds(st, a);
      var log := dropped + r.log;
      if r.error == None {
        var (ran, e) := Running(r.state, op, a.run);
        RunFinds(r.state, op, a.run);
        AllFoundIn(log, [e]);
        assert [e][0] == e;
      }
    }
  }

  lemma KeepsNothing(st: State, op: Op, last: Failure)
    requires Restored(st)
    ensures Keeps(st, op, [], Some(last), st)
  {
  }

  lemma KeepsOn(st: State, op: Op, log: seq<Event>, failure: Failure, mid: State, more: seq<Event>,
                error: Option<Failure>, end: State)
    requires Keeps(st, op, log, Some(failure), mid) && Restored(mid) && mid.remembered == st.remembered
    requires Keeps(mid, op, more, error, end)
    ensures Keeps(st, op, log + more, error, end)
  {
    hide AllFound, NoneRefuses, Refuses;
    AllFoundIn(log, more);
    if more == [] {
      assert log + more == log;
    }
  }

  /** A call keeps the promise to itself; what breaks it for later calls is a SELECT refused on
      a connection that lives on, and only that. */
  lemma {:induction false} CallFinds(st: State, op: Op, script: seq<Attempt>, k: nat, last: Failure)
    requires Restored(st)
    ensures var f := DoFrom(st, op, script, k, last); Keeps(st, op, f.log, f.error, f.state)
    decreases k
  {
    hide TryOnce, At, Rest, DoFrom, Keeps, Restored;
    KeepsNothing(st, op, last);
    CallUnfolds(st, op, script, k, last);
    if k > 0 {
      var t := TryOnce(st, op, At(script, 0));
      TryFinds(st, op, At(script, 0));
      TryLeads(st, op, At(script, 0));
      if t.verdict.Again? {
        var f := DoFrom(t.state, op, Rest(script, 1), k - 1, t.verdict.failure);
        CallFinds(t.state, op, Rest(script, 1), k - 1, t.verdict.failure);
        KeepsOn(st, op, t.log, t.verdict.failure, t.state, f.log, f.error, f.state);
      }
    }
  }

  predicate AllNamed(ops: seq<Op>) {
    forall i | 0 <= i < |ops| && ops[i].SelectOp? :: ops[i].mailbox.name != ""
  }

  /** Over any sequence of calls in which no SELECT is refused on a connection that lives on,
      every command that reaches the server finds the mailbox last opened. */
  lemma {:induction false} ServiceFinds(st: State, ops: seq<Op>, script: seq<Attempt>, attempts: int)
    requires Restored(st) && AllNamed(ops)
    ensures var f := Served(st, ops, script, attempts); NoneRefuses(f.log) ==> AllFound(f.log) && Restored(f.state)
    decreases |ops|
  {
    AllFoundIn([], []);
    if ops != [] {
      var n := |ops| - 1;
      var before := Served(st, ops[..n], script, attempts);
      ServiceFinds(st, ops[..n], script, attempts);
      var f := Called(before.state, ops[n], Rest(script, before.tried), attempts);
      AllFoundIn(before.log, f.log);
      if NoneRefuses(before.log + f.log) {
        CallFinds(before.state, ops[n], Rest(script, before.tried), Backoff.Most(attempts), NOT_YET);
      }
    }
  }

  // ---------------------------------------------------------------- what a call gets over

  predicate Condemned(error: Option<Failure>) {
    error.Some? && error.value.severity == FatalAccount
  }

  /** Nothing is held that a command could be put on, so the attempt has to dial. */
  predicate MustDial(st: State) {
    st.conn == None || st.conn.value.poisoned
  }

  /** The attempt fails, but not for good: what it meets is a failure of the connection, or one of
      dialling or reopening that does not condemn the account; and the caller still has time. */
  predicate Setback(st: State, a: Attempt) {
    && !a.cancelled && a.goesOn
    && if !MustDial(st) then
         a.dropped || st.conn.value.closed || (a.run.error.Some? && OfConnection(a.run.error.value))
       else if a.dial.Some? then !Condemned(a.dial)
       else if st.remembered.Some? && a.reopen.error.Some? then !Condemned(a.reopen.error)
       else || (st.remembered.Some? && (a.reopen.closes || a.reopen.poisons))
            || (a.run.error.Some? && OfConnection(a.run.error.value))
  }

  /** The attempt gets a connection that carries the command. */
  predicate Reaches(st: State, a: Attempt) {
    && !a.cancelled
    && if !MustDial(st) then !a.dropped && !st.conn.value.closed
       else a.dial == None
            && (st.remembered == None || (a.reopen.error == None && !a.reopen.closes && !a.reopen.poisons))
  }

  /** After a setback nothing is held. */
  function Facing(st: State, i: nat): State {
    if i == 0 then st else st.(conn := None)
  }

  ghost predicate Setbacks(st: State, script: seq<Attempt>, n: nat) {
    forall i: nat | i < n :: Setback(Facing(st, i), At(script, i))
  }

  lemma SetbackGoesOn(st: State, op: Op, a: Attempt)
    requires Setback(st, a)
    ensures TryOnce(st, op, a).verdict.Again? && TryOnce(st, op, a).state == st.(conn := None)
  {
  }

  /** What an attempt that reaches the server makes of the call. */
  lemma ReachingDecides(st: State, op: Op, a: Attempt)
    requires Reaches(st, a)
    ensures var t := TryOnce(st, op, a);
            && (a.run.error == None ==> t.verdict == Done && t.state.conn.Some?)
            && (a.run.error.Some? && (!OfConnection(a.run.error.value) || !a.goesOn) ==>
                  t.verdict == GaveUp(a.run.error.value))
            && t.log != [] && t.log[|t.log| - 1].Ran? && t.log[|t.log| - 1].found.Carries()
            && t.log[|t.log| - 1].op == op && t.log[|t.log| - 1].error == a.run.error
  {
  }

  lemma DiallingDecides(st: State, op: Op, a: Attempt)
    ensures a.cancelled ==> TryOnce(st, op, a) == Tried(st, [], GaveUp(Failure(Retryable, Cancelled)))
    ensures !a.cancelled && MustDial(st) && Condemned(a.dial) ==> TryOnce(st, op, a).verdict == GaveUp(a.dial.value)
    ensures !a.cancelled && MustDial(st) && a.dial == None && st.remembered.Some? && Condemned(a.reopen.error) ==>
              TryOnce(st, op, a).verdict == GaveUp(a.reopen.error.value)
  {
  }

  lemma FacingNext(st: State, script: seq<Attempt>, n: nat)
    requires Setbacks(st, script, n) && n > 0
    ensures Setbacks(st.(conn := None), Rest(script, 1), n - 1)
  {
    forall i: nat | i < n - 1
      ensures Setback(Facing(st.(conn := None), i), At(Rest(script, 1), i))
    {
      assert Setback(Facing(st, i + 1), At(script, i + 1));
      AtRest(script, i + 1);
    }
  }

  lemma AtRest(script: seq<Attempt>, n: nat)
    requires n > 0
    ensures At(Rest(script, 1), n - 1) == At(script, n)
  {
  }

  /** After n setbacks the call is a call with n attempts less, that holds no connection. */
  lemma {:induction false} AfterSetbacks(st: State, op: Op, script: seq<Attempt>, k: nat, last: Failure, n: nat)
    returns (log: seq<Event>, failure: Failure)
    requires n <= k && Setbacks(st, script, n)
    ensures DoFrom(st, op, script, k, last)
            == After(log, n, DoFrom(Facing(st, n), op, Rest(script, n), k - n, failure))
    decreases n
  {
    log, failure := [], last;
    hide TryOnce, At, DoFrom, After, Setback;
    if n == 0 {
      AfterNothing(DoFrom(st, op, script, k, last));
    } else {
      var t := TryOnce(st, op, At(script, 0));
      FirstSetback(st, op, script, k, last, n);
      FacingNext(st, script, n);
      RestTwice(script, 1, n - 1);
      hide Rest, Setbacks;
      log, failure := AfterSetbacks(st.(conn := None), op, Rest(script, 1), k - 1, t.verdict.failure, n - 1);
      AfterTwice(t.log, 1, log, n - 1, DoFrom(Facing(st, n), op, Rest(script, n), k - n, failure));
      log := t.log + log;
    }
  }

  lemma FirstSetback(st: State, op: Op, script: seq<Attempt>, k: nat, last: Failure, n: nat)
    requires 0 < n <= k && Setbacks(st, script, n)
    ensures var t := TryOnce(st, op, At(script, 0));
            && t.verdict.Again?
            && DoFrom(st, op, script, k, last)
               == After(t.log, 1, DoFrom(st.(conn := None), op, Rest(script, 1), k - 1, t.verdict.failure))
  {
    hide TryOnce, At, Rest, DoFrom, After, Setback;
    assert Setback(Facing(st, 0), At(script, 0));
    SetbackGoesOn(st, op, At(script, 0));
    CallUnfolds(st, op, script, k, last);
  }

  lemma AfterNothing(f: Finish)
    ensures After([], 0, f) == f
  {
    assert [] + f.log == f.log;
  }

  lemma AfterTwice(a: seq<Event>, n: nat, b: seq<Event>, m: nat, f: Finish)
    ensures After(a, n, After(b, m, f)) == After(a + b, n + m, f)
  {
    assert a + (b + f.log) == a + b + f.log;
  }

  /** How a call goes whose first n attempts are setbacks: if the next one reaches the server, it
      decides, unless it is a setback too; a cancelled caller, or an account condemned on
      dialling or reopening, ends it; and after as many setbacks as attempts it fails. */
  lemma CallHeals(st: State, op: Op, script: seq<Attempt>, attempts: int, n: nat)
    requires n <= (if attempts < 1 then 1 else attempts) && Setbacks(st, script, n)
    ensures var f, a, facing := Called(st, op, script, attempts), At(script, n), Facing(st, n);
            var most := if attempts < 1 then 1 else attempts;
            && (n < most && Reaches(facing, a) ==>
                  && (a.run.error == None ==> f.error == None && f.tried == n + 1 && f.state.conn.Some?)
                  && (a.run.error.Some? && (!OfConnection(a.run.error.value) || !a.goesOn) ==>
                        f.error == a.run.error && f.tried == n + 1))
            && (n < most && a.cancelled ==>
                  f.error == Some(Failure(Retryable, Cancelled)) && f.tried == n + 1 && f.state == facing)
            && (n < most && !a.cancelled && MustDial(facing) && Condemned(a.dial) ==>
                  f.error == a.dial && f.tried == n + 1)
            && (n < most && !a.cancelled && MustDial(facing) && a.dial == None
                && st.remembered.Some? && Condemned(a.reopen.error) ==>
                  f.error == a.reopen.error && f.tried == n + 1)
            && (n == most ==> f.error.Some? && f.tried == n && f.state.conn == None)
  {
    var k := Backoff.Most(attempts);
    var log, failure := AfterSetbacks(st, op, script, k, NOT_YET, n);
    RestAt(script, n);
    hide TryOnce, At, Rest, DoFrom, Setbacks, Reaches;
    CallUnfolds(Facing(st, n), op, Rest(script, n), k - n, failure);
    if n < k {
      DiallingDecides(Facing(st, n), op, At(script, n));
      if Reaches(Facing(st, n), At(script, n)) {
        ReachingDecides(Facing(st, n), op, At(script, n));
      }
    }
  }

  lemma RestAt(script: seq<Attempt>, n: nat)
    ensures At(Rest(script, n), 0) == At(script, n)
  {
  }

  // ---------------------------------------------------------------- bounds

  function Runs(log: seq<Event>): nat {
    if log == [] then 0 else Runs(log[..|log| - 1]) + if log[|log| - 1].Ran? then 1 else 0
  }

  function Dials(log: seq<Event>): nat {
    if log == [] then 0 else Dials(log[..|log| - 1]) + if log[|log| - 1].Dialled? then 1 else 0
  }

  lemma Count(log: seq<Event>, e: Event)
    ensures Runs(log + [e]) == Runs(log) + if e.Ran? then 1 else 0
    ensures Dials(log + [e]) == Dials(log) + if e.Dialled? then 1 else 0
  {
    assert (log + [e])[..|log|] == log;
  }

  lemma {:induction false} CountAll(log: seq<Event>, more: seq<Event>)
    ensures Runs(log + more) == Runs(log) + Runs(more) && Dials(log + more) == Dials(log) + Dials(more)
  {
    if more == [] {
      assert log + more == log;
    } else {
      var n := |more| - 1;
      CountAll(log, more[..n]);
      Count(log + more[..n], more[n]);
      assert log + more == log + more[..n] + [more[n]];
    }
  }

  lemma CountFew(a: Event, b: Event)
    ensures Runs([]) == 0 && Dials([]) == 0
    ensures Runs([a]) == (if a.Ran? then 1 else 0) && Dials([a]) == (if a.Dialled? then 1 else 0)
    ensures Runs([a, b]) == Runs([a]) + (if b.Ran? then 1 else 0)
            && Dials([a, b]) == Dials([a]) + if b.Dialled? then 1 else 0
  {
    Count([], a);
    assert [] + [a] == [a];
    Count([a], b);
    assert [a] + [b] == [a, b];
  }

  lemma ConnectIsBounded(st: State, a: Attempt)
    ensures var r := Connect(st, a); Runs(r.log) == 0 && Dials(r.log) <= 1
  {
    hide Runs, Dials, Exec;
    var r := Connect(st, a);
    CountFew(if r.log == [] then Dropped(None) else r.log[0], if |r.log| < 2 then Dropped(None) else r.log[1]);
    assert |r.log| == 1 ==> r.log == [r.log[0]];
    assert |r.log| == 2 ==> r.log == [r.log[0], r.log[1]];
  }

  lemma TryIsBounded(st: State, op: Op, a: Attempt)
    ensures Runs(TryOnce(st, op, a).log) <= 1 && Dials(TryOnce(st, op, a).log) <= 1
  {
    hide Runs, Dials, Connect, Running;
    var (st', dropped) := Dropping(st, a);
    var r := Connect(st', a);
    ConnectIsBounded(st', a);
    CountFew(Dropped(st'.conn), Dropped(None));
    CountAll(dropped, r.log);
    if r.error == None {
      Count(dropped + r.log, Running(r.state, op, a.run).1);
      RunningRuns(r.state, op, a.run);
    }
  }

  lemma RunningRuns(st: State, op: Op, outcome: Outcome)
    requires st.conn.Some?
    ensures Running(st, op, outcome).1.Ran?
  {
  }

  /** At most k runs and k dials. */
  lemma {:induction false} CallIsBounded(st: State, op: Op, script: seq<Attempt>, k: nat, last: Failure)
    ensures var f := DoFrom(st, op, script, k, last); Runs(f.log) <= k && Dials(f.log) <= k && f.tried <= k
    ensures k > 0 ==> DoFrom(st, op, script, k, last).tried > 0
    decreases k
  {
    hide TryOnce, At, Rest, DoFrom;
    CallUnfolds(st, op, script, k, last);
    if k > 0 {
      var t := TryOnce(st, op, At(script, 0));
      TryIsBounded(st, op, At(script, 0));
      if t.verdict.Again? {
        CallIsBounded(t.state, op, Rest(script, 1), k - 1, t.verdict.failure);
        CountAll(t.log, DoFrom(t.state, op, Rest(script, 1), k - 1, t.verdict.failure).log);
      }
    }
  }

  /** Why a call ends before its last attempt. */
  predicate GivesUp(a: Attempt, f: Failure) {
    || a.cancelled || !a.goesOn || f.severity == FatalAccount || f.severity == FatalMailbox
    || f.cause == Cancelled || f.cause == Cause.Other
  }

  /** The account is condemned, or a command has failed for another reason than its connection. */
  predicate Condemns(e: Event) {
    match e
    case Dropped(_) => false
    case Dialled(error, _) => error.Some? && error.value.severity == FatalAccount
    case Reopened(_, _, error, _) => error.Some? && error.value.severity == FatalAccount
    case Ran(_, _, _, _, error, _) => error.Some? && !OfConnection(error.value)
  }

  /** Nothing follows an event that condemns the account, nor a command's error that is not of
      the connection. */
  ghost predicate StopsAtFatal(log: seq<Event>) {
    forall i | 0 <= i < |log| - 1 :: !Condemns(log[i])
  }

  /** A call does not end before the last attempt unless it succeeds, a failure is final or the
      caller's time is up; it goes on after nothing that condemns the account; and it succeeds
      only if its last run did. */
  ghost predicate EndsWithReason(f: Finish, script: seq<Attempt>, k: nat) {
    && StopsAtFatal(f.log)
    && (f.error.Some? && f.tried < k ==> f.tried > 0 && GivesUp(At(script, f.tried - 1), f.error.value))
    && (f.error == None ==> f.log != [] && f.log[|f.log| - 1].Ran? && f.log[|f.log| - 1].error == None)
  }

  ghost predicate NoneCondemns(log: seq<Event>) {
    forall i | 0 <= i < |log| :: !Condemns(log[i])
  }

  lemma TryEndsWithReason(st: State, op: Op, a: Attempt)
    ensures var t := TryOnce(st, op, a);
            && StopsAtFatal(t.log) && (t.verdict.Again? ==> NoneCondemns(t.log))
            && (t.verdict.GaveUp? ==> GivesUp(a, t.verdict.failure))
            && (t.verdict.Done? ==> t.log != [] && t.log[|t.log| - 1].Ran? && t.log[|t.log| - 1].error == None)
  {
  }

  lemma StopsAtNothing()
    ensures StopsAtFatal([])
  {
  }

  lemma StopsLater(log: seq<Event>, more: seq<Event>)
    requires NoneCondemns(log) && StopsAtFatal(more)
    ensures StopsAtFatal(log + more)
  {
  }

  lemma {:induction false} CallEndsWithReason(st: State, op: Op, script: seq<Attempt>, k: nat, last: Failure)
    ensures EndsWithReason(DoFrom(st, op, script, k, last), script, k)
    decreases k
  {
    hide TryOnce, At, Rest, DoFrom, StopsAtFatal, NoneCondemns, GivesUp;
    CallUnfolds(st, op, script, k, last);
    StopsAtNothing();
    if k > 0 {
      var t := TryOnce(st, op, At(script, 0));
      TryEndsWithReason(st, op, At(script, 0));
      if t.verdict.Again? {
        var f := DoFrom(t.state, op, Rest(script, 1), k - 1, t.verdict.failure);
        CallEndsWithReason(t.state, op, Rest(script, 1), k - 1, t.verdict.failure);
        StopsLater(t.log, f.log);
        if f.tried > 0 {
          AtRest(script, f.tried);
        }
      }
    }
  }

  lemma {:induction false} ServiceIsBounded(st: State, ops: seq<Op>, script: seq<Attempt>, attempts: int)
    ensures var f := Served(st, ops, script, attempts);
            Runs(f.log) <= |ops| * Backoff.Most(attempts) && Dials(f.log) <= |ops| * Backoff.Most(attempts)
    decreases |ops|
  {
    if ops != [] {
      var n := |ops| - 1;
      var before := Served(st, ops[..n], script, attempts);
      ServiceIsBounded(st, ops[..n], script, attempts);
      CallIsBounded(before.state, ops[n], Rest(script, before.tried), Backoff.Most(attempts), NOT_YET);
      CountAll(before.log, Called(before.state, ops[n], Rest(script, before.tried), attempts).log);
      Powers.OneMore(n, Backoff.Most(attempts));
    }
  }

  /** All that is promised of one call. */
  lemma CallPromises(st: State, op: Op, script: seq<Attempt>, attempts: int)
    ensures var f, k := Called(st, op, script, attempts), Backoff.Most(attempts);
            && Runs(f.log) <= k && Dials(f.log) <= k && 1 <= f.tried <= k && EndsWithReason(f, script, k)
            && Leads(st.conn, f.log, f.state.conn) && f.state.remembered == st.remembered
            && (Restored(st) ==> Keeps(st, op, f.log, f.error, f.state))
  {
    hide Runs, Dials, EndsWithReason, Leads, Keeps, Restored, DoFrom;
    var k := Backoff.Most(attempts);
    CallIsBounded(st, op, script, k, NOT_YET);
    CallEndsWithReason(st, op, script, k, NOT_YET);
    CallLeads(st, op, script, k, NOT_YET);
    if Restored(st) {
      CallFinds(st, op, script, k, NOT_YET);
    }
  }
}
