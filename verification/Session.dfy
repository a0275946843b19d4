/** The self-healing session: one connection at a time, redialled when it cannot be trusted,
    with the mailbox that was open restored before anything else runs on it. Its methods
    compute the functions of `SessionRuns`. */
module Session {
  import opened Wrappers
  import Backoff
  import opened SessionRuns

  class Client {
    var open: Option<Opened>
    var closed: bool
    var poisoned: bool

    function State(): Conn
      reads this
    {
      Conn(open, closed, poisoned)
    }

    constructor ()
      ensures State() == FRESH
    {
      open, closed, poisoned := None, false, false;
    }

    /** The peer hangs up between commands. */
    method HangUp()
      modifies this
      ensures State() == old(State()).(closed := true)
    {
      closed := true;
    }

    method Run(op: Op, outcome: Outcome) returns (error: Option<Failure>)
      modifies this
      ensures (State(), error) == Exec(old(State()), op, outcome)
    {
      if poisoned {
        return Some(POISONED);
      }
      if closed {
        return Some(CLOSED);
      }
      error := outcome.error;
      match op {
        case Command =>
        case SelectOp(m) =>
          if error == None {
            open := Some(m);
          } else if outcome.refused {
            open := None;
          }
      }
      closed, poisoned := outcome.closes || outcome.poisons, outcome.poisons;
    }
  }

  class Session {
    var client: Client?
    var selected: string
    var readOnly: bool
    var script: seq<Attempt>

    constructor (script: seq<Attempt>)
      ensures Held() == State(None, None) && this.script == script
    {
      client, selected, readOnly, this.script := null, "", false, script;
    }

    function Remembered(): Option<Opened>
      reads this
    {
      if selected == "" then None else Some(Opened(selected, readOnly))
    }

    function Held(): State
      reads this, client
    {
      State(if client == null then None else Some(client.State()), Remembered())
    }

    method NextAttempt() returns (a: Attempt)
      modifies this`script
      ensures a == At(old(script), 0) && script == Rest(old(script), 1)
    {
      a := CANCELLED;
      if |script| > 0 {
        a, script := script[0], script[1..];
      }
    }

    method HangUp(a: Attempt) returns (ghost log: seq<Event>)
      modifies client
      ensures (Held(), log) == Dropping(old(Held()), a)
    {
      log := [];
      if a.dropped && client != null {
        client.HangUp();
        log := [Dropped(Some(client.State()))];
      }
    }

    /** A usable client, dialling and reopening if need be; none is kept that failed to reopen. */
    method EnsureConnected(a: Attempt) returns (error: Option<Failure>, ghost log: seq<Event>)
      modifies this`client
      ensures client == old(client) || client == null || fresh(client)
      ensures Connected(Held(), log, error) == Connect(old(Held()), a)
      ensures if error == None then client != null else client == null
      ensures client != null && client != old(client) && client.State().Carries() ==> client.open == Remembered()
    {
      error, log := None, [];
      if client != null && !client.poisoned {
        return;
      }
      client := null;
      if a.dial.Some? {
        return a.dial, [Dialled(a.dial, None)];
      }
      var dialled := new Client();
      log := [Dialled(None, Some(FRESH))];
      if selected != "" {
        var m := Opened(selected, readOnly);
        error := dialled.Run(SelectOp(m), a.reopen);
        log := log + [Reopened(m, a.reopen, error, if error == None then Some(dialled.State()) else None)];
        if error.Some? {
          return;
        }
      }
      client := dialled;
    }

    /** The command itself, on the connection as it stands; one that a fresh connection could
        cure is discarded. */
    method RunOn(op: Op, outcome: Outcome) returns (error: Option<Failure>, ghost event: Event)
      requires client != null
      modifies this`client, client
      ensures client == old(client) || client == null
      ensures (Held(), event) == Running(old(Held()), op, outcome) && event.error == error
    {
      ghost var found := client.State();
      error := client.Run(op, outcome);
      ghost var kept := Kept(client.State(), error);
      if error.Some? && Recoverable(error.value) {
        client := null;
      }
      event := Ran(found, Remembered(), op, outcome, error, kept);
    }

    /** One turn of the retry loop. */
    method TryIt(op: Op, a: Attempt) returns (verdict: Verdict, ghost log: seq<Event>)
      modifies this`client, if client == null then {} else {client}
      ensures client == old(client) || client == null || fresh(client)
      ensures Tried(Held(), log, verdict) == TryOnce(old(Held()), op, a)
    {
      hide Connect, Running, Dropping;
      if a.cancelled {
        return GaveUp(Failure(Retryable, Cancelled)), [];
      }
      ghost var dropped := HangUp(a);
      ghost var opening, event;
      var error;
      error, opening := EnsureConnected(a);
      if error.Some? {
        log := dropped + opening;
        if error.value.severity == FatalAccount {
          return GaveUp(error.value), log;
        }
      } else {
        error, event := RunOn(op, a.run);
        log := dropped + opening + [event];
        if error == None {
          return Done, log;
        }
        if !Recoverable(error.value) {
          return GaveUp(error.value), log;
        }
      }
      verdict := if a.goesOn then Again(error.value) else GaveUp(error.value);
    }

    /** Runs one command, on fresh connections as long as that can help.

        Whatever drops, deadlines and reconnections come in between: at most max(1, attempts)
        runs and as many dials; every run that reaches the server finds the remembered mailbox
        open; nothing follows an event that condemns the account; and it does not give up
        before the last attempt unless a failure is final or the caller's time is up. What
        breaks the promise for later calls is a SELECT refused on a connection that lives on,
        and only that. */
    method Do(op: Op, attempts: int) returns (error: Option<Failure>, ghost log: seq<Event>, ghost tried: nat)
      modifies this`client, this`script, if client == null then {} else {client}
      ensures client == old(client) || client == null || fresh(client)
      ensures Finish(Held(), log, error, tried) == Called(old(Held()), op, old(script), attempts)
      ensures script == Rest(old(script), tried)
      ensures Runs(log) <= Backoff.Most(attempts) && Dials(log) <= Backoff.Most(attempts)
      ensures 1 <= tried <= Backoff.Most(attempts)
      ensures EndsWithReason(Finish(Held(), log, error, tried), old(script), Backoff.Most(attempts))
      ensures Leads(old(Held()).conn, log, Held().conn) && Remembered() == old(Remembered())
      ensures old(Restored(Held())) ==> Keeps(old(Held()), op, log, error, Held())
    {
      hide Runs, Dials, EndsWithReason, Leads, Keeps, Restored;
      hide TryOnce, At, Rest, DoFrom, After, Called;
      CallPromises(Held(), op, script, attempts);
      var k := Backoff.Most(attempts);
      ghost var f, whole := Called(Held(), op, script, attempts), script;
      var last := NOT_YET;
      log, tried := [], 0;
      Begin(Held(), op, script, attempts);
      for attempt := 0 to k
        invariant client == old(client) || client == null || fresh(client)
        invariant tried == attempt && script == Rest(whole, attempt)
        invariant f == After(log, tried, DoFrom(Held(), op, script, k - attempt, last))
      {
        RestTwice(whole, attempt, 1);
        AttemptOnce(f, log, tried, Held(), op, script, k - attempt, last);
        var a := NextAttempt();
        var verdict, more := TryIt(op, a);
        log, tried := log + more, attempt + 1;
        match verdict
        case Done => return None, log, tried;
        case GaveUp(failure) => return Some(failure), log, tried;
        case Again(failure) => last := failure;
      }
      OutOfAttempts(f, log, tried, Held(), op, script, last);
      error := Some(last);
    }

    /** Opens a mailbox, and remembers it exactly on success. */
    method Select(m: Opened, attempts: int) returns (error: Option<Failure>, ghost log: seq<Event>, ghost tried: nat)
      modifies this, if client == null then {} else {client}
      ensures client == old(client) || client == null || fresh(client)
      ensures var f := Called(old(Held()), SelectOp(m), old(script), attempts);
              Finish(Held(), log, error, tried) == f.(state := Remember(f.state, SelectOp(m), f.error))
      ensures script == Rest(old(script), tried)
      ensures Remembered() == if error.Some? then old(Remembered()) else if m.name == "" then None else Some(m)
      ensures Runs(log) <= Backoff.Most(attempts) && Leads(old(Held()).conn, log, Held().conn)
      ensures old(Restored(Held())) ==> AllFound(log)
      ensures old(Restored(Held())) && error == None && m.name != "" ==> Restored(Held())
      ensures old(Restored(Held())) && error.Some? ==> (Restored(Held()) <==> !(EndsRefused(log) && Remembered().Some?))
    {
      hide Runs, EndsWithReason, Leads, AllFound, NoneRefuses, EndsRefused, Restored, Rest, DoFrom, Called;
      error, log, tried := Do(SelectOp(m), attempts);
      if error == None {
        selected, readOnly := m.name, m.readOnly;
      }
    }

    /** Any sequence of calls: as long as no SELECT is refused on a connection that lives on,
        every command that reaches the server finds the mailbox that was last opened. */
    method Serve(ops: seq<Op>, attempts: int) returns (error: Option<Failure>, ghost log: seq<Event>, ghost tried: nat)
      modifies this, if client == null then {} else {client}
      ensures client == old(client) || client == null || fresh(client)
      ensures Finish(Held(), log, error, tried) == Served(old(Held()), ops, old(script), attempts)
      ensures script == Rest(old(script), tried)
      ensures Runs(log) <= |ops| * Backoff.Most(attempts) && Dials(log) <= |ops| * Backoff.Most(attempts)
      ensures Leads(old(Held()).conn, log, Held().conn)
      ensures old(Restored(Held())) && AllNamed(ops) && NoneRefuses(log) ==> AllFound(log) && Restored(Held())
    {
      hide Runs, Dials, Leads, AllFound, NoneRefuses, Restored, Rest, DoFrom, Called, Served, AllNamed, Keeps,
           EndsWithReason;
      ghost var st, whole := Held(), script;
      error, log, tried := None, [], 0;
      ServeNothing(st, script, attempts);
      for i := 0 to |ops|
        invariant client == old(client) || client == null || fresh(client)
        invariant Finish(Held(), log, error, tried) == Served(st, ops[..i], whole, attempts)
        invariant script == Rest(whole, tried)
      {
        ServeOneMore(st, ops, i, whole, attempts);
        ghost var before, spent := log, tried;
        match ops[i] {
          case Command => error, log, tried := Do(Command, attempts);
          case SelectOp(m) => error, log, tried := Select(m, attempts);
        }
        RestTwice(whole, spent, tried);
        log, tried := before + log, spent + tried;
      }
      assert ops[..|ops|] == ops;
      ServiceIsBounded(st, ops, whole, attempts);
      ServiceLeads(st, ops, whole, attempts);
      if Restored(st) && AllNamed(ops) {
        ServiceFinds(st, ops, whole, attempts);
      }
    }
  }
}
