/** One run per account: the advisory lock on its own database session, and the heartbeat on
    that session that ends the run soon after the lock is lost. Times are nanoseconds. */
module Lease {
  import opened Wrappers

  type Time = nat
  type Account = nat
  type Backend = nat

  // ---------------------------------------------------------------- the lock

  /** Advisory locks as the database keeps them, and each caller's handle. */
  class Locks {
    var holder: map<Account, Backend>

    constructor ()
      ensures holder == map[]
    {
      holder := map[];
    }

    /** None when another session holds the account, which is not an error. */
    method TryLockAccount(account: Account, backend: Backend) returns (lock: Option<AccountLock>)
      modifies this
      ensures lock.Some? <==> account !in old(holder) || old(holder)[account] == backend
      ensures lock.Some? ==> && fresh(lock.value) && !lock.value.released && lock.value.account == account
                             && lock.value.backend == backend
      ensures holder == if lock.Some? then old(holder)[account := backend] else old(holder)
    {
      if account in holder && holder[account] != backend {
        return None;
      }
      holder := holder[account := backend];
      var handle := new AccountLock(account, backend);
      lock := Some(handle);
    }

    /** The session ends; everything it held is free at once. */
    method Die(backend: Backend)
      modifies this
      ensures holder == map a | a in old(holder) && old(holder)[a] != backend :: old(holder)[a]
    {
      holder := map a | a in holder && holder[a] != backend :: holder[a];
    }
  }

  class AccountLock {
    const account: Account
    const backend: Backend
    var released: bool

    constructor (account: Account, backend: Backend)
      ensures this.account == account && this.backend == backend && !released
    {
      this.account, this.backend, released := account, backend, false;
    }

    /** Unlocks once; a second call touches nothing, even if someone else holds the account by
        then. */
    method Release(locks: Locks)
      modifies this, locks
      ensures released
      ensures locks.holder == if !old(released) && account in old(locks.holder) && old(locks.holder)[account] == backend
                              then old(locks.holder) - {account} else old(locks.holder)
    {
      if released {
        return;
      }
      released := true;
      if account in locks.holder && locks.holder[account] == backend {
        locks.holder := locks.holder - {account};
      }
    }
  }

  datatype Event =
    | Acquire(account: Account, backend: Backend)
    | Free(account: Account, backend: Backend)
    | Die(backend: Backend)

  ghost predicate Follows(h: map<Account, Backend>, e: Event, h': map<Account, Backend>) {
    match e
    case Acquire(a, b) => (a !in h || h[a] == b) && h' == h[a := b]
    case Free(a, b) => h' == if a in h && h[a] == b then h - {a} else h
    case Die(b) => h' == map a | a in h && h[a] != b :: h[a]
  }

  ghost predicate History(hs: seq<map<Account, Backend>>, es: seq<Event>) {
    |hs| == |es| + 1 && forall i | 0 <= i < |es| :: Follows(hs[i], es[i], hs[i + 1])
  }

  predicate Ends(e: Event, a: Account, b: Backend) {
    e == Free(a, b) || e == Die(b)
  }

  /** Two sessions cannot hold one account: between their acquisitions the first one released
      the lock or died. */
  lemma {:induction false} LostBeforeTaken(hs: seq<map<Account, Backend>>, es: seq<Event>, i: nat, j: nat)
    returns (k: nat)
    requires History(hs, es) && i < j < |es| && es[i].Acquire? && es[j].Acquire?
    requires es[i].account == es[j].account && es[i].backend != es[j].backend
    ensures i < k < j && Ends(es[k], es[i].account, es[i].backend)
  {
    var a, b := es[i].account, es[i].backend;
    assert Follows(hs[i], es[i], hs[i + 1]);
    k := i + 1;
    while k < j && !Ends(es[k], a, b)
      invariant i < k <= j && a in hs[k] && hs[k][a] == b
    {
      assert Follows(hs[k], es[k], hs[k + 1]);
      k := k + 1;
    }
    assert Follows(hs[j], es[j], hs[j + 1]);
  }

  // ---------------------------------------------------------------- the heartbeat

  /** What the outside decides: how long each beat takes, which fail with the session alive,
      and when the session dies. */
  datatype Beats = Beats(interval: Time, start: Time, loss: Time, duration: nat -> Time, flaky: nat -> bool) {

    /** A beat is given up after one interval. */
    ghost predicate Ok() {
      interval > 0 && forall n :: duration(n) <= interval
    }

    function TickAfter(t: Time): Time
      requires interval > 0 && t >= start
    {
      start + ((t - start) / interval + 1) * interval
    }

    /** A tick that comes during a beat is kept, so the next beat starts at the later of the
        two; the first waits for the first tick. */
    function BeatAt(n: nat): (t: Time)
      requires interval > 0
      ensures t >= start
    {
      if n == 0 then start + interval
      else
        var s := BeatAt(n - 1);
        TickIsAfter(s);
        if s + duration(n - 1) > TickAfter(s) then s + duration(n - 1) else TickAfter(s)
    }

    lemma TickIsAfter(t: Time)
      requires interval > 0 && t >= start
      ensures t < TickAfter(t) <= t + interval
    {
      var x := t - start;
      var q := x / interval;
      assert x == q * interval + x % interval;
      assert (q + 1) * interval == q * interval + interval;
    }

    /** Every beat begun after the session's death fails. */
    predicate Fails(n: nat)
      requires interval > 0
    {
      BeatAt(n) >= loss || flaky(n)
    }

    function EndOf(n: nat): Time
      requires interval > 0
    {
      BeatAt(n) + duration(n)
    }

    predicate ThirdInARow(n: nat)
      requires interval > 0
    {
      n >= 2 && Fails(n - 2) && Fails(n - 1) && Fails(n)
    }

    /** This beat or one of the two before it went well, or there are not that many. */
    predicate NotThird(k: nat)
      requires interval > 0
    {
      || k < 2 || (BeatAt(k) < loss && !flaky(k)) || (BeatAt(k - 1) < loss && !flaky(k - 1))
      || (BeatAt(k - 2) < loss && !flaky(k - 2))
    }

    /** Beats follow each other within one interval, and time passes. */
    lemma NextBeat(n: nat)
      requires Ok()
      ensures BeatAt(n) < BeatAt(n + 1) <= BeatAt(n) + interval
    {
      TickIsAfter(BeatAt(n));
    }

    /** The first beat that finds the session dead comes within one interval of the death,
        or of the first tick. */
    lemma FirstDeadBeat() returns (n: nat)
      requires Ok()
      ensures BeatAt(n) >= loss
      ensures BeatAt(n) <= Later(loss, start) + interval
      ensures n > 0 ==> BeatAt(n - 1) < loss
    {
      n := 0;
      hide Beats.TickAfter;
      while BeatAt(n) < loss
        invariant BeatAt(n) <= Later(loss, start) + interval
        invariant n > 0 ==> BeatAt(n - 1) < loss
        decreases loss - BeatAt(n)
      {
        NextBeat(n);
        n := n + 1;
      }
    }

    lemma {:induction false} LaterBeatsFail(m: nat, n: nat)
      requires Ok() && m <= n && BeatAt(m) >= loss
      ensures BeatAt(n) >= loss && Fails(n)
      decreases n
    {
      if m < n {
        LaterBeatsFail(m, n - 1);
        NextBeat(n - 1);
      }
    }

    lemma {:induction false} BeatsAscend(m: nat, n: nat)
      requires Ok() && m <= n
      ensures BeatAt(m) <= BeatAt(n)
      decreases n
    {
      if m < n {
        BeatsAscend(m, n - 1);
        NextBeat(n - 1);
      }
    }

    /** The third failure in a row ends no later than four intervals after the loss, wherever
        the loss falls between ticks and within a beat. */
    lemma CancelledInTime(n: nat)
      requires Ok() && Running(n) && ThirdInARow(n)
      ensures EndOf(n) <= Later(loss, start) + 4 * interval
    {
      hide Beats.BeatAt, Beats.TickAfter;
      var d := FirstDeadBeat();
      LaterBeatsFail(d, d);
      LaterBeatsFail(d, d + 1);
      LaterBeatsFail(d, d + 2);
      assert ThirdInARow(d + 2);
      NextBeat(d);
      NextBeat(d + 1);
      BeatsAscend(n, d + 2);
    }

    /** The last failures beats before beat n failed, and the one before those did not. */
    ghost predicate Streak(n: nat, failures: nat)
      requires interval > 0
    {
      && failures <= n && (forall k: nat | n - failures <= k < n :: Fails(k))
      && (failures < n ==> !Fails(n - failures - 1))
    }

    /** No third failure in a row so far. */
    ghost predicate Running(n: nat)
      requires interval > 0
    {
      forall m: nat | m < n :: !ThirdInARow(m)
    }

    lemma StreakGoesOn(n: nat, failures: nat)
      requires interval > 0 && Streak(n, failures) && failures <= 2 && Running(n)
      ensures Streak(n + 1, if Fails(n) then failures + 1 else 0)
      ensures ThirdInARow(n) <==> Fails(n) && failures == 2
      ensures !ThirdInARow(n) ==> Running(n + 1)
    {
      hide Beats.Fails;
    }

    lemma RunsOut(dead: nat, n: nat)
      requires Ok() && BeatAt(dead) >= loss && Running(n)
      ensures n <= dead + 2
    {
      LaterBeatsFail(dead, dead);
      LaterBeatsFail(dead, dead + 1);
      LaterBeatsFail(dead, dead + 2);
      assert ThirdInARow(dead + 2);
    }

    lemma NotBeforeLoss(n: nat)
      requires Ok() && ThirdInARow(n) && !flaky(n - 2)
      ensures BeatAt(n) >= loss + 2
    {
      NextBeat(n - 2);
      NextBeat(n - 1);
      hide Beats.BeatAt, Beats.TickAfter;
    }
  }

  function Later(a: Time, b: Time): Time {
    if a < b then b else a
  }

  /** The heartbeat goroutine: three failures in a row cancel the run, when the third has ended,
      and nothing else does. */
  method Heartbeat(b: Beats) returns (cancelledAt: Time, ghost third: nat)
    requires b.Ok()
    ensures third >= 2 && cancelledAt == b.BeatAt(third) + b.duration(third)
    ensures forall k: nat | third - 2 <= k <= third :: b.BeatAt(k) >= b.loss || b.flaky(k)
    ensures forall k: nat | k < third :: b.NotThird(k)
    ensures cancelledAt <= Later(b.loss, b.start) + 4 * b.interval
    ensures (forall n :: !b.flaky(n)) ==> cancelledAt >= b.loss + 2
  {
    var failures, n, now := 0, 0, b.start + b.interval;
    third := 0;
    ghost var dead := b.FirstDeadBeat();
    assert now == b.BeatAt(n) && b.Streak(0, 0) && b.Running(0);
    hide Beats.BeatAt, Beats.TickAfter, Beats.Streak, Beats.Running, Beats.ThirdInARow, Beats.Fails, Beats.NotThird,
         Later;
    while true
      invariant now == b.BeatAt(n) && failures <= 2 && b.Streak(n, failures) && b.Running(n)
      invariant n <= dead + 2
      decreases dead + 2 - n
    {
      var end;
      end, failures := Beat(b, n, now, failures);
      if failures >= 3 {
        Cancelled(b, n);
        return end, n;
      }
      b.RunsOut(dead, n + 1);
      now := NextStart(b, n, now, end);
      n := n + 1;
    }
  }

  /** One beat, and the run of failures after it. */
  method Beat(b: Beats, n: nat, now: Time, failures: nat) returns (end: Time, failures': nat)
    requires b.Ok() && now == b.BeatAt(n) && failures <= 2 && b.Streak(n, failures) && b.Running(n)
    ensures end == b.EndOf(n) && failures' <= 3 && b.Streak(n + 1, failures')
    ensures if failures' == 3 then b.ThirdInARow(n) else b.Running(n + 1)
  {
    b.StreakGoesOn(n, failures);
    hide Beats.BeatAt, Beats.TickAfter, Beats.Streak, Beats.Running, Beats.ThirdInARow;
    end := now + b.duration(n);
    failures' := if now >= b.loss || b.flaky(n) then failures + 1 else 0;
  }

  method NextStart(b: Beats, ghost n: nat, now: Time, end: Time) returns (next: Time)
    requires b.Ok() && now == b.BeatAt(n) && end == b.EndOf(n)
    ensures next == b.BeatAt(n + 1)
  {
    var tick := b.TickAfter(now);
    next := if end > tick then end else tick;
  }

  lemma Cancelled(b: Beats, n: nat)
    requires b.Ok() && b.Running(n) && b.ThirdInARow(n)
    ensures b.EndOf(n) <= Later(b.loss, b.start) + 4 * b.interval
    ensures (forall n :: !b.flaky(n)) ==> b.EndOf(n) >= b.loss + 2
    ensures n >= 2 && b.EndOf(n) == b.BeatAt(n) + b.duration(n)
    ensures forall k: nat | n - 2 <= k <= n :: b.BeatAt(k) >= b.loss || b.flaky(k)
    ensures forall k: nat | k < n :: b.NotThird(k)
  {
    b.CancelledInTime(n);
    forall k: nat | n - 2 <= k <= n
      ensures b.BeatAt(k) >= b.loss || b.flaky(k)
    {
      assert b.Fails(k);
    }
    forall k: nat | k < n
      ensures b.NotThird(k)
    {
      assert !b.ThirdInARow(k);
    }
    if !b.flaky(n - 2) {
      b.NotBeforeLoss(n);
    }
  }

  /** The bound is reached: a session that dies as the heartbeat starts, and beats that hang
      until they are given up. */
  lemma BoundIsTight(interval: Time) returns (b: Beats)
    requires interval > 0
    ensures b.Ok() && b.interval == interval && b.Running(2) && b.ThirdInARow(2)
    ensures b.EndOf(2) == Later(b.loss, b.start) + 4 * interval
  {
    b := Beats(interval, 0, 0, n => interval, n => false);
    Multiples(interval);
    assert b.BeatAt(1) == 2 * interval;
    assert b.BeatAt(2) == 3 * interval;
  }

  lemma Multiples(interval: Time)
    requires interval > 0
    ensures (interval / interval + 1) * interval == 2 * interval
    ensures ((2 * interval) / interval + 1) * interval == 3 * interval
  {
    assert (2 * interval) / interval == 2 by {
      var q := (2 * interval) / interval;
      assert 2 * interval == q * interval + (2 * interval) % interval;
      assert (q - 2) * interval == -((2 * interval) % interval);
    }
  }

  /** Two runs of one account overlap by at most four intervals and the time a cancelled run
      takes to wind down: when the second takes the lock the first has released it, and is
      over, or has lost it with its session. */
  lemma OverlapIsBounded(hs: seq<map<Account, Backend>>, es: seq<Event>, times: seq<Time>, i: nat, j: nat,
                         b: Beats, third: nat, end: Time, windDown: Time)
    requires History(hs, es) && |times| == |es| && i < j < |es| && es[i].Acquire? && es[j].Acquire?
    requires es[i].account == es[j].account && es[i].backend != es[j].backend
    requires forall k, l | 0 <= k <= l < |times| :: times[k] <= times[l]
    requires b.Ok() && b.Running(third) && b.ThirdInARow(third) && end <= b.EndOf(third) + windDown
    requires forall k | i < k < j && es[k] == Die(es[i].backend) :: b.loss <= times[k]
    requires forall k | i < k < j && es[k] == Free(es[i].account, es[i].backend) :: end <= times[k]
    ensures end <= Later(times[j], b.start) + 4 * b.interval + windDown
  {
    var k := LostBeforeTaken(hs, es, i, j);
    if es[k] == Die(es[i].backend) {
      b.CancelledInTime(third);
    }
    hide History, Beats.BeatAt, Beats.Running, Beats.ThirdInARow;
  }
}
