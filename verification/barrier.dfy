/**
 The barrier of pthread_barrier_wait.c: a height counted down under an MCS lock and back
 up by interlocked increments, a semaphore that lets the early threads through, and a
 proxy node to which the last thread in transfers the lock for the last thread out.

 One action per lock, semaphore or interlocked operation, for any height n >= 1 and any
 number of threads. The lock enters through what McsLock proves of it: one holder at a
 time, and a transferred place released by whoever releases the proxy node. `log` and
 `seat` are history and are never read.
 */
module Barrier {
  import opened Population
  import opened Runs

  type Thread = nat

  datatype Lock = Free | By(thread: Thread) | ByProxy

  datatype Pc =
    | Idle
    | Entering       // line 59
    | Counting       // line 62
    | Releasing      // line 82
    | Waiting        // line 92
    | Transferring   // line 69
    | Posting        // line 76
    | Leaving        // line 95
    | Closing        // lines 101-105: returns PTHREAD_BARRIER_SERIAL_THREAD

  /** What passing threads do: be counted in, be counted out. */
  datatype Event = Arrive(thread: Thread) | Depart(thread: Thread, serial: bool)

  datatype State = State(
    height: nat, current: int, sem: nat, lock: Lock, pcs: seq<Pc>,
    log: seq<Event>, seat: seq<nat>)

  datatype Action = Call | Acquire | Count | Release | Take | Transfer | Post | Leave | Close

  predicate Enabled(s: State, t: Thread, a: Action)
  {
    t < |s.pcs| == |s.seat| &&
    match a
    case Call => s.pcs[t] == Idle
    case Acquire => s.pcs[t] == Entering && s.lock == Free
    case Count => s.pcs[t] == Counting
    case Release => s.pcs[t] == Releasing
    case Take => s.pcs[t] == Waiting && s.sem > 0
    case Transfer => s.pcs[t] == Transferring
    case Post => s.pcs[t] == Posting
    case Leave => s.pcs[t] == Leaving
    case Close => s.pcs[t] == Closing
  }

  function Go(s: State, t: Thread, pc: Pc): State
    requires t < |s.pcs|
  {
    s.(pcs := s.pcs[t := pc])
  }

  function DoCount(s: State, t: Thread): State
    requires t < |s.pcs| == |s.seat|
  {
    Go(s.(current := s.current - 1, log := s.log + [Arrive(t)], seat := s.seat[t := |s.log|]),
       t, if s.current - 1 == 0 then Transferring else Releasing)
  }

  function DoLeave(s: State, t: Thread): State
    requires t < |s.pcs|
  {
    var last := s.current + 1 == s.height;
    Go(s.(current := s.current + 1, log := s.log + [Depart(t, last)]), t, if last then Closing else Idle)
  }

  function Apply(s: State, t: Thread, a: Action): State
    requires Enabled(s, t, a)
  {
    match a
    case Call => Go(s, t, Entering)
    case Acquire => Go(s.(lock := By(t)), t, Counting)
    case Count => DoCount(s, t)
    case Release => Go(s.(lock := Free), t, Waiting)
    case Take => Go(s.(sem := s.sem - 1), t, Leaving)
    case Transfer => Go(s.(lock := ByProxy), t, Posting)
    case Post => Go(if s.height > 1 then s.(sem := s.sem + s.height - 1) else s, t, Leaving)
    case Leave => DoLeave(s, t)
    case Close => Go(s.(lock := Free), t, Idle)
  }

  function Initial(height: nat, threads: nat): State
  {
    State(height, height, 0, Free, seq(threads, _ => Idle), [], seq(threads, _ => 0))
  }

  // ---------- the invariant ----------

  function Waits(pc: Pc): nat { if pc.Waiting? then 1 else 0 }
  function Posts(pc: Pc): nat { if pc.Posting? then 1 else 0 }
  function Leaves(pc: Pc): nat { if pc.Leaving? then 1 else 0 }
  function Closes(pc: Pc): nat { if pc.Closing? then 1 else 0 }

  predicate HoldsLock(pc: Pc)
  {
    pc.Counting? || pc.Releasing? || pc.Transferring?
  }

  /** Counted in and not yet counted out. */
  predicate Inside(pc: Pc)
  {
    pc.Releasing? || pc.Waiting? || pc.Transferring? || pc.Posting? || pc.Leaving?
  }

  function HolderPc(s: State): Pc
  {
    if s.lock.By? && s.lock.thread < |s.pcs| then s.pcs[s.lock.thread] else Idle
  }

  /** Threads counted in and out of the round in progress. */
  function Ins(s: State): int
  {
    if s.lock == ByProxy then s.height else s.height - s.current
  }

  function Outs(s: State): int
  {
    if s.lock == ByProxy then s.current else 0
  }

  ghost predicate CountsOk(s: State)
  {
    && Ins(s) - Outs(s) == Sum(s.pcs, Waits) + Sum(s.pcs, Posts) + Sum(s.pcs, Leaves)
                           + (if Inside(HolderPc(s)) then 1 else 0)
    && (s.lock != ByProxy ==>
          && Sum(s.pcs, Posts) == 0 && Sum(s.pcs, Leaves) == 0 && Sum(s.pcs, Closes) == 0
          && s.sem == 0
          && (if HolderPc(s).Transferring? then s.current == 0 else 0 < s.current <= s.height))
    && (s.lock == ByProxy ==>
          && 0 <= s.current <= s.height
          && Sum(s.pcs, Posts) <= 1
          && (Sum(s.pcs, Posts) == 1 ==> s.sem == 0 && Sum(s.pcs, Leaves) == 0 && s.current == 0)
          && (Sum(s.pcs, Posts) == 0 ==> s.sem == Sum(s.pcs, Waits))
          && Sum(s.pcs, Closes) == (if s.current == s.height then 1 else 0))
  }

  ghost predicate LockOk(s: State)
  {
    && (s.lock.By? ==> s.lock.thread < |s.pcs| && HoldsLock(s.pcs[s.lock.thread]))
    && (forall t: Thread :: t < |s.pcs| && HoldsLock(s.pcs[t]) ==> s.lock == By(t))
  }

  /** Where the i-th event falls in its round of n arrivals followed by n departures. */
  predicate InPhase(e: Event, i: nat, n: nat)
    requires n > 0
  {
    if i % (2 * n) < n then e.Arrive? else e.Depart? && (e.serial <==> i % (2 * n) == 2 * n - 1)
  }

  ghost predicate SeatOk(s: State, t: Thread)
    requires s.height > 0
  {
    t < |s.pcs| == |s.seat| && Inside(s.pcs[t]) ==>
      s.seat[t] < |s.log| && s.log[s.seat[t]] == Arrive(t) && s.seat[t] / (2 * s.height) == |s.log| / (2 * s.height)
  }

  ghost predicate LogOk(s: State)
  {
    && s.height > 0 && |s.seat| == |s.pcs|
    && |s.log| % (2 * s.height) == (if Outs(s) == s.height then 0 else Ins(s) + Outs(s))
    && (forall i :: 0 <= i < |s.log| ==> InPhase(s.log[i], i, s.height))
    && (forall t: Thread :: SeatOk(s, t))
  }

  ghost predicate Inv(s: State)
  {
    LockOk(s) && CountsOk(s) && LogOk(s)
  }

  lemma InitialInv(height: nat, threads: nat)
    requires height > 0
    ensures Inv(Initial(height, threads))
  {
    var pcs := Initial(height, threads).pcs;
    SumZero(pcs, Waits);
    SumZero(pcs, Posts);
    SumZero(pcs, Leaves);
    SumZero(pcs, Closes);
  }

  lemma Moved(pcs: seq<Pc>, t: Thread, pc: Pc)
    requires t < |pcs|
    ensures Sum(pcs[t := pc], Waits) + Waits(pcs[t]) == Sum(pcs, Waits) + Waits(pc)
    ensures Sum(pcs[t := pc], Posts) + Posts(pcs[t]) == Sum(pcs, Posts) + Posts(pc)
    ensures Sum(pcs[t := pc], Leaves) + Leaves(pcs[t]) == Sum(pcs, Leaves) + Leaves(pc)
    ensures Sum(pcs[t := pc], Closes) + Closes(pcs[t]) == Sum(pcs, Closes) + Closes(pc)
    ensures Sum(pcs, Waits) >= Waits(pcs[t]) && Sum(pcs, Leaves) >= Leaves(pcs[t])
    ensures Sum(pcs, Posts) >= Posts(pcs[t]) && Sum(pcs, Closes) >= Closes(pcs[t])
  {
    SumUpdate(pcs, t, pc, Waits);
    SumUpdate(pcs, t, pc, Posts);
    SumUpdate(pcs, t, pc, Leaves);
    SumUpdate(pcs, t, pc, Closes);
  }

  lemma ArriveKeepsCounts(s: State, t: Thread, a: Action)
    requires Inv(s) && Enabled(s, t, a) && (a == Call || a == Acquire)
    ensures LockOk(Apply(s, t, a)) && CountsOk(Apply(s, t, a))
  {
    Moved(s.pcs, t, Apply(s, t, a).pcs[t]);
  }

  lemma CountKeepsCounts(s: State, t: Thread, a: Action)
    requires Inv(s) && Enabled(s, t, a) && a == Count
    ensures LockOk(Apply(s, t, a)) && CountsOk(Apply(s, t, a))
  {
    Moved(s.pcs, t, Apply(s, t, a).pcs[t]);
  }

  lemma PassKeepsCounts(s: State, t: Thread, a: Action)
    requires Inv(s) && Enabled(s, t, a) && (a == Release || a == Take)
    ensures LockOk(Apply(s, t, a)) && CountsOk(Apply(s, t, a))
  {
    Moved(s.pcs, t, Apply(s, t, a).pcs[t]);
  }

  lemma TransferKeepsCounts(s: State, t: Thread, a: Action)
    requires Inv(s) && Enabled(s, t, a) && (a == Transfer || a == Post)
    ensures LockOk(Apply(s, t, a)) && CountsOk(Apply(s, t, a))
  {
    Moved(s.pcs, t, Apply(s, t, a).pcs[t]);
  }

  lemma DepartKeepsCounts(s: State, t: Thread, a: Action)
    requires Inv(s) && Enabled(s, t, a) && (a == Leave || a == Close)
    ensures LockOk(Apply(s, t, a)) && CountsOk(Apply(s, t, a))
  {
    Moved(s.pcs, t, Apply(s, t, a).pcs[t]);
  }

  lemma StepKeepsCounts(s: State, t: Thread, a: Action)
    requires Inv(s) && Enabled(s, t, a)
    ensures LockOk(Apply(s, t, a)) && CountsOk(Apply(s, t, a))
  {
    match a
    case Call | Acquire => ArriveKeepsCounts(s, t, a);
    case Count => CountKeepsCounts(s, t, a);
    case Release | Take => PassKeepsCounts(s, t, a);
    case Transfer | Post => TransferKeepsCounts(s, t, a);
    case Leave | Close => DepartKeepsCounts(s, t, a);
  }

  /** One more event: the remainder advances, or wraps and the quotient advances. */
  lemma NextIndex(x: nat, m: nat)
    requires m > 0
    ensures x % m + 1 < m ==> (x + 1) % m == x % m + 1 && (x + 1) / m == x / m
    ensures x % m + 1 == m ==> (x + 1) % m == 0
  {
    var q, r := x / m, x % m;
    assert x == m * q + r;
    if r + 1 < m {
      Remainder(q, r + 1, m);
      assert x + 1 == m * q + (r + 1);
    } else {
      Remainder(q + 1, 0, m);
      assert m * (q + 1) == m * q + m == x + 1;
    }
  }

  lemma Remainder(q: nat, r: nat, m: nat)
    requires r < m
    ensures (m * q + r) % m == r && (m * q + r) / m == q
  {
    var x := m * q + r;
    var d := q - x / m;
    assert x == m * (x / m) + x % m;
    assert m * d == x % m - r;
    assert d > 0 ==> m * d >= m;
    assert d < 0 ==> m * d + m <= 0;
  }

  /** Someone inside shows in the head counts. */
  lemma InsideCounts(s: State, t: Thread)
    requires LockOk(s) && t < |s.pcs| && Inside(s.pcs[t])
    ensures Sum(s.pcs, Waits) + Sum(s.pcs, Posts) + Sum(s.pcs, Leaves) + (if Inside(HolderPc(s)) then 1 else 0) > 0
  {
    SumAtLeast(s.pcs, t, Waits);
    SumAtLeast(s.pcs, t, Posts);
    SumAtLeast(s.pcs, t, Leaves);
  }

  lemma CountKeepsLog(s: State, t: Thread)
    requires Inv(s) && Enabled(s, t, Count)
    ensures LogOk(DoCount(s, t))
  {
    NextIndex(|s.log|, 2 * s.height);
    forall u: Thread ensures SeatOk(DoCount(s, t), u) {
      assert SeatOk(s, u);
    }
  }

  lemma LeaveKeepsLog(s: State, t: Thread)
    requires Inv(s) && Enabled(s, t, Leave) && CountsOk(DoLeave(s, t)) && LockOk(DoLeave(s, t))
    ensures LogOk(DoLeave(s, t))
  {
    var s' := DoLeave(s, t);
    SumAtLeast(s.pcs, t, Leaves);
    NextIndex(|s.log|, 2 * s.height);
    forall u: Thread ensures SeatOk(s', u) {
      assert SeatOk(s, u);
      if u < |s.pcs| && Inside(s'.pcs[u]) {
        InsideCounts(s', u);
      }
    }
  }

  lemma StepKeepsLog(s: State, t: Thread, a: Action)
    requires Inv(s) && Enabled(s, t, a) && a != Count && a != Leave
    ensures LogOk(Apply(s, t, a))
  {
    var s' := Apply(s, t, a);
    Moved(s.pcs, t, s'.pcs[t]);
    forall u: Thread ensures SeatOk(s', u) {
      assert SeatOk(s, u) && SeatOk(s, t);
    }
  }

  lemma StepKeepsInv(s: State, t: Thread, a: Action)
    requires Inv(s) && Enabled(s, t, a)
    ensures Inv(Apply(s, t, a))
  {
    StepKeepsCounts(s, t, a);
    if a == Count {
      CountKeepsLog(s, t);
    } else if a == Leave {
      LeaveKeepsLog(s, t);
    } else {
      StepKeepsLog(s, t, a);
    }
  }

  // ---------- runs ----------

  ghost predicate Next(s: State, s': State)
  {
    exists t, a :: Enabled(s, t, a) && s' == Apply(s, t, a)
  }

  ghost predicate Run(tr: seq<State>, height: nat, threads: nat)
  {
    IsRun(tr, Next) && height > 0 && tr[0] == Initial(height, threads)
  }

  ghost predicate Reachable(s: State)
  {
    exists tr: seq<State>, height: nat, threads: nat :: Run(tr, height, threads) && s == tr[|tr| - 1]
  }

  lemma NextKeepsInv(s: State, s': State)
    requires Inv(s) && Next(s, s')
    ensures Inv(s')
  {
    var t, a :| Enabled(s, t, a) && s' == Apply(s, t, a);
    StepKeepsInv(s, t, a);
  }

  lemma RunsKeepInv(tr: seq<State>, height: nat, threads: nat)
    requires Run(tr, height, threads)
    ensures Inv(tr[|tr| - 1])
  {
    InitialInv(height, threads);
    forall s: State, s': State | Inv(s) && Next(s, s') ensures Inv(s') {
      NextKeepsInv(s, s');
    }
    RunKeeps(tr, Next, Inv);
  }

  lemma ReachableInv(s: State)
    requires Reachable(s)
    ensures Inv(s)
  {
    var tr: seq<State>, height: nat, threads: nat :| Run(tr, height, threads) && s == tr[|tr| - 1];
    RunsKeepInv(tr, height, threads);
  }

  // ---------- what the barrier is for ----------

  /**
   Rounds. The history of every run is a sequence of rounds, each of exactly n arrivals
   followed by exactly n departures: nobody leaves round k before all n have arrived,
   nobody is counted into round k + 1 until all n have left round k, and exactly one
   thread a round, the last to leave, is told that it is the serial one.
   */
  lemma HistoryIsRounds(s: State, i: nat)
    requires Reachable(s) && i < |s.log|
    ensures s.height > 0
    ensures i % (2 * s.height) < s.height <==> s.log[i].Arrive?
    ensures i % (2 * s.height) == 2 * s.height - 1 <==> s.log[i].Depart? && s.log[i].serial
  {
    ReachableInv(s);
    assert InPhase(s.log[i], i, s.height);
  }

  /** Whoever is about to be counted out of a round was counted into that same round. */
  lemma LeaversArrived(s: State, t: Thread) returns (j: nat)
    requires Reachable(s) && Enabled(s, t, Leave)
    ensures s.height > 0 && j < |s.log| && s.log[j] == Arrive(t)
    ensures j / (2 * s.height) == |s.log| / (2 * s.height)
  {
    ReachableInv(s);
    assert SeatOk(s, t);
    j := s.seat[t];
  }

  /** Between rounds the height and the semaphore are back at their initial values. */
  lemma RoundRestoresBarrier(s: State)
    requires Reachable(s) && s.height > 0 && |s.log| % (2 * s.height) == 0
    ensures s.current == s.height && s.sem == 0
    ensures forall t: Thread :: t < |s.pcs| ==> !Inside(s.pcs[t])
  {
    ReachableInv(s);
    assert 0 <= Outs(s) <= Ins(s) <= s.height;
    forall t: Thread | t < |s.pcs| ensures !Inside(s.pcs[t]) {
      if Inside(s.pcs[t]) {
        InsideCounts(s, t);
      }
    }
  }

  /** The plain decrement of the height never runs beside the interlocked increments. */
  lemma DecrementIsExclusive(s: State, t: Thread, u: Thread)
    requires Reachable(s) && t < |s.pcs| && u < |s.pcs| && s.pcs[t] == Counting
    ensures s.pcs[u] != Leaving && s.pcs[u] != Posting && s.pcs[u] != Closing
    ensures s.pcs[u] == Counting ==> u == t
  {
    ReachableInv(s);
    SumAtLeast(s.pcs, u, Leaves);
    SumAtLeast(s.pcs, u, Posts);
    SumAtLeast(s.pcs, u, Closes);
  }

  /** The proxy node is released only by the last thread out, while the lock is the proxy's. */
  lemma ProxyIsReleasedOnce(s: State, t: Thread, u: Thread)
    requires Reachable(s) && t < |s.pcs| && u < |s.pcs| && s.pcs[t] == Closing
    ensures s.lock == ByProxy && s.current == s.height
    ensures s.pcs[u] == Closing ==> u == t
    ensures !Inside(s.pcs[u])
  {
    ReachableInv(s);
    SumAtLeast(s.pcs, t, Closes);
    if t < u {
      SumAtLeastTwo(s.pcs, t, u, Closes);
    } else if u < t {
      SumAtLeastTwo(s.pcs, u, t, Closes);
    }
    if Inside(s.pcs[u]) {
      InsideCounts(s, u);
    }
  }

  function Proceed(pc: Pc): Action
  {
    match pc
    case Idle => Call
    case Entering => Acquire
    case Counting => Count
    case Releasing => Release
    case Waiting => Take
    case Transferring => Transfer
    case Posting => Post
    case Leaving => Leave
    case Closing => Close
  }

  lemma Quiet(s: State, t: Thread)
    requires LogOk(s) && t < |s.pcs|
    requires forall u, a :: Enabled(s, u, a) ==> a == Call
    ensures s.pcs[t] == Idle || (s.pcs[t] == Waiting && s.sem == 0) || (s.pcs[t] == Entering && s.lock != Free)
  {
    assert Enabled(s, t, Proceed(s.pcs[t])) ==> Proceed(s.pcs[t]) == Call;
  }

  /**
   Progress. If no thread can take a step then the lock is free and fewer than n threads,
   all of them waiting for the rest of their round, are inside.
   */
  lemma StuckOnlyBelowHeight(s: State, t: Thread)
    requires Reachable(s) && t < |s.pcs|
    requires forall u, a :: Enabled(s, u, a) ==> a == Call
    ensures s.lock == Free && Sum(s.pcs, Waits) == s.height - s.current < s.height
    ensures s.pcs[t] == Idle || s.pcs[t] == Waiting
  {
    ReachableInv(s);
    if s.lock.By? {
      Quiet(s, s.lock.thread);
    } else if s.lock == ByProxy {
      if Sum(s.pcs, Closes) > 0 {
        var u := SumWitness(s.pcs, Closes);
        Quiet(s, u);
      } else if Sum(s.pcs, Posts) > 0 {
        var u := SumWitness(s.pcs, Posts);
        Quiet(s, u);
      } else if Sum(s.pcs, Leaves) > 0 {
        var u := SumWitness(s.pcs, Leaves);
        Quiet(s, u);
      } else {
        var u := SumWitness(s.pcs, Waits);
        Quiet(s, u);
      }
    }
    Quiet(s, t);
  }
}
