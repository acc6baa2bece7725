/**
 The non-robust mutex of pthread_mutex_lock.c, pthread_mutex_timedlock.c,
 pthread_mutex_trylock.c and pthread_mutex_unlock.c: the word lock_idx (0 free, 1 taken,
 -1 taken and perhaps waited for), an auto-reset event, and for the kinds that track it
 an owner and a recursion count.

 One action per interlocked operation, event wait and event set, for one mutex of any
 kind and any number of threads. `holder` and `held` are history: the thread whose
 exchange won the word, and for every thread the number of lock calls that succeeded less
 the number of unlock calls that succeeded. No effect depends on them; the one guard that
 does is CallUnlock's for the normal kind, which keeps no owner and leaves it to the
 caller to unlock only what it holds.
 */
module Mutex {
  import opened Population
  import opened Runs

  type Thread = nat

  datatype Kind = Normal | Recursive | ErrorCheck

  datatype Ref = Nobody | By(thread: Thread)

  datatype Pc =
    | Idle
    | Arriving(timed: bool)        // pthread_mutex_lock.c:85 and 105
    | CheckingOwner(timed: bool)   // 115
    | Contending(timed: bool)      // 89 and 128
    | Parked(timed: bool)          // 93 and 132
    | Claiming                     // 110-111 and 141-142
    | Trying                       // pthread_mutex_trylock.c:77
    | TryingOwner                  // 90
    | Unlocking                    // pthread_mutex_unlock.c:74 and 92
    | Exchanging                   // 99
    | Signalling                   // 83 and 103

  datatype State = State(
    kind: Kind, word: int, event: bool, owner: Ref, count: int,
    pcs: seq<Pc>,
    holder: Ref, held: seq<nat>)

  datatype Action =
    | CallLock(timed: bool) | Arrive | CheckOwner | Contend | Wake | TimeOut | Claim
    | CallTry | Try | TryOwner
    | CallUnlock | Unlock | Exchange | Signal

  predicate Enabled(s: State, t: Thread, a: Action)
  {
    t < |s.pcs| == |s.held| &&
    match a
    case CallLock(_) => s.pcs[t] == Idle
    case Arrive => s.pcs[t].Arriving?
    case CheckOwner => s.pcs[t].CheckingOwner?
    case Contend => s.pcs[t].Contending?
    case Wake => s.pcs[t].Parked? && s.event
    case TimeOut => s.pcs[t] == Parked(true)
    case Claim => s.pcs[t] == Claiming
    case CallTry => s.pcs[t] == Idle
    case Try => s.pcs[t] == Trying
    case TryOwner => s.pcs[t] == TryingOwner
    // unlocking a normal mutex is for its holder only; the other kinds check their caller
    case CallUnlock => s.pcs[t] == Idle && (s.kind == Normal ==> s.held[t] > 0)
    case Unlock => s.pcs[t] == Unlocking
    case Exchange => s.pcs[t] == Exchanging
    case Signal => s.pcs[t] == Signalling
  }

  function Go(s: State, t: Thread, pc: Pc): State
    requires t < |s.pcs|
  {
    s.(pcs := s.pcs[t := pc])
  }

  /** Thread `t` has just changed the word from 0. */
  function Won(s: State, t: Thread): State
    requires t < |s.pcs| == |s.held|
  {
    if s.kind == Normal
    then Go(s.(holder := By(t), held := s.held[t := s.held[t] + 1]), t, Idle)
    else Go(s.(holder := By(t)), t, Claiming)
  }

  /** The owner of a recursive mutex locks it once more. */
  function Deeper(s: State, t: Thread): State
    requires t < |s.pcs| == |s.held|
  {
    Go(s.(count := s.count + 1, held := s.held[t := s.held[t] + 1]), t, Idle)
  }

  function DoArrive(s: State, t: Thread): State
    requires t < |s.pcs| == |s.held| && s.pcs[t].Arriving?
  {
    var timed := s.pcs[t].timed;
    if s.kind == Normal then
      if s.word == 0 then Won(s.(word := 1), t) else Go(s.(word := 1), t, Contending(timed))
    else
      if s.word == 0 then Won(s.(word := 1), t) else Go(s, t, CheckingOwner(timed))
  }

  function DoCheckOwner(s: State, t: Thread): State
    requires t < |s.pcs| == |s.held| && s.pcs[t].CheckingOwner?
  {
    if s.owner != By(t) then Go(s, t, Contending(s.pcs[t].timed))
    else if s.kind == Recursive then Deeper(s, t)
    else Go(s, t, Idle)
  }

  function DoContend(s: State, t: Thread): State
    requires t < |s.pcs| == |s.held| && s.pcs[t].Contending?
  {
    if s.word == 0 then Won(s.(word := -1), t) else Go(s.(word := -1), t, Parked(s.pcs[t].timed))
  }

  function DoTry(s: State, t: Thread): State
    requires t < |s.pcs| == |s.held| && s.pcs[t] == Trying
  {
    if s.word == 0 then Won(s.(word := 1), t)
    else Go(s, t, if s.kind == Recursive then TryingOwner else Idle)
  }

  function DoTryOwner(s: State, t: Thread): State
    requires t < |s.pcs| == |s.held| && s.pcs[t] == TryingOwner
  {
    if s.owner == By(t) then Deeper(s, t) else Go(s, t, Idle)
  }

  /** The exchange that frees the word, and the choice whether to set the event. */
  function Freed(s: State, t: Thread): State
    requires t < |s.pcs|
  {
    Go(s.(word := 0, holder := Nobody), t, if s.word < 0 then Signalling else Idle)
  }

  function DoUnlock(s: State, t: Thread): State
    requires t < |s.pcs| == |s.held| && s.pcs[t] == Unlocking
  {
    var less := if s.held[t] > 0 then s.held[t] - 1 else 0;
    if s.kind == Normal then Freed(s.(held := s.held[t := less]), t)
    else if s.owner != By(t) then Go(s, t, Idle)
    else
      var s' := s.(held := s.held[t := less], count := if s.kind == Recursive then s.count - 1 else s.count);
      if s.kind == Recursive && s'.count != 0 then Go(s', t, Idle)
      else Go(s'.(owner := Nobody), t, Exchanging)
  }

  function Apply(s: State, t: Thread, a: Action): State
    requires Enabled(s, t, a)
  {
    match a
    case CallLock(timed) => Go(s, t, Arriving(timed))
    case Arrive => DoArrive(s, t)
    case CheckOwner => DoCheckOwner(s, t)
    case Contend => DoContend(s, t)
    case Wake => Go(s.(event := false), t, Contending(s.pcs[t].timed))
    case TimeOut => Go(s, t, Idle)
    case Claim => Go(s.(count := 1, owner := By(t), held := s.held[t := s.held[t] + 1]), t, Idle)
    case CallTry => Go(s, t, Trying)
    case Try => DoTry(s, t)
    case TryOwner => DoTryOwner(s, t)
    case CallUnlock => Go(s, t, Unlocking)
    case Unlock => DoUnlock(s, t)
    case Exchange => Freed(s, t)
    case Signal => Go(s.(event := true), t, Idle)
  }

  function Initial(kind: Kind, threads: nat): State
  {
    State(kind, 0, false, Nobody, 0, seq(threads, _ => Idle), Nobody, seq(threads, _ => 0))
  }

  // ---------- the invariant ----------

  function IsParked(pc: Pc): nat
  {
    if pc.Parked? then 1 else 0
  }

  /** Will set the event, or will write -1 before it parks. */
  function Rouses(pc: Pc): nat
  {
    if pc.Signalling? || pc.Contending? then 1 else 0
  }

  /** How the thread `t` stands to the word, the owner field and the counts. */
  predicate ThreadOk(s: State, t: Thread)
    requires |s.held| == |s.pcs|
  {
    t < |s.pcs| ==>
      && (s.holder != By(t) ==> s.held[t] == 0 && s.owner != By(t) && !s.pcs[t].Claiming? && !s.pcs[t].Exchanging?)
      && (s.holder == By(t) && s.kind == Normal ==> s.held[t] == 1 && !s.pcs[t].Claiming? && !s.pcs[t].Exchanging?)
      && (s.holder == By(t) && s.kind != Normal ==>
            if s.pcs[t].Claiming? || s.pcs[t].Exchanging?
            then s.held[t] == 0 && s.owner == Nobody
            else s.held[t] > 0 && s.owner == By(t))
      && (s.kind == Recursive && s.owner == By(t) ==> s.count == s.held[t])
      && (s.kind == ErrorCheck ==> s.held[t] <= 1)
      && (s.kind == Normal && s.pcs[t] == Unlocking ==> s.held[t] > 0)
      && (s.pcs[t] == TryingOwner ==> s.kind == Recursive)
  }

  ghost predicate Inv(s: State)
  {
    && |s.held| == |s.pcs|
    && -1 <= s.word <= 1
    && (s.word == 0 <==> s.holder == Nobody)
    && (s.holder.By? ==> s.holder.thread < |s.pcs|)
    && (s.owner.By? ==> s.kind != Normal && s.owner == s.holder)
    && (forall t: Thread :: ThreadOk(s, t))
    && (Sum(s.pcs, IsParked) > 0 ==> s.word == -1 || s.event || Sum(s.pcs, Rouses) > 0)
  }

  lemma InitialInv(kind: Kind, threads: nat)
    ensures Inv(Initial(kind, threads))
  {
    SumZero(Initial(kind, threads).pcs, IsParked);
  }

  /** Enough for a step of `t` to keep the invariant of every other thread. */
  lemma Threads(s: State, t: Thread, s': State)
    requires Inv(s) && t < |s.pcs| == |s'.held| && |s'.pcs| == |s.pcs|
    requires s'.kind == s.kind && s'.pcs == s.pcs[t := s'.pcs[t]] && s'.held == s.held[t := s'.held[t]]
    requires s'.holder == s.holder || s.holder == Nobody || s.holder == By(t)
    requires s'.holder == s.holder || s'.holder == Nobody || s'.holder == By(t)
    requires s'.owner == s.owner || s.owner == Nobody || s.owner == By(t)
    requires s'.owner == s.owner || s'.owner == Nobody || s'.owner == By(t)
    requires s'.owner.By? ==> s'.owner == s'.holder
    requires s'.count == s.count || s.owner == By(t) || s.owner == Nobody
    ensures forall u: Thread :: u != t ==> ThreadOk(s', u)
    ensures ThreadOk(s, t)
    ensures Sum(s'.pcs, IsParked) + IsParked(s.pcs[t]) == Sum(s.pcs, IsParked) + IsParked(s'.pcs[t])
    ensures Sum(s'.pcs, Rouses) + Rouses(s.pcs[t]) == Sum(s.pcs, Rouses) + Rouses(s'.pcs[t])
    ensures Sum(s.pcs, IsParked) >= IsParked(s.pcs[t])
  {
    SumUpdate(s.pcs, t, s'.pcs[t], IsParked);
    SumUpdate(s.pcs, t, s'.pcs[t], Rouses);
    assert ThreadOk(s, t);
    forall u: Thread | u != t ensures ThreadOk(s', u) {
      assert ThreadOk(s, u);
      assert s.holder.By? ==> ThreadOk(s, s.holder.thread);
    }
  }

  lemma KeepsCallLock(s: State, t: Thread, timed: bool)
    requires Inv(s) && t < |s.pcs| && s.pcs[t] == Idle
    ensures Inv(Go(s, t, Arriving(timed)))
  {
    assert ThreadOk(s, t);
    Threads(s, t, Go(s, t, Arriving(timed)));
  }

  lemma KeepsArrive(s: State, t: Thread)
    requires Inv(s) && t < |s.pcs| && s.pcs[t].Arriving?
    ensures Inv(DoArrive(s, t))
  {
    assert ThreadOk(s, t);
    Threads(s, t, DoArrive(s, t));
  }

  lemma KeepsCheckOwner(s: State, t: Thread)
    requires Inv(s) && t < |s.pcs| && s.pcs[t].CheckingOwner?
    ensures Inv(DoCheckOwner(s, t))
  {
    assert ThreadOk(s, t);
    Threads(s, t, DoCheckOwner(s, t));
  }

  lemma KeepsContend(s: State, t: Thread)
    requires Inv(s) && t < |s.pcs| && s.pcs[t].Contending?
    ensures Inv(DoContend(s, t))
  {
    assert ThreadOk(s, t);
    Threads(s, t, DoContend(s, t));
  }

  lemma KeepsWake(s: State, t: Thread)
    requires Inv(s) && t < |s.pcs| && s.pcs[t].Parked? && s.event
    ensures Inv(Go(s.(event := false), t, Contending(s.pcs[t].timed)))
  {
    assert ThreadOk(s, t);
    Threads(s, t, Go(s.(event := false), t, Contending(s.pcs[t].timed)));
  }

  lemma KeepsTimeOut(s: State, t: Thread)
    requires Inv(s) && t < |s.pcs| && s.pcs[t] == Parked(true)
    ensures Inv(Go(s, t, Idle))
  {
    assert ThreadOk(s, t);
    Threads(s, t, Go(s, t, Idle));
  }

  lemma KeepsClaim(s: State, t: Thread)
    requires Inv(s) && t < |s.pcs| && s.pcs[t] == Claiming
    ensures Inv(Go(s.(count := 1, owner := By(t), held := s.held[t := s.held[t] + 1]), t, Idle))
  {
    assert ThreadOk(s, t);
    Threads(s, t, Go(s.(count := 1, owner := By(t), held := s.held[t := s.held[t] + 1]), t, Idle));
  }

  lemma KeepsCallTry(s: State, t: Thread)
    requires Inv(s) && t < |s.pcs| && s.pcs[t] == Idle
    ensures Inv(Go(s, t, Trying))
  {
    assert ThreadOk(s, t);
    Threads(s, t, Go(s, t, Trying));
  }

  lemma KeepsTry(s: State, t: Thread)
    requires Inv(s) && t < |s.pcs| && s.pcs[t] == Trying
    ensures Inv(DoTry(s, t))
  {
    assert ThreadOk(s, t);
    Threads(s, t, DoTry(s, t));
  }

  lemma KeepsTryOwner(s: State, t: Thread)
    requires Inv(s) && t < |s.pcs| && s.pcs[t] == TryingOwner
    ensures Inv(DoTryOwner(s, t))
  {
    assert ThreadOk(s, t);
    Threads(s, t, DoTryOwner(s, t));
  }

  lemma KeepsCallUnlock(s: State, t: Thread)
    requires Inv(s) && t < |s.pcs| && s.pcs[t] == Idle && (s.kind == Normal ==> s.held[t] > 0)
    ensures Inv(Go(s, t, Unlocking))
  {
    assert ThreadOk(s, t);
    Threads(s, t, Go(s, t, Unlocking));
  }

  lemma KeepsUnlockNormal(s: State, t: Thread)
    requires Inv(s) && t < |s.pcs| && s.pcs[t] == Unlocking
    requires s.kind == Normal
    ensures Inv(DoUnlock(s, t))
  {
    assert ThreadOk(s, t);
    Threads(s, t, DoUnlock(s, t));
  }

  lemma KeepsUnlockOwned(s: State, t: Thread)
    requires Inv(s) && t < |s.pcs| && s.pcs[t] == Unlocking
    requires s.kind != Normal
    ensures Inv(DoUnlock(s, t))
  {
    assert ThreadOk(s, t);
    Threads(s, t, DoUnlock(s, t));
  }

  lemma KeepsUnlock(s: State, t: Thread)
    requires Inv(s) && t < |s.pcs| && s.pcs[t] == Unlocking
    ensures Inv(DoUnlock(s, t))
  {
    if s.kind == Normal {
      KeepsUnlockNormal(s, t);
    } else {
      KeepsUnlockOwned(s, t);
    }
  }

  lemma KeepsExchange(s: State, t: Thread)
    requires Inv(s) && t < |s.pcs| && s.pcs[t] == Exchanging
    ensures Inv(Freed(s, t))
  {
    assert ThreadOk(s, t);
    Threads(s, t, Freed(s, t));
  }

  lemma KeepsSignal(s: State, t: Thread)
    requires Inv(s) && t < |s.pcs| && s.pcs[t] == Signalling
    ensures Inv(Go(s.(event := true), t, Idle))
  {
    assert ThreadOk(s, t);
    Threads(s, t, Go(s.(event := true), t, Idle));
  }

  lemma LockKeepsInv(s: State, t: Thread, a: Action)
    requires Inv(s) && Enabled(s, t, a)
    requires a.CallLock? || a.Arrive? || a.CheckOwner? || a.Contend? || a.Wake?
    ensures Inv(Apply(s, t, a)) && |Apply(s, t, a).pcs| == |s.pcs|
  {
    match a
    case CallLock(timed) => KeepsCallLock(s, t, timed);
    case Arrive => KeepsArrive(s, t);
    case CheckOwner => KeepsCheckOwner(s, t);
    case Contend => KeepsContend(s, t);
    case Wake => KeepsWake(s, t);
  }

  lemma TryKeepsInv(s: State, t: Thread, a: Action)
    requires Inv(s) && Enabled(s, t, a)
    requires a.TimeOut? || a.Claim? || a.CallTry? || a.Try? || a.TryOwner?
    ensures Inv(Apply(s, t, a)) && |Apply(s, t, a).pcs| == |s.pcs|
  {
    match a
    case TimeOut => KeepsTimeOut(s, t);
    case Claim => KeepsClaim(s, t);
    case CallTry => KeepsCallTry(s, t);
    case Try => KeepsTry(s, t);
    case TryOwner => KeepsTryOwner(s, t);
  }

  lemma UnlockKeepsInv(s: State, t: Thread, a: Action)
    requires Inv(s) && Enabled(s, t, a)
    requires a.CallUnlock? || a.Unlock? || a.Exchange? || a.Signal?
    ensures Inv(Apply(s, t, a)) && |Apply(s, t, a).pcs| == |s.pcs|
  {
    match a
    case CallUnlock => KeepsCallUnlock(s, t);
    case Unlock => KeepsUnlock(s, t);
    case Exchange => KeepsExchange(s, t);
    case Signal => KeepsSignal(s, t);
  }

  lemma StepKeepsInv(s: State, t: Thread, a: Action)
    requires Inv(s) && Enabled(s, t, a)
    ensures Inv(Apply(s, t, a)) && |Apply(s, t, a).pcs| == |s.pcs|
  {
    if a.CallLock? || a.Arrive? || a.CheckOwner? || a.Contend? || a.Wake? {
      LockKeepsInv(s, t, a);
    } else if a.CallUnlock? || a.Unlock? || a.Exchange? || a.Signal? {
      UnlockKeepsInv(s, t, a);
    } else {
      TryKeepsInv(s, t, a);
    }
  }

  // ---------- runs ----------

  ghost predicate Next(s: State, s': State)
  {
    exists t, a :: Enabled(s, t, a) && s' == Apply(s, t, a)
  }

  ghost predicate Run(tr: seq<State>, kind: Kind, threads: nat)
  {
    IsRun(tr, Next) && tr[0] == Initial(kind, threads)
  }

  ghost predicate Reachable(s: State)
  {
    exists tr: seq<State>, kind: Kind, threads: nat :: Run(tr, kind, threads) && s == tr[|tr| - 1]
  }

  lemma NextKeepsInv(s: State, s': State)
    requires Inv(s) && Next(s, s')
    ensures Inv(s')
  {
    var t, a :| Enabled(s, t, a) && s' == Apply(s, t, a);
    StepKeepsInv(s, t, a);
  }

  lemma RunsKeepInv(tr: seq<State>, kind: Kind, threads: nat)
    requires Run(tr, kind, threads)
    ensures Inv(tr[|tr| - 1])
  {
    InitialInv(kind, threads);
    forall s: State, s': State | Inv(s) && Next(s, s') ensures Inv(s') {
      NextKeepsInv(s, s');
    }
    RunKeeps(tr, Next, Inv);
  }

  lemma ReachableInv(s: State)
    requires Reachable(s)
    ensures Inv(s)
  {
    var tr: seq<State>, kind: Kind, threads: nat :| Run(tr, kind, threads) && s == tr[|tr| - 1];
    RunsKeepInv(tr, kind, threads);
  }

  // ---------- what the mutex is for ----------

  /**
   Mutual exclusion. At most one thread holds the mutex; the word is 0 exactly while no
   thread holds it or is between winning it and returning; and the recursion count is the
   owner's acquisitions less its releases.
   */
  lemma Exclusion(s: State, t: Thread, u: Thread)
    requires Reachable(s) && t < |s.pcs| && u < |s.pcs|
    ensures |s.held| == |s.pcs|
    ensures s.held[t] > 0 && s.held[u] > 0 ==> t == u
    ensures s.word == 0 ==> s.held[t] == 0 && !s.pcs[t].Claiming? && !s.pcs[t].Exchanging?
    ensures s.word != 0 ==>
              s.holder.By? && s.holder.thread < |s.pcs| &&
              (s.held[s.holder.thread] > 0 || s.pcs[s.holder.thread].Claiming? || s.pcs[s.holder.thread].Exchanging?)
    ensures s.kind == Recursive && s.held[t] > 0 ==> s.owner == By(t) && s.count == s.held[t]
    ensures s.kind != Recursive ==> s.held[t] <= 1
  {
    ReachableInv(s);
    assert ThreadOk(s, t) && ThreadOk(s, u);
    if s.holder.By? {
      assert ThreadOk(s, s.holder.thread);
    }
  }

  /**
   The unlocked reads of ownerThread are exact: wherever a thread compares the owner with
   itself, the comparison says whether it holds the mutex. So a relock by the holder is
   counted or refused, and an unlock by anyone else is refused, never the other way round.
   */
  lemma OwnerTestIsExact(s: State, t: Thread)
    requires Reachable(s) && t < |s.pcs| && s.kind != Normal
    requires s.pcs[t].CheckingOwner? || s.pcs[t].TryingOwner? || s.pcs[t].Unlocking?
    ensures |s.held| == |s.pcs| && (s.owner == By(t) <==> s.held[t] > 0)
    ensures s.pcs[t].Unlocking? && s.held[t] == 0 ==> DoUnlock(s, t) == s.(pcs := s.pcs[t := Idle])
    ensures s.pcs[t].CheckingOwner? && s.held[t] > 0 && s.kind == ErrorCheck ==>
              DoCheckOwner(s, t) == s.(pcs := s.pcs[t := Idle])
  {
    ReachableInv(s);
    assert ThreadOk(s, t);
  }

  /**
   No lost wakeup. While a thread is parked and the word is 0, the event is set, an
   unlocker is about to set it, or some thread is about to exchange in -1.
   */
  lemma WakeupIsNotLost(s: State, t: Thread)
    requires Reachable(s) && t < |s.pcs| && s.pcs[t].Parked? && s.word != -1
    ensures s.event || exists u: Thread :: u < |s.pcs| && (s.pcs[u].Signalling? || s.pcs[u].Contending?)
  {
    ReachableInv(s);
    SumAtLeast(s.pcs, t, IsParked);
    if !s.event {
      var u := SumWitness(s.pcs, Rouses);
    }
  }

  /**
   Refinement. Seen through the holder alone, every step is a step of the plain mutex that
   RwLock and CondVar assume: nothing happens, or a thread takes the free mutex, or the
   holder frees it. A call that returns with the mutex makes its thread the holder or finds
   it so, and only the holder gives anything back.
   */
  lemma StepRefinesLock(s: State, t: Thread, a: Action)
    requires Reachable(s) && Enabled(s, t, a)
    ensures var s' := Apply(s, t, a);
      || s'.holder == s.holder
      || (s.holder == Nobody && s'.holder == By(t) && s.word == 0 && (a.Arrive? || a.Contend? || a.Try?))
      || (s.holder == By(t) && s'.holder == Nobody && s'.held[t] == 0 && (a.Unlock? || a.Exchange?))
    ensures var s' := Apply(s, t, a);
      && s'.held == s.held[t := s'.held[t]]
      && (s'.held[t] > s.held[t] ==> s'.holder == By(t) && s'.held[t] == s.held[t] + 1)
      && (s'.held[t] < s.held[t] ==> s.holder == By(t) && s'.held[t] == s.held[t] - 1)
  {
    ReachableInv(s);
    assert ThreadOk(s, t);
  }

  /** Left to the callers and the clock: new calls and timeouts. */
  predicate External(a: Action)
  {
    a.CallLock? || a.CallTry? || a.CallUnlock? || a.TimeOut?
  }

  /** The action of a program point that waits for nobody but, when parked, the event. */
  function Proceed(pc: Pc): Action
  {
    match pc
    case Idle => CallTry
    case Arriving(_) => Arrive
    case CheckingOwner(_) => CheckOwner
    case Contending(_) => Contend
    case Parked(_) => Wake
    case Claiming => Claim
    case Trying => Try
    case TryingOwner => TryOwner
    case Unlocking => Unlock
    case Exchanging => Exchange
    case Signalling => Signal
  }

  /**
   Deadlock freedom. When no operation in progress can take a step, every thread is idle
   or parked, and if one is parked then some thread still holds the mutex.
   */
  lemma StuckOnlyWhileHeld(s: State, t: Thread)
    requires Reachable(s) && t < |s.pcs|
    requires forall u, a :: Enabled(s, u, a) ==> External(a)
    ensures s.pcs[t] == Idle || s.pcs[t].Parked?
    ensures s.pcs[t].Parked? ==> s.word == -1 && |s.held| == |s.pcs| && exists h: Thread :: h < |s.pcs| && s.held[h] > 0
  {
    ReachableInv(s);
    Quiet(s, t);
    if s.pcs[t].Parked? {
      SumAtLeast(s.pcs, t, IsParked);
      if Sum(s.pcs, Rouses) > 0 {
        var u := SumWitness(s.pcs, Rouses);
        Quiet(s, u);
      }
      Quiet(s, s.holder.thread);
      assert ThreadOk(s, s.holder.thread);
    }
  }

  lemma Quiet(s: State, t: Thread)
    requires Inv(s) && t < |s.pcs|
    requires forall u, a :: Enabled(s, u, a) ==> External(a)
    ensures s.pcs[t] == Idle || (s.pcs[t].Parked? && !s.event)
  {
    assert Enabled(s, t, Proceed(s.pcs[t])) ==> External(Proceed(s.pcs[t]));
  }
}
