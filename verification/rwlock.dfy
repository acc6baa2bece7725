/**
 The read/write lock of pthread_rwlock_rdlock.c, pthread_rwlock_wrlock.c,
 pthread_rwlock_timedwrlock.c, pthread_rwlock_trywrlock.c, pthread_rwlock_unlock.c and
 ptw32_rwlock_cancelwrwait.c: two mutexes, a condition variable and three counts, one of
 which goes negative while a writer drains the readers.

 One action per mutex or condition variable operation and per protected section, for any
 number of threads below INT_MAX; a thread stands for one lock held at a time. The
 mutexes and the condition variable enter through what Mutex and CondVar prove of them:
 one holder at a time; a wait lets go of its mutex and is registered in one step, wakes
 for a signal sent after that, for no reason, or on timeout, and then takes the mutex.
 `woken` says that the draining writer has been signalled.
 */
module RwLock {
  import opened Population
  import opened Runs

  type Thread = nat

  const INT_MAX: int := 0x7fff_ffff

  datatype Ref = Nobody | By(thread: Thread)

  /** Which of wrlock, timedwrlock and trywrlock is running. */
  datatype Mode = Blocking | Timed | Trying

  datatype Pc =
    | Idle
    // pthread_rwlock_rdlock.c
    | RdLock                   // line 81
    | RdCount                  // line 86
    | RdFoldLock               // line 88
    | RdFold                   // line 95
    | RdFoldUnlock             // line 98
    | RdUnlock                 // line 106
    | Reading
    // pthread_rwlock_wrlock.c, timedwrlock.c and trywrlock.c
    | WrLock(mode: Mode)       // lines 81, 82, 81
    | WrLockShared(mode: Mode) // lines 86, 88, 86
    | WrGiveBack               // lines 88, 92, 89
    | WrTest(mode: Mode)       // lines 92-106, 96-110, 93-101
    | Draining(mode: Mode)     // lines 115, 120: asleep
    | Waking(mode: Mode, failed: bool)   // taking the mutex back
    | WrCheck(mode: Mode, failed: bool)  // lines 118-135, 124-141
    | BusyUnlockShared         // trywrlock.c:104
    | BusyUnlock               // trywrlock.c:111
    | Writing
    // ptw32_rwlock_cancelwrwait.c
    | Cancelling               // lines 50-51
    | CancelUnlockShared       // line 53
    | CancelUnlock             // line 54
    // pthread_rwlock_unlock.c; `writer` is the caller's role
    | Deciding(writer: bool)   // line 73
    | UrLock                   // line 75
    | UrCount                  // line 81
    | UrSignal                 // line 83
    | UrUnlock                 // line 86
    | UwCount                  // line 90
    | UwUnlockShared           // line 92
    | UwUnlock                 // line 93

  datatype State = State(
    shared: int, exclusive: int, completed: int,
    mtxExclusive: Ref, mtxShared: Ref, woken: bool,
    pcs: seq<Pc>)

  datatype ReadStep = CallRead | LockRead | CountRead | LockFold | Fold | UnlockFold | UnlockRead

  datatype WriteStep =
    | CallWrite(mode: Mode) | LockWrite | RefuseWrite | LockShared | RefuseShared | GiveBack | Test
    | Wake(failed: bool) | Relock | Check | UnlockBusyShared | UnlockBusy
    | Cancel | UnlockCancelShared | UnlockCancel

  datatype UnlockStep =
    | CallUnlock | Decide | LockCompleted | CountCompleted | SignalWriter | UnlockCompleted
    | CountWriter | UnlockWriterShared | UnlockWriter

  datatype Action = Read(r: ReadStep) | Write(w: WriteStep) | Release(u: UnlockStep)

  predicate ReadEnabled(s: State, t: Thread, a: ReadStep)
    requires t < |s.pcs|
  {
    match a
    case CallRead => s.pcs[t] == Idle
    case LockRead => s.pcs[t] == RdLock && s.mtxExclusive == Nobody
    case CountRead => s.pcs[t] == RdCount
    case LockFold => s.pcs[t] == RdFoldLock && s.mtxShared == Nobody
    case Fold => s.pcs[t] == RdFold
    case UnlockFold => s.pcs[t] == RdFoldUnlock
    case UnlockRead => s.pcs[t] == RdUnlock
  }

  predicate WriteEnabled(s: State, t: Thread, a: WriteStep)
    requires t < |s.pcs|
  {
    match a
    case CallWrite(_) => s.pcs[t] == Idle
    case LockWrite => s.pcs[t].WrLock? && s.mtxExclusive == Nobody
    case RefuseWrite => s.pcs[t].WrLock? && MayRefuse(s.pcs[t].mode, s.mtxExclusive)
    case LockShared => s.pcs[t].WrLockShared? && s.mtxShared == Nobody
    case RefuseShared => s.pcs[t].WrLockShared? && MayRefuse(s.pcs[t].mode, s.mtxShared)
    case GiveBack => s.pcs[t] == WrGiveBack
    case Test => s.pcs[t].WrTest?
    case Wake(failed) => s.pcs[t].Draining?
    case Relock => s.pcs[t].Waking? && s.mtxShared == Nobody
    case Check => s.pcs[t].WrCheck?
    case UnlockBusyShared => s.pcs[t] == BusyUnlockShared
    case UnlockBusy => s.pcs[t] == BusyUnlock
    case Cancel => s.pcs[t] == Cancelling
    case UnlockCancelShared => s.pcs[t] == CancelUnlockShared
    case UnlockCancel => s.pcs[t] == CancelUnlock
  }

  predicate UnlockEnabled(s: State, t: Thread, a: UnlockStep)
    requires t < |s.pcs|
  {
    match a
    case CallUnlock => s.pcs[t] == Reading || s.pcs[t] == Writing
    case Decide => s.pcs[t].Deciding?
    case LockCompleted => s.pcs[t] == UrLock && s.mtxShared == Nobody
    case CountCompleted => s.pcs[t] == UrCount
    case SignalWriter => s.pcs[t] == UrSignal
    case UnlockCompleted => s.pcs[t] == UrUnlock
    case CountWriter => s.pcs[t] == UwCount
    case UnlockWriterShared => s.pcs[t] == UwUnlockShared
    case UnlockWriter => s.pcs[t] == UwUnlock
  }

  /** A timed lock may time out, a try fails when the mutex is taken. */
  predicate MayRefuse(mode: Mode, mtx: Ref)
  {
    mode == Timed || (mode == Trying && mtx != Nobody)
  }

  predicate Enabled(s: State, t: Thread, a: Action)
  {
    t < |s.pcs| &&
    match a
    case Read(r) => ReadEnabled(s, t, r)
    case Write(w) => WriteEnabled(s, t, w)
    case Release(u) => UnlockEnabled(s, t, u)
  }

  function Go(s: State, t: Thread, pc: Pc): State
    requires t < |s.pcs|
  {
    s.(pcs := s.pcs[t := pc])
  }

  /** Readers that have completed are taken off the count of those that have entered. */
  function Folded(s: State): State
  {
    if s.completed > 0 then s.(shared := s.shared - s.completed, completed := 0) else s
  }

  /** Lines 92-112 of wrlock.c and 93-125 of trywrlock.c, holding both mutexes. */
  function DoTest(s: State, t: Thread): State
    requires t < |s.pcs| && s.pcs[t].WrTest?
  {
    var mode := s.pcs[t].mode;
    if s.exclusive != 0 then
      if mode == Trying then Go(s, t, Idle) else Go(s.(exclusive := s.exclusive + 1), t, Writing)
    else
      var f := Folded(s);
      if f.shared > 0 then
        if mode == Trying then Go(f, t, BusyUnlockShared)
        else Go(f.(completed := -f.shared, mtxShared := Nobody, woken := false), t, Draining(mode))
      else
        Go(f.(exclusive := if mode == Trying then 1 else f.exclusive + 1), t, Writing)
  }

  /** Lines 118-135 of wrlock.c: the wait has returned and the mutex is held again. */
  function DoCheck(s: State, t: Thread): State
    requires t < |s.pcs| && s.pcs[t].WrCheck?
  {
    if s.pcs[t].failed then Go(s, t, Cancelling)
    else if s.completed < 0 then Go(s.(mtxShared := Nobody, woken := false), t, Draining(s.pcs[t].mode))
    else Go(s.(shared := 0, exclusive := s.exclusive + 1), t, Writing)
  }

  function ReadApply(s: State, t: Thread, a: ReadStep): State
    requires t < |s.pcs| && ReadEnabled(s, t, a)
  {
    match a
    case CallRead => Go(s, t, RdLock)
    case LockRead => Go(s.(mtxExclusive := By(t)), t, RdCount)
    case CountRead => Go(s.(shared := s.shared + 1), t, if s.shared + 1 == INT_MAX then RdFoldLock else RdUnlock)
    case LockFold => Go(s.(mtxShared := By(t)), t, RdFold)
    case Fold => Go(s.(shared := s.shared - s.completed, completed := 0), t, RdFoldUnlock)
    case UnlockFold => Go(s.(mtxShared := Nobody), t, RdUnlock)
    case UnlockRead => Go(s.(mtxExclusive := Nobody), t, Reading)
  }

  function WriteApply(s: State, t: Thread, a: WriteStep): State
    requires t < |s.pcs| && WriteEnabled(s, t, a)
  {
    match a
    case CallWrite(mode) => Go(s, t, WrLock(mode))
    case LockWrite => Go(s.(mtxExclusive := By(t)), t, WrLockShared(s.pcs[t].mode))
    case RefuseWrite => Go(s, t, Idle)
    case LockShared => Go(s.(mtxShared := By(t)), t, WrTest(s.pcs[t].mode))
    case RefuseShared => Go(s, t, WrGiveBack)
    case GiveBack => Go(s.(mtxExclusive := Nobody), t, Idle)
    case Test => DoTest(s, t)
    case Wake(failed) => Go(s.(woken := false), t, Waking(s.pcs[t].mode, failed))
    case Relock => Go(s.(mtxShared := By(t)), t, WrCheck(s.pcs[t].mode, s.pcs[t].failed))
    case Check => DoCheck(s, t)
    case UnlockBusyShared => Go(s.(mtxShared := Nobody), t, BusyUnlock)
    case UnlockBusy => Go(s.(mtxExclusive := Nobody), t, Idle)
    case Cancel => Go(s.(shared := -s.completed, completed := 0), t, CancelUnlockShared)
    case UnlockCancelShared => Go(s.(mtxShared := Nobody), t, CancelUnlock)
    case UnlockCancel => Go(s.(mtxExclusive := Nobody), t, Idle)
  }

  function UnlockApply(s: State, t: Thread, a: UnlockStep): State
    requires t < |s.pcs| && UnlockEnabled(s, t, a)
  {
    match a
    case CallUnlock => Go(s, t, Deciding(s.pcs[t] == Writing))
    case Decide => Go(s, t, if s.exclusive == 0 then UrLock else UwCount)
    case LockCompleted => Go(s.(mtxShared := By(t)), t, UrCount)
    case CountCompleted =>
      Go(s.(completed := s.completed + 1), t, if s.completed + 1 == 0 then UrSignal else UrUnlock)
    case SignalWriter => Go(s.(woken := s.woken || HolderPc(s).Draining?), t, UrUnlock)
    case UnlockCompleted => Go(s.(mtxShared := Nobody), t, Idle)
    case CountWriter => Go(s.(exclusive := s.exclusive - 1), t, UwUnlockShared)
    case UnlockWriterShared => Go(s.(mtxShared := Nobody), t, UwUnlock)
    case UnlockWriter => Go(s.(mtxExclusive := Nobody), t, Idle)
  }

  function Apply(s: State, t: Thread, a: Action): State
    requires Enabled(s, t, a)
  {
    match a
    case Read(r) => ReadApply(s, t, r)
    case Write(w) => WriteApply(s, t, w)
    case Release(u) => UnlockApply(s, t, u)
  }

  function Initial(threads: nat): State
  {
    State(0, 0, 0, Nobody, Nobody, false, seq(threads, _ => Idle))
  }

  // ---------- the invariant ----------

  predicate HoldsExclusive(pc: Pc)
  {
    pc.RdCount? || pc.RdFoldLock? || pc.RdFold? || pc.RdFoldUnlock? || pc.RdUnlock?
    || pc.WrLockShared? || pc.WrGiveBack? || pc.WrTest? || pc.Draining? || pc.Waking? || pc.WrCheck?
    || pc.BusyUnlockShared? || pc.BusyUnlock? || WriterPc(pc)
    || pc.Cancelling? || pc.CancelUnlockShared? || pc.CancelUnlock?
    || pc.UwUnlockShared? || pc.UwUnlock?
  }

  predicate HoldsShared(pc: Pc)
  {
    pc.RdFold? || pc.RdFoldUnlock? || pc.WrTest? || pc.WrCheck? || pc.BusyUnlockShared? || WriterPc(pc)
    || pc.Cancelling? || pc.CancelUnlockShared? || pc.UrCount? || pc.UrSignal? || pc.UrUnlock? || pc.UwUnlockShared?
  }

  /** Holds the write lock. */
  predicate WriterPc(pc: Pc)
  {
    pc.Writing? || (pc.Deciding? && pc.writer) || pc.UwCount?
  }

  /** Counted as a reader and not yet counted as completed. */
  function Active(pc: Pc): nat
  {
    if pc.RdFoldLock? || pc.RdFold? || pc.RdFoldUnlock? || pc.RdUnlock? || pc.Reading?
       || (pc.Deciding? && !pc.writer) || pc.UrLock? || pc.UrCount?
    then 1 else 0
  }

  /** A writer has negated the count and has neither entered nor given up. */
  predicate Drains(pc: Pc)
  {
    pc.Draining? || pc.Waking? || pc.WrCheck? || pc.Cancelling?
  }

  function HolderPc(s: State): Pc
  {
    if s.mtxExclusive.By? && s.mtxExclusive.thread < |s.pcs| then s.pcs[s.mtxExclusive.thread] else Idle
  }

  function SharedHolderPc(s: State): Pc
  {
    if s.mtxShared.By? && s.mtxShared.thread < |s.pcs| then s.pcs[s.mtxShared.thread] else Idle
  }

  ghost predicate LocksOk(s: State)
  {
    && (s.mtxExclusive.By? ==> s.mtxExclusive.thread < |s.pcs| && HoldsExclusive(s.pcs[s.mtxExclusive.thread]))
    && (forall t: Thread :: t < |s.pcs| && HoldsExclusive(s.pcs[t]) ==> s.mtxExclusive == By(t))
    && (s.mtxShared.By? ==> s.mtxShared.thread < |s.pcs| && HoldsShared(s.pcs[s.mtxShared.thread]))
    && (forall t: Thread :: t < |s.pcs| && HoldsShared(s.pcs[t]) ==> s.mtxShared == By(t))
  }

  ghost predicate CountsOk(s: State)
  {
    var pc := HolderPc(s);
    && Sum(s.pcs, Active) == (if Drains(pc) then -s.completed else s.shared - s.completed)
    && (if Drains(pc) then s.completed <= 0 else s.completed >= 0)
    && 0 <= s.shared
    && (if pc.RdFoldLock? || pc.RdFold? then s.shared <= INT_MAX else s.shared < INT_MAX)
    && s.exclusive == (if WriterPc(pc) then 1 else 0)
    && (WriterPc(pc) || pc.UwUnlockShared? || pc.UwUnlock? ==> s.shared == 0 && s.completed == 0)
    && (pc.Draining? && s.completed == 0 ==> s.woken || SharedHolderPc(s).UrSignal?)
  }

  ghost predicate Inv(s: State)
  {
    |s.pcs| < INT_MAX && LocksOk(s) && CountsOk(s)
  }

  lemma InitialInv(threads: nat)
    requires threads < INT_MAX
    ensures Inv(Initial(threads))
  {
    SumZero(Initial(threads).pcs, Active);
  }

  lemma Moved(pcs: seq<Pc>, t: Thread, pc: Pc)
    requires t < |pcs|
    ensures Sum(pcs[t := pc], Active) + Active(pcs[t]) == Sum(pcs, Active) + Active(pc)
    ensures Sum(pcs, Active) >= Active(pcs[t])
    ensures Sum(pcs, Active) <= |pcs|
  {
    SumUpdate(pcs, t, pc, Active);
    HeadCount(pcs);
  }

  lemma {:induction false} HeadCount(pcs: seq<Pc>)
    ensures Sum(pcs, Active) <= |pcs|
  {
    if pcs != [] {
      HeadCount(pcs[1..]);
    }
  }

  /** A thread that holds no mutex before and after does not disturb anybody. */
  lemma KeepsOutside(s: State, t: Thread, pc: Pc)
    requires Inv(s) && t < |s.pcs| && Active(pc) == Active(s.pcs[t])
    requires !HoldsExclusive(s.pcs[t]) && !HoldsShared(s.pcs[t]) && !HoldsExclusive(pc) && !HoldsShared(pc)
    ensures Inv(Go(s, t, pc))
  {
    Moved(s.pcs, t, pc);
  }

  lemma KeepsCallRead(s: State, t: Thread)
    requires Inv(s) && t < |s.pcs| && s.pcs[t] == Idle
    ensures Inv(Go(s, t, RdLock))
  {
    KeepsOutside(s, t, RdLock);
  }

  lemma KeepsLockRead(s: State, t: Thread)
    requires Inv(s) && t < |s.pcs| && s.pcs[t] == RdLock && s.mtxExclusive == Nobody
    ensures Inv(Go(s.(mtxExclusive := By(t)), t, RdCount))
  {
    Moved(s.pcs, t, RdCount);
  }

  lemma KeepsCountRead(s: State, t: Thread)
    requires Inv(s) && t < |s.pcs| && s.pcs[t] == RdCount
    ensures Inv(Go(s.(shared := s.shared + 1), t, if s.shared + 1 == INT_MAX then RdFoldLock else RdUnlock))
  {
    Moved(s.pcs, t, if s.shared + 1 == INT_MAX then RdFoldLock else RdUnlock);
  }

  lemma KeepsLockFold(s: State, t: Thread)
    requires Inv(s) && t < |s.pcs| && s.pcs[t] == RdFoldLock && s.mtxShared == Nobody
    ensures Inv(Go(s.(mtxShared := By(t)), t, RdFold))
  {
    Moved(s.pcs, t, RdFold);
  }

  lemma KeepsFold(s: State, t: Thread)
    requires Inv(s) && t < |s.pcs| && s.pcs[t] == RdFold
    ensures Inv(Go(s.(shared := s.shared - s.completed, completed := 0), t, RdFoldUnlock))
  {
    Moved(s.pcs, t, RdFoldUnlock);
  }

  lemma KeepsUnlockFold(s: State, t: Thread)
    requires Inv(s) && t < |s.pcs| && s.pcs[t] == RdFoldUnlock
    ensures Inv(Go(s.(mtxShared := Nobody), t, RdUnlock))
  {
    Moved(s.pcs, t, RdUnlock);
  }

  lemma KeepsUnlockRead(s: State, t: Thread)
    requires Inv(s) && t < |s.pcs| && s.pcs[t] == RdUnlock
    ensures Inv(Go(s.(mtxExclusive := Nobody), t, Reading))
  {
    Moved(s.pcs, t, Reading);
  }

  lemma ReadKeepsInv(s: State, t: Thread, a: ReadStep)
    requires Inv(s) && t < |s.pcs| && ReadEnabled(s, t, a)
    ensures Inv(ReadApply(s, t, a))
  {
    match a
    case CallRead => KeepsCallRead(s, t);
    case LockRead => KeepsLockRead(s, t);
    case CountRead => KeepsCountRead(s, t);
    case LockFold => KeepsLockFold(s, t);
    case Fold => KeepsFold(s, t);
    case UnlockFold => KeepsUnlockFold(s, t);
    case UnlockRead => KeepsUnlockRead(s, t);
  }

  lemma KeepsCallWrite(s: State, t: Thread, mode: Mode)
    requires Inv(s) && t < |s.pcs| && s.pcs[t] == Idle
    ensures Inv(Go(s, t, WrLock(mode)))
  {
    KeepsOutside(s, t, WrLock(mode));
  }

  lemma KeepsLockWrite(s: State, t: Thread)
    requires Inv(s) && t < |s.pcs| && s.pcs[t].WrLock? && s.mtxExclusive == Nobody
    ensures Inv(Go(s.(mtxExclusive := By(t)), t, WrLockShared(s.pcs[t].mode)))
  {
    Moved(s.pcs, t, WrLockShared(s.pcs[t].mode));
  }

  lemma KeepsRefuseWrite(s: State, t: Thread)
    requires Inv(s) && t < |s.pcs| && s.pcs[t].WrLock? && MayRefuse(s.pcs[t].mode, s.mtxExclusive)
    ensures Inv(Go(s, t, Idle))
  {
    KeepsOutside(s, t, Idle);
  }

  lemma KeepsLockShared(s: State, t: Thread)
    requires Inv(s) && t < |s.pcs| && s.pcs[t].WrLockShared? && s.mtxShared == Nobody
    ensures Inv(Go(s.(mtxShared := By(t)), t, WrTest(s.pcs[t].mode)))
  {
    Moved(s.pcs, t, WrTest(s.pcs[t].mode));
  }

  lemma KeepsRefuseShared(s: State, t: Thread)
    requires Inv(s) && t < |s.pcs| && s.pcs[t].WrLockShared? && MayRefuse(s.pcs[t].mode, s.mtxShared)
    ensures Inv(Go(s, t, WrGiveBack))
  {
    Moved(s.pcs, t, WrGiveBack);
  }

  lemma KeepsGiveBack(s: State, t: Thread)
    requires Inv(s) && t < |s.pcs| && s.pcs[t] == WrGiveBack
    ensures Inv(Go(s.(mtxExclusive := Nobody), t, Idle))
  {
    Moved(s.pcs, t, Idle);
  }

  lemma KeepsTestTrying(s: State, t: Thread)
    requires Inv(s) && t < |s.pcs| && s.pcs[t].WrTest?
    requires s.pcs[t].mode == Trying
    ensures Inv(DoTest(s, t))
  {
    Moved(s.pcs, t, DoTest(s, t).pcs[t]);
  }

  lemma KeepsTestDraining(s: State, t: Thread)
    requires Inv(s) && t < |s.pcs| && s.pcs[t].WrTest?
    requires s.pcs[t].mode != Trying
    requires Folded(s).shared > 0
    ensures Inv(DoTest(s, t))
  {
    Moved(s.pcs, t, DoTest(s, t).pcs[t]);
  }

  lemma KeepsTestEntering(s: State, t: Thread)
    requires Inv(s) && t < |s.pcs| && s.pcs[t].WrTest?
    requires s.pcs[t].mode != Trying
    requires Folded(s).shared <= 0
    ensures Inv(DoTest(s, t))
  {
    Moved(s.pcs, t, DoTest(s, t).pcs[t]);
  }

  lemma KeepsTestWaiting(s: State, t: Thread)
    requires Inv(s) && t < |s.pcs| && s.pcs[t].WrTest?
    requires s.pcs[t].mode != Trying
    ensures Inv(DoTest(s, t))
  {
    if Folded(s).shared > 0 {
      KeepsTestDraining(s, t);
    } else {
      KeepsTestEntering(s, t);
    }
  }

  lemma KeepsTest(s: State, t: Thread)
    requires Inv(s) && t < |s.pcs| && s.pcs[t].WrTest?
    ensures Inv(DoTest(s, t))
  {
    if s.pcs[t].mode == Trying {
      KeepsTestTrying(s, t);
    } else {
      KeepsTestWaiting(s, t);
    }
  }

  lemma KeepsWake(s: State, t: Thread, failed: bool)
    requires Inv(s) && t < |s.pcs| && s.pcs[t].Draining?
    ensures Inv(Go(s.(woken := false), t, Waking(s.pcs[t].mode, failed)))
  {
    Moved(s.pcs, t, Waking(s.pcs[t].mode, failed));
  }

  lemma KeepsRelock(s: State, t: Thread)
    requires Inv(s) && t < |s.pcs| && s.pcs[t].Waking? && s.mtxShared == Nobody
    ensures Inv(Go(s.(mtxShared := By(t)), t, WrCheck(s.pcs[t].mode, s.pcs[t].failed)))
  {
    Moved(s.pcs, t, WrCheck(s.pcs[t].mode, s.pcs[t].failed));
  }

  lemma KeepsCheckFailed(s: State, t: Thread)
    requires Inv(s) && t < |s.pcs| && s.pcs[t].WrCheck?
    requires s.pcs[t].failed
    ensures Inv(DoCheck(s, t))
  {
    Moved(s.pcs, t, DoCheck(s, t).pcs[t]);
  }

  lemma KeepsCheckAgain(s: State, t: Thread)
    requires Inv(s) && t < |s.pcs| && s.pcs[t].WrCheck?
    requires !s.pcs[t].failed
    requires s.completed < 0
    ensures Inv(DoCheck(s, t))
  {
    Moved(s.pcs, t, DoCheck(s, t).pcs[t]);
  }

  lemma KeepsCheckDrained(s: State, t: Thread)
    requires Inv(s) && t < |s.pcs| && s.pcs[t].WrCheck?
    requires !s.pcs[t].failed
    requires s.completed >= 0
    ensures Inv(DoCheck(s, t))
  {
    Moved(s.pcs, t, DoCheck(s, t).pcs[t]);
  }

  lemma KeepsCheckWoken(s: State, t: Thread)
    requires Inv(s) && t < |s.pcs| && s.pcs[t].WrCheck?
    requires !s.pcs[t].failed
    ensures Inv(DoCheck(s, t))
  {
    if s.completed < 0 {
      KeepsCheckAgain(s, t);
    } else {
      KeepsCheckDrained(s, t);
    }
  }

  lemma KeepsCheck(s: State, t: Thread)
    requires Inv(s) && t < |s.pcs| && s.pcs[t].WrCheck?
    ensures Inv(DoCheck(s, t))
  {
    if s.pcs[t].failed {
      KeepsCheckFailed(s, t);
    } else {
      KeepsCheckWoken(s, t);
    }
  }

  lemma KeepsUnlockBusyShared(s: State, t: Thread)
    requires Inv(s) && t < |s.pcs| && s.pcs[t] == BusyUnlockShared
    ensures Inv(Go(s.(mtxShared := Nobody), t, BusyUnlock))
  {
    Moved(s.pcs, t, BusyUnlock);
  }

  lemma KeepsUnlockBusy(s: State, t: Thread)
    requires Inv(s) && t < |s.pcs| && s.pcs[t] == BusyUnlock
    ensures Inv(Go(s.(mtxExclusive := Nobody), t, Idle))
  {
    Moved(s.pcs, t, Idle);
  }

  lemma KeepsCancel(s: State, t: Thread)
    requires Inv(s) && t < |s.pcs| && s.pcs[t] == Cancelling
    ensures Inv(Go(s.(shared := -s.completed, completed := 0), t, CancelUnlockShared))
  {
    Moved(s.pcs, t, CancelUnlockShared);
  }

  lemma KeepsUnlockCancelShared(s: State, t: Thread)
    requires Inv(s) && t < |s.pcs| && s.pcs[t] == CancelUnlockShared
    ensures Inv(Go(s.(mtxShared := Nobody), t, CancelUnlock))
  {
    Moved(s.pcs, t, CancelUnlock);
  }

  lemma KeepsUnlockCancel(s: State, t: Thread)
    requires Inv(s) && t < |s.pcs| && s.pcs[t] == CancelUnlock
    ensures Inv(Go(s.(mtxExclusive := Nobody), t, Idle))
  {
    Moved(s.pcs, t, Idle);
  }

  lemma WriteKeepsInv(s: State, t: Thread, a: WriteStep)
    requires Inv(s) && t < |s.pcs| && WriteEnabled(s, t, a)
    ensures Inv(WriteApply(s, t, a))
  {
    match a
    case CallWrite(mode) => KeepsCallWrite(s, t, mode);
    case LockWrite => KeepsLockWrite(s, t);
    case RefuseWrite => KeepsRefuseWrite(s, t);
    case LockShared => KeepsLockShared(s, t);
    case RefuseShared => KeepsRefuseShared(s, t);
    case GiveBack => KeepsGiveBack(s, t);
    case Test => KeepsTest(s, t);
    case Wake(failed) => KeepsWake(s, t, failed);
    case Relock => KeepsRelock(s, t);
    case Check => KeepsCheck(s, t);
    case UnlockBusyShared => KeepsUnlockBusyShared(s, t);
    case UnlockBusy => KeepsUnlockBusy(s, t);
    case Cancel => KeepsCancel(s, t);
    case UnlockCancelShared => KeepsUnlockCancelShared(s, t);
    case UnlockCancel => KeepsUnlockCancel(s, t);
  }

  lemma KeepsCallUnlock(s: State, t: Thread)
    requires Inv(s) && t < |s.pcs| && (s.pcs[t] == Reading || s.pcs[t] == Writing)
    ensures Inv(Go(s, t, Deciding(s.pcs[t] == Writing)))
  {
    if s.pcs[t] == Reading {
      KeepsOutside(s, t, Deciding(false));
    } else {
      Moved(s.pcs, t, Deciding(true));
    }
  }

  lemma DecideWriter(s: State, t: Thread)
    requires Inv(s) && t < |s.pcs| && s.pcs[t] == Deciding(true)
    ensures s.exclusive != 0 && Inv(Go(s, t, UwCount))
  {
    Moved(s.pcs, t, UwCount);
  }

  lemma DecideReader(s: State, t: Thread)
    requires Inv(s) && t < |s.pcs| && s.pcs[t] == Deciding(false)
    ensures s.exclusive == 0 && Inv(Go(s, t, UrLock))
  {
    SumAtLeast(s.pcs, t, Active);
    KeepsOutside(s, t, UrLock);
  }

  lemma KeepsDecide(s: State, t: Thread)
    requires Inv(s) && t < |s.pcs| && s.pcs[t].Deciding?
    ensures Inv(Go(s, t, if s.exclusive == 0 then UrLock else UwCount))
  {
    if s.pcs[t].writer {
      DecideWriter(s, t);
    } else {
      DecideReader(s, t);
    }
  }

  lemma KeepsLockCompleted(s: State, t: Thread)
    requires Inv(s) && t < |s.pcs| && s.pcs[t] == UrLock && s.mtxShared == Nobody
    ensures Inv(Go(s.(mtxShared := By(t)), t, UrCount))
  {
    Moved(s.pcs, t, UrCount);
  }

  lemma KeepsCountLast(s: State, t: Thread)
    requires Inv(s) && t < |s.pcs| && s.pcs[t] == UrCount
    requires s.completed + 1 == 0
    ensures Inv(Go(s.(completed := s.completed + 1), t, if s.completed + 1 == 0 then UrSignal else UrUnlock))
  {
    Moved(s.pcs, t, if s.completed + 1 == 0 then UrSignal else UrUnlock);
  }

  lemma KeepsCountNotLast(s: State, t: Thread)
    requires Inv(s) && t < |s.pcs| && s.pcs[t] == UrCount
    requires s.completed + 1 != 0
    ensures Inv(Go(s.(completed := s.completed + 1), t, if s.completed + 1 == 0 then UrSignal else UrUnlock))
  {
    Moved(s.pcs, t, if s.completed + 1 == 0 then UrSignal else UrUnlock);
  }

  lemma KeepsCountCompleted(s: State, t: Thread)
    requires Inv(s) && t < |s.pcs| && s.pcs[t] == UrCount
    ensures Inv(Go(s.(completed := s.completed + 1), t, if s.completed + 1 == 0 then UrSignal else UrUnlock))
  {
    if s.completed + 1 == 0 {
      KeepsCountLast(s, t);
    } else {
      KeepsCountNotLast(s, t);
    }
  }

  lemma KeepsSignalWriter(s: State, t: Thread)
    requires Inv(s) && t < |s.pcs| && s.pcs[t] == UrSignal
    ensures Inv(Go(s.(woken := s.woken || HolderPc(s).Draining?), t, UrUnlock))
  {
    Moved(s.pcs, t, UrUnlock);
  }

  lemma KeepsUnlockCompleted(s: State, t: Thread)
    requires Inv(s) && t < |s.pcs| && s.pcs[t] == UrUnlock
    ensures Inv(Go(s.(mtxShared := Nobody), t, Idle))
  {
    Moved(s.pcs, t, Idle);
  }

  lemma KeepsCountWriter(s: State, t: Thread)
    requires Inv(s) && t < |s.pcs| && s.pcs[t] == UwCount
    ensures Inv(Go(s.(exclusive := s.exclusive - 1), t, UwUnlockShared))
  {
    Moved(s.pcs, t, UwUnlockShared);
  }

  lemma KeepsUnlockWriterShared(s: State, t: Thread)
    requires Inv(s) && t < |s.pcs| && s.pcs[t] == UwUnlockShared
    ensures Inv(Go(s.(mtxShared := Nobody), t, UwUnlock))
  {
    Moved(s.pcs, t, UwUnlock);
  }

  lemma KeepsUnlockWriter(s: State, t: Thread)
    requires Inv(s) && t < |s.pcs| && s.pcs[t] == UwUnlock
    ensures Inv(Go(s.(mtxExclusive := Nobody), t, Idle))
  {
    Moved(s.pcs, t, Idle);
  }

  lemma UnlockKeepsInv(s: State, t: Thread, a: UnlockStep)
    requires Inv(s) && t < |s.pcs| && UnlockEnabled(s, t, a)
    ensures Inv(UnlockApply(s, t, a))
  {
    match a
    case CallUnlock => KeepsCallUnlock(s, t);
    case Decide => KeepsDecide(s, t);
    case LockCompleted => KeepsLockCompleted(s, t);
    case CountCompleted => KeepsCountCompleted(s, t);
    case SignalWriter => KeepsSignalWriter(s, t);
    case UnlockCompleted => KeepsUnlockCompleted(s, t);
    case CountWriter => KeepsCountWriter(s, t);
    case UnlockWriterShared => KeepsUnlockWriterShared(s, t);
    case UnlockWriter => KeepsUnlockWriter(s, t);
  }

  lemma StepKeepsInv(s: State, t: Thread, a: Action)
    requires Inv(s) && Enabled(s, t, a)
    ensures Inv(Apply(s, t, a))
  {
    match a
    case Read(r) => ReadKeepsInv(s, t, r);
    case Write(w) => WriteKeepsInv(s, t, w);
    case Release(u) => UnlockKeepsInv(s, t, u);
  }

  // ---------- runs ----------

  ghost predicate Next(s: State, s': State)
  {
    exists t, a :: Enabled(s, t, a) && s' == Apply(s, t, a)
  }

  ghost predicate Run(tr: seq<State>, threads: nat)
  {
    IsRun(tr, Next) && threads < INT_MAX && tr[0] == Initial(threads)
  }

  ghost predicate Reachable(s: State)
  {
    exists tr: seq<State>, threads: nat :: Run(tr, threads) && s == tr[|tr| - 1]
  }

  lemma NextKeepsInv(s: State, s': State)
    requires Inv(s) && Next(s, s')
    ensures Inv(s')
  {
    var t, a :| Enabled(s, t, a) && s' == Apply(s, t, a);
    StepKeepsInv(s, t, a);
  }

  lemma RunsKeepInv(tr: seq<State>, threads: nat)
    requires Run(tr, threads)
    ensures Inv(tr[|tr| - 1])
  {
    InitialInv(threads);
    forall s: State, s': State | Inv(s) && Next(s, s') ensures Inv(s') {
      NextKeepsInv(s, s');
    }
    RunKeeps(tr, Next, Inv);
  }

  lemma ReachableInv(s: State)
    requires Reachable(s)
    ensures Inv(s)
  {
    var tr: seq<State>, threads: nat :| Run(tr, threads) && s == tr[|tr| - 1];
    RunsKeepInv(tr, threads);
  }

  // ---------- what the lock is for ----------

  /** A thread that holds the write lock excludes every other holder. */
  lemma WriterExcludesAll(s: State, t: Thread, u: Thread)
    requires Reachable(s) && t < |s.pcs| && u < |s.pcs| && WriterPc(s.pcs[t])
    ensures Active(s.pcs[u]) == 0
    ensures WriterPc(s.pcs[u]) ==> u == t
  {
    ReachableInv(s);
    SumAtLeast(s.pcs, u, Active);
  }

  /** The counts account exactly for the readers, whether or not a writer is draining them. */
  lemma CountsAccountForReaders(s: State)
    requires Reachable(s)
    ensures Sum(s.pcs, Active) == if Drains(HolderPc(s)) then -s.completed else s.shared - s.completed
    ensures 0 <= s.shared <= INT_MAX && -INT_MAX <= s.completed <= INT_MAX && 0 <= s.exclusive <= 1
  {
    ReachableInv(s);
    HeadCount(s.pcs);
  }

  /** The unlocked read of nExclusiveAccessCount always selects the caller's own branch. */
  lemma UnlockTakesOwnBranch(s: State, t: Thread)
    requires Reachable(s) && t < |s.pcs| && s.pcs[t].Deciding?
    ensures s.exclusive == 0 <==> !s.pcs[t].writer
  {
    ReachableInv(s);
    SumAtLeast(s.pcs, t, Active);
  }

  /** The writers' test never meets another writer, so trywrlock never returns with both mutexes held. */
  lemma TestMeetsNoWriter(s: State, t: Thread)
    requires Reachable(s) && t < |s.pcs| && s.pcs[t].WrTest?
    ensures s.exclusive == 0
  {
    ReachableInv(s);
  }

  lemma ReadWhileDraining(s: State, t: Thread, a: ReadStep)
    requires Inv(s) && t < |s.pcs| && ReadEnabled(s, t, a) && Drains(HolderPc(s))
    ensures Active(ReadApply(s, t, a).pcs[t]) <= Active(s.pcs[t])
    ensures ReadApply(s, t, a).pcs[t] != Reading
  {
  }

  lemma WriteWhileDraining(s: State, t: Thread, a: WriteStep)
    requires Inv(s) && t < |s.pcs| && WriteEnabled(s, t, a) && Drains(HolderPc(s))
    ensures Active(WriteApply(s, t, a).pcs[t]) <= Active(s.pcs[t])
    ensures WriteApply(s, t, a).pcs[t] != Reading
  {
  }

  lemma UnlockWhileDraining(s: State, t: Thread, a: UnlockStep)
    requires Inv(s) && t < |s.pcs| && UnlockEnabled(s, t, a) && Drains(HolderPc(s))
    ensures Active(UnlockApply(s, t, a).pcs[t]) <= Active(s.pcs[t])
    ensures UnlockApply(s, t, a).pcs[t] != Reading
  {
  }

  /** While a writer drains, no reader enters and the active readers only decrease. */
  lemma DrainingOnlyDecreases(s: State, t: Thread, a: Action, u: Thread)
    requires Reachable(s) && Enabled(s, t, a) && Drains(HolderPc(s)) && u < |s.pcs|
    ensures Sum(Apply(s, t, a).pcs, Active) <= Sum(s.pcs, Active)
    ensures Apply(s, t, a).pcs[u] == Reading ==> s.pcs[u] == Reading
  {
    ReachableInv(s);
    OneThreadMoves(s, t, a);
    Moved(s.pcs, t, Apply(s, t, a).pcs[t]);
    match a
    case Read(r) => ReadWhileDraining(s, t, r);
    case Write(w) => WriteWhileDraining(s, t, w);
    case Release(x) => UnlockWhileDraining(s, t, x);
  }

  lemma OneThreadMoves(s: State, t: Thread, a: Action)
    requires Enabled(s, t, a)
    ensures |Apply(s, t, a).pcs| == |s.pcs| && Apply(s, t, a).pcs == s.pcs[t := Apply(s, t, a).pcs[t]]
  {
    match a
    case Read(r) =>
    case Write(w) => OneWriterMoves(s, t, w);
    case Release(x) =>
  }

  lemma OneWriterMoves(s: State, t: Thread, a: WriteStep)
    requires t < |s.pcs| && WriteEnabled(s, t, a)
    ensures |WriteApply(s, t, a).pcs| == |s.pcs| && WriteApply(s, t, a).pcs == s.pcs[t := WriteApply(s, t, a).pcs[t]]
  {
  }

  /** A reader that completes goes on to signal exactly when it was the last one drained. */
  lemma SignalExactlyAtZero(s: State, t: Thread)
    requires Reachable(s) && t < |s.pcs| && s.pcs[t] == UrCount
    ensures var s' := UnlockApply(s, t, CountCompleted);
            s'.pcs[t] == UrSignal <==> Drains(HolderPc(s)) && Sum(s'.pcs, Active) == 0
  {
    ReachableInv(s);
    Moved(s.pcs, t, UnlockApply(s, t, CountCompleted).pcs[t]);
  }

  /** A draining writer is not left asleep once its readers are gone. */
  lemma DrainedWriterIsWoken(s: State, t: Thread)
    requires Reachable(s) && t < |s.pcs| && s.pcs[t].Draining? && Sum(s.pcs, Active) == 0
    ensures s.woken || SharedHolderPc(s) == UrSignal
  {
    ReachableInv(s);
  }

  /** A drained writer enters; one that gave up restores the exact count and frees both mutexes. */
  lemma GivingUpRestoresReaders(s: State, t: Thread)
    requires Reachable(s) && t < |s.pcs| && s.pcs[t] == Cancelling
    ensures var s1 := WriteApply(s, t, Cancel);
            var s2 := WriteApply(s1, t, UnlockCancelShared);
            var s3 := WriteApply(s2, t, UnlockCancel);
            && s1.shared == Sum(s.pcs, Active) && s1.completed == 0
            && s3 == s1.(mtxShared := Nobody, mtxExclusive := Nobody, pcs := s.pcs[t := Idle])
            && Sum(s3.pcs, Active) == s3.shared - s3.completed
  {
    ReachableInv(s);
    Moved(s.pcs, t, Idle);
    assert s.pcs[t := CancelUnlockShared][t := CancelUnlock][t := Idle] == s.pcs[t := Idle];
  }

  /**
   The same clean-up among whatever steps of others: until `t` has freed the inner mutex
   nobody else changes a count, and each of the two mutexes is `t`'s own until `t` frees it.
   */
  lemma GivingUpAmongOthers(s: State, t: Thread, u: Thread, a: Action)
    requires Reachable(s) && t < |s.pcs| && Enabled(s, u, a)
    requires s.pcs[t] == CancelUnlockShared || s.pcs[t] == CancelUnlock
    ensures var s' := Apply(s, u, a);
      && s.mtxExclusive == By(t) && (s.mtxShared == By(t) <==> s.pcs[t] == CancelUnlockShared)
      && Sum(s.pcs, Active) == s.shared - s.completed
      && (u == t && s.pcs[t] == CancelUnlockShared ==>
            s' == s.(mtxShared := Nobody, pcs := s.pcs[t := CancelUnlock]))
      && (u == t && s.pcs[t] == CancelUnlock ==> s' == s.(mtxExclusive := Nobody, pcs := s.pcs[t := Idle]))
      && (u != t ==> |s'.pcs| == |s.pcs| && s'.pcs[t] == s.pcs[t] && s'.mtxExclusive == By(t))
      && (u != t && s.pcs[t] == CancelUnlockShared ==>
            s'.mtxShared == By(t) && s'.shared == s.shared && s'.completed == s.completed)
  {
    ReachableInv(s);
    assert HoldsExclusive(s.pcs[u]) ==> s.mtxExclusive == By(u);
    assert HoldsShared(s.pcs[u]) ==> s.mtxShared == By(u);
    OneThreadMoves(s, u, a);
    if u != t {
      match a
      case Read(r) => ReadBeside(s, t, u, r);
      case Write(w) => WriteBeside(s, t, u, w);
      case Release(x) => UnlockBeside(s, t, u, x);
    }
  }

  // What a step of `u` leaves alone while `t` holds the mutexes of its clean-up.

  lemma ReadBeside(s: State, t: Thread, u: Thread, a: ReadStep)
    requires t < |s.pcs| && u < |s.pcs| && u != t && ReadEnabled(s, u, a) && s.mtxExclusive == By(t)
    requires (HoldsExclusive(s.pcs[u]) ==> s.mtxExclusive == By(u)) && (HoldsShared(s.pcs[u]) ==> s.mtxShared == By(u))
    ensures var s' := ReadApply(s, u, a);
      s'.mtxExclusive == By(t) &&
      (s.mtxShared == By(t) ==> s'.mtxShared == By(t) && s'.shared == s.shared && s'.completed == s.completed)
  {
  }

  lemma WriteBeside(s: State, t: Thread, u: Thread, a: WriteStep)
    requires t < |s.pcs| && u < |s.pcs| && u != t && WriteEnabled(s, u, a) && s.mtxExclusive == By(t)
    requires (HoldsExclusive(s.pcs[u]) ==> s.mtxExclusive == By(u)) && (HoldsShared(s.pcs[u]) ==> s.mtxShared == By(u))
    ensures var s' := WriteApply(s, u, a);
      s'.mtxExclusive == By(t) &&
      (s.mtxShared == By(t) ==> s'.mtxShared == By(t) && s'.shared == s.shared && s'.completed == s.completed)
  {
  }

  lemma UnlockBeside(s: State, t: Thread, u: Thread, a: UnlockStep)
    requires t < |s.pcs| && u < |s.pcs| && u != t && UnlockEnabled(s, u, a) && s.mtxExclusive == By(t)
    requires (HoldsExclusive(s.pcs[u]) ==> s.mtxExclusive == By(u)) && (HoldsShared(s.pcs[u]) ==> s.mtxShared == By(u))
    ensures var s' := UnlockApply(s, u, a);
      s'.mtxExclusive == By(t) &&
      (s.mtxShared == By(t) ==> s'.mtxShared == By(t) && s'.shared == s.shared && s'.completed == s.completed)
  {
  }

  // ---------- deadlock freedom ----------

  /** Left to callers, clock and chance: calls, timeouts, wakeups for no reason. */
  predicate External(s: State, t: Thread, a: Action)
    requires t < |s.pcs|
  {
    match a
    case Read(r) => r.CallRead?
    case Write(w) =>
      w.CallWrite? || (w.Wake? && (!s.woken || w.failed))
      || (w.RefuseWrite? && s.pcs[t].WrLock? && s.pcs[t].mode == Timed)
      || (w.RefuseShared? && s.pcs[t].WrLockShared? && s.pcs[t].mode == Timed)
    case Release(u) => u.CallUnlock?
  }

  ghost predicate Stuck(s: State)
  {
    forall t, a :: Enabled(s, t, a) ==> External(s, t, a)
  }

  function Proceed(pc: Pc): Action
  {
    match pc
    case Idle => Read(CallRead)
    case RdLock => Read(LockRead)
    case RdCount => Read(CountRead)
    case RdFoldLock => Read(LockFold)
    case RdFold => Read(Fold)
    case RdFoldUnlock => Read(UnlockFold)
    case RdUnlock => Read(UnlockRead)
    case Reading => Release(CallUnlock)
    case WrLock(_) => Write(LockWrite)
    case WrLockShared(_) => Write(LockShared)
    case WrGiveBack => Write(GiveBack)
    case WrTest(_) => Write(Test)
    case Draining(_) => Write(Wake(false))
    case Waking(_, _) => Write(Relock)
    case WrCheck(_, _) => Write(Check)
    case BusyUnlockShared => Write(UnlockBusyShared)
    case BusyUnlock => Write(UnlockBusy)
    case Writing => Release(CallUnlock)
    case Cancelling => Write(Cancel)
    case CancelUnlockShared => Write(UnlockCancelShared)
    case CancelUnlock => Write(UnlockCancel)
    case Deciding(_) => Release(Decide)
    case UrLock => Release(LockCompleted)
    case UrCount => Release(CountCompleted)
    case UrSignal => Release(SignalWriter)
    case UrUnlock => Release(UnlockCompleted)
    case UwCount => Release(CountWriter)
    case UwUnlockShared => Release(UnlockWriterShared)
    case UwUnlock => Release(UnlockWriter)
  }

  /** In a stuck state only these program points remain, each waiting for what it names. */
  lemma Quiet(s: State, t: Thread)
    requires Stuck(s) && t < |s.pcs|
    ensures var pc := s.pcs[t];
            || pc == Idle || pc == Reading || pc == Writing
            || ((pc.RdLock? || pc.WrLock?) && s.mtxExclusive != Nobody)
            || ((pc.RdFoldLock? || pc.WrLockShared? || pc.Waking? || pc.UrLock?) && s.mtxShared != Nobody)
            || (pc.Draining? && !s.woken)
  {
    assert Enabled(s, t, Proceed(s.pcs[t])) ==> External(s, t, Proceed(s.pcs[t]));
  }

  /**
   Deadlock freedom. Once every holder has let go, a state in which no operation can take
   a step is one in which no operation is in progress.
   */
  lemma StuckOnlyWhileHeld(s: State, t: Thread)
    requires Reachable(s) && Stuck(s) && t < |s.pcs|
    requires forall u: Thread :: u < |s.pcs| ==> s.pcs[u] != Reading && s.pcs[u] != Writing
    ensures s.pcs[t] == Idle && s.mtxExclusive == Nobody && s.mtxShared == Nobody
  {
    ReachableInv(s);
    if s.mtxShared.By? {
      Quiet(s, s.mtxShared.thread);
    }
    if s.mtxExclusive.By? {
      Quiet(s, s.mtxExclusive.thread);
      if Sum(s.pcs, Active) > 0 {
        var u := SumWitness(s.pcs, Active);
        Quiet(s, u);
      }
    }
    Quiet(s, t);
  }
}
