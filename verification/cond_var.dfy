/**
 The condition variable of pthread_cond_wait.c, pthread_cond_signal.c and
 pthread_cond_destroy.c (Terekhov's algorithm 9): three counters, the gate semaphore
 semBlockLock, the queue semaphore semBlockQueue and the inner mutex mtxUnblockLock.

 One action per semaphore or mutex operation and per lock-protected section, for any
 number of threads. The caller's own mutex plays no part in the counting laws and is not
 part of the state. `steals` and `spurious` are history and are never read.
 */
module CondVar {
  import opened Population
  import opened Runs

  type Thread = nat

  /** INT_MAX / 2, at which the waiters that have gone are subtracted. */
  const FOLD: nat := 0x7fff_ffff / 2

  datatype Holder = Nobody | By(thread: Thread)

  datatype Pc =
    | Idle
    // wait (pthread_cond_wait.c)
    | AtGate                     // line 389
    | Registering                // line 394
    | LeavingGate                // line 396
    | Sleeping                   // lines 416, 435
    | Retiring(took: bool)       // line 295
    | Counting(took: bool)       // line 301
    | FoldGate                   // line 308
    | FoldSubtract               // line 318
    | FoldPost                   // line 319
    | FoldClear                  // line 329
    | Unlocking(left: nat)       // line 332
    | Reopening                  // line 340
    // signal and broadcast (pthread_cond_signal.c)
    | SignalLock(all: bool)      // line 92
    | SignalTest(all: bool)      // line 97
    | SignalGate(all: bool)      // line 118
    | SignalMove(all: bool)      // line 124
    | SignalUnlock(count: nat)   // lines 101, 142, 145
    | SignalPost(count: nat)     // line 147
    // destroy (pthread_cond_destroy.c)
    | DestroyGate                // line 144
    | DestroyTry                 // line 155
    | DestroyBackOff             // line 157
    | DestroyCheck               // line 170
    | BusyPost                   // line 172
    | BusyUnlock                 // line 176
    | Freed                      // lines 184-219

  datatype State = State(
    blocked: int, gone: int, toUnblock: int,
    gate: nat, queue: nat, mtx: Holder, alive: bool,
    pcs: seq<Pc>,
    steals: nat, spurious: nat)

  datatype WaitStep =
    | CallWait | Cancel | PassGate | Register | LeaveGate | Take | GiveUp | LockRetire | Count
    | PassFoldGate | Subtract | PostFold | ClearGone | Unlock | Reopen

  datatype SignalStep =
    | CallSignal(all: bool) | LockSignal | Test | PassSignalGate | MoveWaiters | UnlockSignal | PostQueue

  datatype DestroyStep =
    | CallDestroy | PassDestroyGate | TryMutex | BackOff | Check | PostBusy | UnlockBusy

  datatype Action = Wait(w: WaitStep) | Signal(g: SignalStep) | Destroy(d: DestroyStep)

  predicate WaitEnabled(s: State, t: Thread, a: WaitStep)
    requires t < |s.pcs|
  {
    match a
    case CallWait => s.pcs[t] == Idle
    case Cancel => s.pcs[t] == AtGate
    case PassGate => s.pcs[t] == AtGate && s.gate > 0
    case Register => s.pcs[t] == Registering
    case LeaveGate => s.pcs[t] == LeavingGate
    case Take => s.pcs[t] == Sleeping && s.queue > 0
    case GiveUp => s.pcs[t] == Sleeping
    case LockRetire => s.pcs[t].Retiring? && s.mtx == Nobody
    case Count => s.pcs[t].Counting?
    case PassFoldGate => s.pcs[t] == FoldGate && s.gate > 0
    case Subtract => s.pcs[t] == FoldSubtract
    case PostFold => s.pcs[t] == FoldPost
    case ClearGone => s.pcs[t] == FoldClear
    case Unlock => s.pcs[t].Unlocking?
    case Reopen => s.pcs[t] == Reopening
  }

  predicate SignalEnabled(s: State, t: Thread, a: SignalStep)
    requires t < |s.pcs|
  {
    match a
    case CallSignal(_) => s.pcs[t] == Idle
    case LockSignal => s.pcs[t].SignalLock? && s.mtx == Nobody
    case Test => s.pcs[t].SignalTest?
    case PassSignalGate => s.pcs[t].SignalGate? && s.gate > 0
    case MoveWaiters => s.pcs[t].SignalMove?
    case UnlockSignal => s.pcs[t].SignalUnlock?
    case PostQueue => s.pcs[t].SignalPost?
  }

  predicate DestroyEnabled(s: State, t: Thread, a: DestroyStep)
    requires t < |s.pcs|
  {
    match a
    case CallDestroy => s.pcs[t] == Idle
    case PassDestroyGate => s.pcs[t] == DestroyGate && s.gate > 0
    case TryMutex => s.pcs[t] == DestroyTry
    case BackOff => s.pcs[t] == DestroyBackOff
    case Check => s.pcs[t] == DestroyCheck
    case PostBusy => s.pcs[t] == BusyPost
    case UnlockBusy => s.pcs[t] == BusyUnlock
  }

  /** When thread `t` can perform `a`; no step is taken on a destroyed object. */
  predicate Enabled(s: State, t: Thread, a: Action)
  {
    t < |s.pcs| && s.alive &&
    match a
    case Wait(w) => WaitEnabled(s, t, w)
    case Signal(g) => SignalEnabled(s, t, g)
    case Destroy(d) => DestroyEnabled(s, t, d)
  }

  function Go(s: State, t: Thread, pc: Pc): State
    requires t < |s.pcs|
  {
    s.(pcs := s.pcs[t := pc])
  }

  /** The waiter's section under mtxUnblockLock, lines 301-330 of pthread_cond_wait.c. */
  function DoCount(s: State, t: Thread): State
    requires t < |s.pcs| && s.pcs[t].Counting?
  {
    var took := s.pcs[t].took;
    if s.toUnblock != 0 then
      Go(s.(toUnblock := s.toUnblock - 1, steals := if took then s.steals else s.steals + 1),
         t, Unlocking(if s.toUnblock > 0 then s.toUnblock else 0))
    else
      var s' := s.(gone := s.gone + 1, spurious := if took then s.spurious + 1 else s.spurious);
      Go(s', t, if s'.gone == FOLD then FoldGate else Unlocking(0))
  }

  /** The signaller's section under mtxUnblockLock, lines 97-143 of pthread_cond_signal.c. */
  function DoTest(s: State, t: Thread): State
    requires t < |s.pcs| && s.pcs[t].SignalTest?
  {
    var all := s.pcs[t].all;
    if s.toUnblock != 0 then
      if s.blocked == 0 then Go(s, t, SignalUnlock(0))
      else if all then
        Go(s.(toUnblock := s.toUnblock + s.blocked, blocked := 0), t, SignalUnlock(Nat(s.blocked)))
      else
        Go(s.(toUnblock := s.toUnblock + 1, blocked := s.blocked - 1), t, SignalUnlock(1))
    else if s.blocked > s.gone then Go(s, t, SignalGate(all))
    else Go(s, t, SignalUnlock(0))
  }

  /** The same section behind the closed gate, lines 124-138 of pthread_cond_signal.c. */
  function DoMove(s: State, t: Thread): State
    requires t < |s.pcs| && s.pcs[t].SignalMove?
  {
    var s' := if s.gone != 0 then s.(blocked := s.blocked - s.gone, gone := 0) else s;
    if s.pcs[t].all then
      Go(s'.(toUnblock := s'.blocked, blocked := 0), t, SignalUnlock(Nat(s'.blocked)))
    else
      Go(s'.(toUnblock := 1, blocked := s'.blocked - 1), t, SignalUnlock(1))
  }

  function Nat(i: int): nat
  {
    if i < 0 then 0 else i
  }

  function WaitApply(s: State, t: Thread, a: WaitStep): State
    requires t < |s.pcs| && WaitEnabled(s, t, a)
  {
    match a
    case CallWait => Go(s, t, AtGate)
    case Cancel => Go(s, t, Idle)
    case PassGate => Go(s.(gate := s.gate - 1), t, Registering)
    case Register => Go(s.(blocked := s.blocked + 1), t, LeavingGate)
    case LeaveGate => Go(s.(gate := s.gate + 1), t, Sleeping)
    case Take => Go(s.(queue := s.queue - 1), t, Retiring(true))
    case GiveUp => Go(s, t, Retiring(false))
    case LockRetire => Go(s.(mtx := By(t)), t, Counting(s.pcs[t].took))
    case Count => DoCount(s, t)
    case PassFoldGate => Go(s.(gate := s.gate - 1), t, FoldSubtract)
    case Subtract => Go(s.(blocked := s.blocked - s.gone), t, FoldPost)
    case PostFold => Go(s.(gate := s.gate + 1), t, FoldClear)
    case ClearGone => Go(s.(gone := 0), t, Unlocking(0))
    case Unlock => Go(s.(mtx := Nobody), t, if s.pcs[t].left == 1 then Reopening else Idle)
    case Reopen => Go(s.(gate := s.gate + 1), t, Idle)
  }

  function SignalApply(s: State, t: Thread, a: SignalStep): State
    requires t < |s.pcs| && SignalEnabled(s, t, a)
  {
    match a
    case CallSignal(all) => Go(s, t, SignalLock(all))
    case LockSignal => Go(s.(mtx := By(t)), t, SignalTest(s.pcs[t].all))
    case Test => DoTest(s, t)
    case PassSignalGate => Go(s.(gate := s.gate - 1), t, SignalMove(s.pcs[t].all))
    case MoveWaiters => DoMove(s, t)
    case UnlockSignal =>
      Go(s.(mtx := Nobody), t, if s.pcs[t].count == 0 then Idle else SignalPost(s.pcs[t].count))
    case PostQueue => Go(s.(queue := s.queue + s.pcs[t].count), t, Idle)
  }

  function DestroyApply(s: State, t: Thread, a: DestroyStep): State
    requires t < |s.pcs| && DestroyEnabled(s, t, a)
  {
    match a
    case CallDestroy => Go(s, t, DestroyGate)
    case PassDestroyGate => Go(s.(gate := s.gate - 1), t, DestroyTry)
    case TryMutex =>
      if s.mtx == Nobody then Go(s.(mtx := By(t)), t, DestroyCheck) else Go(s, t, DestroyBackOff)
    case BackOff => Go(s.(gate := s.gate + 1), t, Idle)
    case Check =>
      if s.blocked > s.gone then Go(s, t, BusyPost) else Go(s.(alive := false), t, Freed)
    case PostBusy => Go(s.(gate := s.gate + 1), t, BusyUnlock)
    case UnlockBusy => Go(s.(mtx := Nobody), t, Idle)
  }

  function Apply(s: State, t: Thread, a: Action): State
    requires Enabled(s, t, a)
  {
    match a
    case Wait(w) => WaitApply(s, t, w)
    case Signal(g) => SignalApply(s, t, g)
    case Destroy(d) => DestroyApply(s, t, d)
  }

  function Initial(threads: nat): State
  {
    State(0, 0, 0, 1, 0, Nobody, true, seq(threads, _ => Idle), 0, 0)
  }

  // ---------- who is where ----------

  /** Registered as a waiter and not yet retired. */
  function Registered(pc: Pc): nat
  {
    if pc.LeavingGate? || pc.Sleeping? || pc.Retiring? || pc.Counting? then 1 else 0
  }

  /** Has closed the gate, or must open it because it retired the last signalled waiter. */
  function HoldsGate(pc: Pc): nat
  {
    if pc.Registering? || pc.LeavingGate? || pc.FoldSubtract? || pc.FoldPost? || pc.SignalMove?
       || (pc.Unlocking? && pc.left == 1) || pc.Reopening?
       || pc.DestroyTry? || pc.DestroyBackOff? || pc.DestroyCheck? || pc.BusyPost? || pc.Freed?
    then 1 else 0
  }

  predicate HoldsMutex(pc: Pc)
  {
    pc.Counting? || pc.FoldGate? || pc.FoldSubtract? || pc.FoldPost? || pc.FoldClear? || pc.Unlocking?
    || pc.SignalTest? || pc.SignalGate? || pc.SignalMove? || pc.SignalUnlock?
    || pc.DestroyCheck? || pc.BusyPost? || pc.BusyUnlock? || pc.Freed?
  }

  /** Tokens that a signaller is about to post on the queue semaphore. */
  function ToPost(pc: Pc): nat
  {
    if pc.SignalUnlock? || pc.SignalPost? then pc.count else 0
  }

  /** Took a token and has not yet retired. */
  function Took(pc: Pc): nat
  {
    if (pc.Retiring? || pc.Counting?) && pc.took then 1 else 0
  }

  /** Between the subtraction of the waiters that have gone and the clearing of their count. */
  predicate Settling(pc: Pc)
  {
    pc.FoldPost? || pc.FoldClear?
  }

  // ---------- the invariant ----------

  /** What the thread inside mtxUnblockLock knows about the counters. */
  predicate SectionOk(s: State, pc: Pc)
  {
    && (pc.SignalGate? || pc.SignalMove? ==> s.toUnblock == 0 && s.blocked > s.gone)
    && (pc.FoldGate? || pc.FoldSubtract? || Settling(pc) ==> s.toUnblock == 0 && s.gone == FOLD)
    && (!pc.FoldGate? && !pc.FoldSubtract? && !Settling(pc) ==> s.gone < FOLD)
    && (pc.Unlocking? && pc.left == 1 ==> s.toUnblock == 0)
  }

  /** The program counter of the thread inside mtxUnblockLock. */
  function Inside(s: State): Pc
  {
    if s.mtx.By? && s.mtx.thread < |s.pcs| then s.pcs[s.mtx.thread] else Idle
  }

  ghost predicate Inv(s: State)
  {
    && (s.mtx.By? ==> s.mtx.thread < |s.pcs| && HoldsMutex(s.pcs[s.mtx.thread]))
    && (forall t: Thread :: t < |s.pcs| && HoldsMutex(s.pcs[t]) ==> s.mtx == By(t))
    && s.gate + Sum(s.pcs, HoldsGate) + (if s.toUnblock > 0 then 1 else 0) == 1
    && Sum(s.pcs, Registered) == s.blocked - (if Settling(Inside(s)) then 0 else s.gone) + s.toUnblock
    && 0 <= s.toUnblock && 0 <= s.gone && (s.toUnblock > 0 ==> s.gone == 0)
    && (if Settling(Inside(s)) then 0 else s.gone) <= s.blocked
    && SectionOk(s, Inside(s))
    && s.queue + Sum(s.pcs, ToPost) + Sum(s.pcs, Took) + s.spurious == s.toUnblock + s.steals
    && s.spurious <= s.steals
    && (s.alive <==> forall t: Thread :: t < |s.pcs| ==> s.pcs[t] != Freed)
  }

  lemma InitialInv(threads: nat)
    ensures Inv(Initial(threads))
  {
    var pcs := Initial(threads).pcs;
    SumZero(pcs, HoldsGate);
    SumZero(pcs, Registered);
    SumZero(pcs, ToPost);
    SumZero(pcs, Took);
  }

  /** The four head counts when one thread moves. */
  lemma Moved(pcs: seq<Pc>, t: Thread, pc: Pc)
    requires t < |pcs|
    ensures Sum(pcs[t := pc], HoldsGate) + HoldsGate(pcs[t]) == Sum(pcs, HoldsGate) + HoldsGate(pc)
    ensures Sum(pcs[t := pc], Registered) + Registered(pcs[t]) == Sum(pcs, Registered) + Registered(pc)
    ensures Sum(pcs[t := pc], ToPost) + ToPost(pcs[t]) == Sum(pcs, ToPost) + ToPost(pc)
    ensures Sum(pcs[t := pc], Took) + Took(pcs[t]) == Sum(pcs, Took) + Took(pc)
    ensures Sum(pcs, HoldsGate) >= HoldsGate(pcs[t]) && Sum(pcs, Took) >= Took(pcs[t])
  {
    SumUpdate(pcs, t, pc, HoldsGate);
    SumUpdate(pcs, t, pc, Registered);
    SumUpdate(pcs, t, pc, ToPost);
    SumUpdate(pcs, t, pc, Took);
  }

  lemma KeepsCallWait(s: State, t: Thread)
    requires Inv(s) && t < |s.pcs| && s.alive && s.pcs[t] == Idle
    ensures Inv(Go(s, t, AtGate))
  {
    Moved(s.pcs, t, AtGate);
  }

  lemma KeepsCancel(s: State, t: Thread)
    requires Inv(s) && t < |s.pcs| && s.alive && s.pcs[t] == AtGate
    ensures Inv(Go(s, t, Idle))
  {
    Moved(s.pcs, t, Idle);
  }

  lemma KeepsPassGate(s: State, t: Thread)
    requires Inv(s) && t < |s.pcs| && s.alive && s.pcs[t] == AtGate && s.gate > 0
    ensures Inv(Go(s.(gate := s.gate - 1), t, Registering))
  {
    Moved(s.pcs, t, Registering);
  }

  lemma KeepsRegister(s: State, t: Thread)
    requires Inv(s) && t < |s.pcs| && s.alive && s.pcs[t] == Registering
    ensures Inv(Go(s.(blocked := s.blocked + 1), t, LeavingGate))
  {
    Moved(s.pcs, t, LeavingGate);
  }

  lemma KeepsLeaveGate(s: State, t: Thread)
    requires Inv(s) && t < |s.pcs| && s.alive && s.pcs[t] == LeavingGate
    ensures Inv(Go(s.(gate := s.gate + 1), t, Sleeping))
  {
    Moved(s.pcs, t, Sleeping);
  }

  lemma KeepsTake(s: State, t: Thread)
    requires Inv(s) && t < |s.pcs| && s.alive && s.pcs[t] == Sleeping && s.queue > 0
    ensures Inv(Go(s.(queue := s.queue - 1), t, Retiring(true)))
  {
    Moved(s.pcs, t, Retiring(true));
  }

  lemma KeepsGiveUp(s: State, t: Thread)
    requires Inv(s) && t < |s.pcs| && s.alive && s.pcs[t] == Sleeping
    ensures Inv(Go(s, t, Retiring(false)))
  {
    Moved(s.pcs, t, Retiring(false));
  }

  lemma KeepsLockRetire(s: State, t: Thread)
    requires Inv(s) && t < |s.pcs| && s.alive && s.pcs[t].Retiring? && s.mtx == Nobody
    ensures Inv(Go(s.(mtx := By(t)), t, Counting(s.pcs[t].took)))
  {
    Moved(s.pcs, t, Counting(s.pcs[t].took));
  }

  lemma KeepsCountOwed(s: State, t: Thread)
    requires Inv(s) && t < |s.pcs| && s.alive && s.pcs[t].Counting?
    requires s.toUnblock != 0
    ensures Inv(DoCount(s, t))
  {
    Moved(s.pcs, t, DoCount(s, t).pcs[t]);
  }

  lemma KeepsCountGone(s: State, t: Thread)
    requires Inv(s) && t < |s.pcs| && s.alive && s.pcs[t].Counting?
    requires s.toUnblock == 0
    ensures Inv(DoCount(s, t))
  {
    Moved(s.pcs, t, DoCount(s, t).pcs[t]);
  }

  lemma KeepsCount(s: State, t: Thread)
    requires Inv(s) && t < |s.pcs| && s.alive && s.pcs[t].Counting?
    ensures Inv(DoCount(s, t))
  {
    if s.toUnblock != 0 {
      KeepsCountOwed(s, t);
    } else {
      KeepsCountGone(s, t);
    }
  }

  lemma KeepsPassFoldGate(s: State, t: Thread)
    requires Inv(s) && t < |s.pcs| && s.alive && s.pcs[t] == FoldGate && s.gate > 0
    ensures Inv(Go(s.(gate := s.gate - 1), t, FoldSubtract))
  {
    Moved(s.pcs, t, FoldSubtract);
  }

  lemma KeepsSubtract(s: State, t: Thread)
    requires Inv(s) && t < |s.pcs| && s.alive && s.pcs[t] == FoldSubtract
    ensures Inv(Go(s.(blocked := s.blocked - s.gone), t, FoldPost))
  {
    Moved(s.pcs, t, FoldPost);
  }

  lemma KeepsPostFold(s: State, t: Thread)
    requires Inv(s) && t < |s.pcs| && s.alive && s.pcs[t] == FoldPost
    ensures Inv(Go(s.(gate := s.gate + 1), t, FoldClear))
  {
    Moved(s.pcs, t, FoldClear);
  }

  lemma KeepsClearGone(s: State, t: Thread)
    requires Inv(s) && t < |s.pcs| && s.alive && s.pcs[t] == FoldClear
    ensures Inv(Go(s.(gone := 0), t, Unlocking(0)))
  {
    Moved(s.pcs, t, Unlocking(0));
  }

  lemma KeepsUnlockLast(s: State, t: Thread)
    requires Inv(s) && t < |s.pcs| && s.alive && s.pcs[t] == Unlocking(1)
    ensures Inv(Go(s.(mtx := Nobody), t, Reopening))
  {
    Moved(s.pcs, t, Reopening);
  }

  lemma KeepsUnlock(s: State, t: Thread)
    requires Inv(s) && t < |s.pcs| && s.alive && s.pcs[t].Unlocking?
    ensures Inv(Go(s.(mtx := Nobody), t, if s.pcs[t].left == 1 then Reopening else Idle))
  {
    if s.pcs[t].left == 1 {
      KeepsUnlockLast(s, t);
    } else {
      Moved(s.pcs, t, Idle);
    }
  }

  lemma KeepsReopen(s: State, t: Thread)
    requires Inv(s) && t < |s.pcs| && s.alive && s.pcs[t] == Reopening
    ensures Inv(Go(s.(gate := s.gate + 1), t, Idle))
  {
    Moved(s.pcs, t, Idle);
  }

  lemma KeepsCallSignal(s: State, t: Thread, all: bool)
    requires Inv(s) && t < |s.pcs| && s.alive && s.pcs[t] == Idle
    ensures Inv(Go(s, t, SignalLock(all)))
  {
    Moved(s.pcs, t, SignalLock(all));
  }

  lemma KeepsLockSignal(s: State, t: Thread)
    requires Inv(s) && t < |s.pcs| && s.alive && s.pcs[t].SignalLock? && s.mtx == Nobody
    ensures Inv(Go(s.(mtx := By(t)), t, SignalTest(s.pcs[t].all)))
  {
    Moved(s.pcs, t, SignalTest(s.pcs[t].all));
  }

  lemma KeepsTestOpen(s: State, t: Thread)
    requires Inv(s) && t < |s.pcs| && s.alive && s.pcs[t].SignalTest? && s.toUnblock == 0
    ensures Inv(DoTest(s, t))
  {
    Moved(s.pcs, t, DoTest(s, t).pcs[t]);
  }

  lemma KeepsTestClosed(s: State, t: Thread)
    requires Inv(s) && t < |s.pcs| && s.alive && s.pcs[t].SignalTest? && s.toUnblock != 0
    ensures Inv(DoTest(s, t))
  {
    Moved(s.pcs, t, DoTest(s, t).pcs[t]);
  }

  lemma KeepsTest(s: State, t: Thread)
    requires Inv(s) && t < |s.pcs| && s.alive && s.pcs[t].SignalTest?
    ensures Inv(DoTest(s, t))
  {
    if s.toUnblock == 0 {
      KeepsTestOpen(s, t);
    } else {
      KeepsTestClosed(s, t);
    }
  }

  lemma KeepsPassSignalGate(s: State, t: Thread)
    requires Inv(s) && t < |s.pcs| && s.alive && s.pcs[t].SignalGate? && s.gate > 0
    ensures Inv(Go(s.(gate := s.gate - 1), t, SignalMove(s.pcs[t].all)))
  {
    Moved(s.pcs, t, SignalMove(s.pcs[t].all));
  }

  lemma KeepsMoveAll(s: State, t: Thread)
    requires Inv(s) && t < |s.pcs| && s.alive && s.pcs[t].SignalMove?
    requires s.pcs[t].all
    ensures Inv(DoMove(s, t))
  {
    Moved(s.pcs, t, DoMove(s, t).pcs[t]);
  }

  lemma KeepsMoveOne(s: State, t: Thread)
    requires Inv(s) && t < |s.pcs| && s.alive && s.pcs[t].SignalMove?
    requires !s.pcs[t].all
    ensures Inv(DoMove(s, t))
  {
    Moved(s.pcs, t, DoMove(s, t).pcs[t]);
  }

  lemma KeepsMoveWaiters(s: State, t: Thread)
    requires Inv(s) && t < |s.pcs| && s.alive && s.pcs[t].SignalMove?
    ensures Inv(DoMove(s, t))
  {
    if s.pcs[t].all {
      KeepsMoveAll(s, t);
    } else {
      KeepsMoveOne(s, t);
    }
  }

  lemma KeepsUnlockNone(s: State, t: Thread)
    requires Inv(s) && t < |s.pcs| && s.alive && s.pcs[t].SignalUnlock?
    requires s.pcs[t].count == 0
    ensures Inv(Go(s.(mtx := Nobody), t, Idle))
  {
    Moved(s.pcs, t, Idle);
  }

  lemma KeepsUnlockSome(s: State, t: Thread)
    requires Inv(s) && t < |s.pcs| && s.alive && s.pcs[t].SignalUnlock?
    requires s.pcs[t].count != 0
    ensures Inv(Go(s.(mtx := Nobody), t, SignalPost(s.pcs[t].count)))
  {
    Moved(s.pcs, t, SignalPost(s.pcs[t].count));
  }

  lemma KeepsUnlockSignal(s: State, t: Thread)
    requires Inv(s) && t < |s.pcs| && s.alive && s.pcs[t].SignalUnlock?
    ensures Inv(Go(s.(mtx := Nobody), t, if s.pcs[t].count == 0 then Idle else SignalPost(s.pcs[t].count)))
  {
    if s.pcs[t].count == 0 {
      KeepsUnlockNone(s, t);
    } else {
      KeepsUnlockSome(s, t);
    }
  }

  lemma KeepsPostQueue(s: State, t: Thread)
    requires Inv(s) && t < |s.pcs| && s.alive && s.pcs[t].SignalPost?
    ensures Inv(Go(s.(queue := s.queue + s.pcs[t].count), t, Idle))
  {
    Moved(s.pcs, t, Idle);
  }

  lemma KeepsCallDestroy(s: State, t: Thread)
    requires Inv(s) && t < |s.pcs| && s.alive && s.pcs[t] == Idle
    ensures Inv(Go(s, t, DestroyGate))
  {
    Moved(s.pcs, t, DestroyGate);
  }

  lemma KeepsPassDestroyGate(s: State, t: Thread)
    requires Inv(s) && t < |s.pcs| && s.alive && s.pcs[t] == DestroyGate && s.gate > 0
    ensures Inv(Go(s.(gate := s.gate - 1), t, DestroyTry))
  {
    Moved(s.pcs, t, DestroyTry);
  }

  lemma KeepsTryMutexFree(s: State, t: Thread)
    requires Inv(s) && t < |s.pcs| && s.alive && s.pcs[t] == DestroyTry
    requires s.mtx == Nobody
    ensures Inv(Go(s.(mtx := By(t)), t, DestroyCheck))
  {
    Moved(s.pcs, t, DestroyCheck);
  }

  lemma KeepsTryMutexHeld(s: State, t: Thread)
    requires Inv(s) && t < |s.pcs| && s.alive && s.pcs[t] == DestroyTry
    requires s.mtx != Nobody
    ensures Inv(Go(s, t, DestroyBackOff))
  {
    Moved(s.pcs, t, DestroyBackOff);
  }

  lemma KeepsTryMutex(s: State, t: Thread)
    requires Inv(s) && t < |s.pcs| && s.alive && s.pcs[t] == DestroyTry
    ensures Inv(if s.mtx == Nobody then Go(s.(mtx := By(t)), t, DestroyCheck) else Go(s, t, DestroyBackOff))
  {
    if s.mtx == Nobody {
      KeepsTryMutexFree(s, t);
    } else {
      KeepsTryMutexHeld(s, t);
    }
  }

  lemma KeepsBackOff(s: State, t: Thread)
    requires Inv(s) && t < |s.pcs| && s.alive && s.pcs[t] == DestroyBackOff
    ensures Inv(Go(s.(gate := s.gate + 1), t, Idle))
  {
    Moved(s.pcs, t, Idle);
  }

  lemma KeepsCheck(s: State, t: Thread)
    requires Inv(s) && t < |s.pcs| && s.alive && s.pcs[t] == DestroyCheck
    ensures Inv(if s.blocked > s.gone then Go(s, t, BusyPost) else Go(s.(alive := false), t, Freed))
  {
    Moved(s.pcs, t, BusyPost);
    Moved(s.pcs, t, Freed);
  }

  lemma KeepsPostBusy(s: State, t: Thread)
    requires Inv(s) && t < |s.pcs| && s.alive && s.pcs[t] == BusyPost
    ensures Inv(Go(s.(gate := s.gate + 1), t, BusyUnlock))
  {
    Moved(s.pcs, t, BusyUnlock);
  }

  lemma KeepsUnlockBusy(s: State, t: Thread)
    requires Inv(s) && t < |s.pcs| && s.alive && s.pcs[t] == BusyUnlock
    ensures Inv(Go(s.(mtx := Nobody), t, Idle))
  {
    Moved(s.pcs, t, Idle);
  }

  lemma EnterKeepsInv(s: State, t: Thread, a: WaitStep)
    requires Inv(s) && t < |s.pcs| && s.alive && WaitEnabled(s, t, a)
    requires a.CallWait? || a.Cancel? || a.PassGate? || a.Register? || a.LeaveGate?
    ensures Inv(WaitApply(s, t, a)) && |WaitApply(s, t, a).pcs| == |s.pcs|
  {
    match a
    case CallWait => KeepsCallWait(s, t);
    case Cancel => KeepsCancel(s, t);
    case PassGate => KeepsPassGate(s, t);
    case Register => KeepsRegister(s, t);
    case LeaveGate => KeepsLeaveGate(s, t);
  }

  lemma RetireKeepsInv(s: State, t: Thread, a: WaitStep)
    requires Inv(s) && t < |s.pcs| && s.alive && WaitEnabled(s, t, a)
    requires a.Take? || a.GiveUp? || a.LockRetire? || a.Count? || a.Unlock? || a.Reopen?
    ensures Inv(WaitApply(s, t, a)) && |WaitApply(s, t, a).pcs| == |s.pcs|
  {
    match a
    case Take => KeepsTake(s, t);
    case GiveUp => KeepsGiveUp(s, t);
    case LockRetire => KeepsLockRetire(s, t);
    case Count => KeepsCount(s, t);
    case Unlock => KeepsUnlock(s, t);
    case Reopen => KeepsReopen(s, t);
  }

  lemma FoldKeepsInv(s: State, t: Thread, a: WaitStep)
    requires Inv(s) && t < |s.pcs| && s.alive && WaitEnabled(s, t, a)
    requires a.PassFoldGate? || a.Subtract? || a.PostFold? || a.ClearGone?
    ensures Inv(WaitApply(s, t, a)) && |WaitApply(s, t, a).pcs| == |s.pcs|
  {
    match a
    case PassFoldGate => KeepsPassFoldGate(s, t);
    case Subtract => KeepsSubtract(s, t);
    case PostFold => KeepsPostFold(s, t);
    case ClearGone => KeepsClearGone(s, t);
  }

  lemma WaitKeepsInv(s: State, t: Thread, a: WaitStep)
    requires Inv(s) && t < |s.pcs| && s.alive && WaitEnabled(s, t, a)
    ensures Inv(WaitApply(s, t, a)) && |WaitApply(s, t, a).pcs| == |s.pcs|
  {
    if a.CallWait? || a.Cancel? || a.PassGate? || a.Register? || a.LeaveGate? {
      EnterKeepsInv(s, t, a);
    } else if a.PassFoldGate? || a.Subtract? || a.PostFold? || a.ClearGone? {
      FoldKeepsInv(s, t, a);
    } else {
      RetireKeepsInv(s, t, a);
    }
  }

  lemma PromiseKeepsInv(s: State, t: Thread, a: SignalStep)
    requires Inv(s) && t < |s.pcs| && s.alive && SignalEnabled(s, t, a)
    requires a.Test? || a.PassSignalGate? || a.MoveWaiters?
    ensures Inv(SignalApply(s, t, a)) && |SignalApply(s, t, a).pcs| == |s.pcs|
  {
    match a
    case Test => KeepsTest(s, t);
    case PassSignalGate => KeepsPassSignalGate(s, t);
    case MoveWaiters => KeepsMoveWaiters(s, t);
  }

  lemma SignalEndKeepsInv(s: State, t: Thread, a: SignalStep)
    requires Inv(s) && t < |s.pcs| && s.alive && SignalEnabled(s, t, a)
    requires a.CallSignal? || a.LockSignal? || a.UnlockSignal? || a.PostQueue?
    ensures Inv(SignalApply(s, t, a)) && |SignalApply(s, t, a).pcs| == |s.pcs|
  {
    match a
    case CallSignal(all) => KeepsCallSignal(s, t, all);
    case LockSignal => KeepsLockSignal(s, t);
    case UnlockSignal => KeepsUnlockSignal(s, t);
    case PostQueue => KeepsPostQueue(s, t);
  }

  lemma SignalKeepsInv(s: State, t: Thread, a: SignalStep)
    requires Inv(s) && t < |s.pcs| && s.alive && SignalEnabled(s, t, a)
    ensures Inv(SignalApply(s, t, a)) && |SignalApply(s, t, a).pcs| == |s.pcs|
  {
    if a.Test? || a.PassSignalGate? || a.MoveWaiters? {
      PromiseKeepsInv(s, t, a);
    } else {
      SignalEndKeepsInv(s, t, a);
    }
  }

  lemma DestroyKeepsInv(s: State, t: Thread, a: DestroyStep)
    requires Inv(s) && t < |s.pcs| && s.alive && DestroyEnabled(s, t, a)
    ensures Inv(DestroyApply(s, t, a)) && |DestroyApply(s, t, a).pcs| == |s.pcs|
  {
    match a
    case CallDestroy => KeepsCallDestroy(s, t);
    case PassDestroyGate => KeepsPassDestroyGate(s, t);
    case TryMutex => KeepsTryMutex(s, t);
    case BackOff => KeepsBackOff(s, t);
    case Check => KeepsCheck(s, t);
    case PostBusy => KeepsPostBusy(s, t);
    case UnlockBusy => KeepsUnlockBusy(s, t);
  }

  lemma StepKeepsInv(s: State, t: Thread, a: Action)
    requires Inv(s) && Enabled(s, t, a)
    ensures Inv(Apply(s, t, a)) && |Apply(s, t, a).pcs| == |s.pcs|
  {
    match a
    case Wait(w) => WaitKeepsInv(s, t, w);
    case Signal(g) => SignalKeepsInv(s, t, g);
    case Destroy(d) => DestroyKeepsInv(s, t, d);
  }

  // ---------- runs ----------

  ghost predicate Next(s: State, s': State)
  {
    exists t, a :: Enabled(s, t, a) && s' == Apply(s, t, a)
  }

  ghost predicate Run(tr: seq<State>, threads: nat)
  {
    IsRun(tr, Next) && tr[0] == Initial(threads)
  }

  lemma NextKeepsInv(s: State, s': State)
    requires Inv(s) && Next(s, s')
    ensures Inv(s') && |s'.pcs| == |s.pcs|
  {
    var t, a :| Enabled(s, t, a) && s' == Apply(s, t, a);
    StepKeepsInv(s, t, a);
  }

  lemma RunsKeepInv(tr: seq<State>, threads: nat)
    requires Run(tr, threads)
    ensures Inv(tr[|tr| - 1]) && |tr[|tr| - 1].pcs| == threads
  {
    InitialInv(threads);
    forall s: State, s': State | Inv(s) && |s.pcs| == threads && Next(s, s') ensures Inv(s') && |s'.pcs| == threads {
      NextKeepsInv(s, s');
    }
    RunKeeps(tr, Next, s => Inv(s) && |s.pcs| == threads);
  }

  ghost predicate Reachable(s: State)
  {
    exists tr: seq<State>, threads: nat :: Run(tr, threads) && s == tr[|tr| - 1]
  }

  lemma ReachableInv(s: State)
    requires Reachable(s)
    ensures Inv(s)
  {
    var tr: seq<State>, threads: nat :| Run(tr, threads) && s == tr[|tr| - 1];
    RunsKeepInv(tr, threads);
  }

  // ---------- what the algorithm is for ----------

  /**
   Conservation. The three counters account for exactly the threads that have registered
   and not yet retired, in every state but those between the two assignments of the fold:
   there the waiters that have gone are already subtracted and still counted.
   */
  lemma CountersAccountForWaiters(s: State)
    requires Reachable(s)
    ensures !Settling(Inside(s)) ==>
      Sum(s.pcs, Registered) == s.blocked - s.gone + s.toUnblock && s.gone <= s.blocked
    ensures Settling(Inside(s)) ==>
      Sum(s.pcs, Registered) == s.blocked && s.toUnblock == 0 && s.gone == FOLD
    ensures s.toUnblock > 0 ==> s.gone == 0
    ensures 0 <= s.toUnblock && 0 <= s.gone <= FOLD && 0 <= s.blocked
  {
    ReachableInv(s);
  }

  /** The fold keeps every counter inside a 32-bit int for up to 2^30 threads. */
  lemma CountersFit(s: State)
    requires Reachable(s) && |s.pcs| <= 0x4000_0000
    ensures 0 <= s.gone <= 0x7fff_ffff && 0 <= s.blocked <= 0x7fff_ffff && 0 <= s.toUnblock <= 0x7fff_ffff
  {
    ReachableInv(s);
    HeadCount(s.pcs);
  }

  lemma {:induction false} HeadCount(pcs: seq<Pc>)
    ensures Sum(pcs, Registered) <= |pcs|
  {
    if pcs != [] {
      HeadCount(pcs[1..]);
    }
  }

  /**
   No lost signal. The tokens on the queue semaphore, about to be posted or taken by a
   waiter that has not retired always cover the signals still owed; the surplus is
   exactly the retirements that consumed a signal without a token less those that
   consumed a token without a signal.
   */
  lemma SignalsAreNotLost(s: State)
    requires Reachable(s)
    ensures s.queue + Sum(s.pcs, ToPost) + Sum(s.pcs, Took) - s.toUnblock == s.steals - s.spurious
    ensures s.queue + Sum(s.pcs, ToPost) + Sum(s.pcs, Took) >= s.toUnblock
  {
    ReachableInv(s);
  }

  /**
   The gate is a binary semaphore, closed from the first signal until the last signalled
   waiter has posted it; nobody registers in between.
   */
  lemma GateIsClosedWhileSignalling(s: State, t: Thread, u: Thread)
    requires Reachable(s) && t < |s.pcs| && u < |s.pcs|
    ensures s.gate <= 1
    ensures s.toUnblock > 0 || HoldsGate(s.pcs[t]) == 1 ==> s.gate == 0
    ensures s.toUnblock > 0 ==> HoldsGate(s.pcs[t]) == 0
    ensures HoldsGate(s.pcs[t]) == 1 && HoldsGate(s.pcs[u]) == 1 ==> t == u
  {
    ReachableInv(s);
    SumAtLeast(s.pcs, t, HoldsGate);
    if t < u {
      SumAtLeastTwo(s.pcs, t, u, HoldsGate);
    } else if u < t {
      SumAtLeastTwo(s.pcs, u, t, HoldsGate);
    }
  }

  /** Opens the gate within its next two steps, neither of which waits for anything. */
  predicate OpensSoon(pc: Pc)
  {
    pc.Registering? || pc.LeavingGate? || pc.Reopening? || pc.DestroyTry? || pc.DestroyBackOff?
  }

  /**
   A thread that waits for the gate while it holds mtxUnblockLock waits only for a thread
   that opens the gate without needing mtxUnblockLock.
   */
  lemma GateWaitIsSafe(s: State, t: Thread) returns (u: Thread)
    requires Reachable(s) && t < |s.pcs| && s.gate == 0 && s.alive
    requires s.pcs[t].SignalGate? || s.pcs[t].FoldGate?
    ensures u < |s.pcs| && u != t && OpensSoon(s.pcs[u]) && !HoldsMutex(s.pcs[u])
  {
    ReachableInv(s);
    assert s.mtx == By(t);
    u := SumWitness(s.pcs, HoldsGate);
  }

  /** What OpensSoon promises, step by step, while another thread holds mtxUnblockLock. */
  lemma OpensSoonOpens(s: State, u: Thread)
    requires Reachable(s) && s.alive && u < |s.pcs| && OpensSoon(s.pcs[u]) && s.mtx.By? && s.mtx.thread != u
    ensures exists a :: Enabled(s, u, a) &&
              var s' := Apply(s, u, a);
              s'.mtx == s.mtx &&
              (s'.gate == 1 || (OpensSoon(s'.pcs[u]) && exists b :: Enabled(s', u, b) && Apply(s', u, b).gate == 1))
  {
    ReachableInv(s);
    SumAtLeast(s.pcs, u, HoldsGate);
    var a := match s.pcs[u]
      case Registering => Wait(Register)
      case LeavingGate => Wait(LeaveGate)
      case Reopening => Wait(Reopen)
      case DestroyTry => Destroy(TryMutex)
      case _ => Destroy(BackOff);
    assert Enabled(s, u, a);
    var s' := Apply(s, u, a);
    assert s.pcs[u].Registering? ==> Enabled(s', u, Wait(LeaveGate));
    assert s.pcs[u].DestroyTry? ==> Enabled(s', u, Destroy(BackOff));
  }

  /** How many more steps of its own such a thread needs before the gate is open. */
  function StepsToOpen(pc: Pc): nat
  {
    if pc.Registering? || pc.DestroyTry? then 2 else 1
  }

  /**
   Whatever the others do meanwhile: while `t` waits for the gate inside mtxUnblockLock, a
   step of the opening thread `u`, which is always possible, brings it nearer to opening or
   opens the gate, and a step of anybody else changes neither `t` nor `u` nor the gate.
   */
  lemma GateWaitEnds(s: State, t: Thread, u: Thread, x: Thread, a: Action)
    requires Reachable(s) && t < |s.pcs| && u < |s.pcs| && s.gate == 0 && s.alive
    requires (s.pcs[t].SignalGate? || s.pcs[t].FoldGate?) && OpensSoon(s.pcs[u])
    ensures exists b :: Enabled(s, u, b)
    ensures Enabled(s, x, a) ==>
      var s' := Apply(s, x, a);
      && s'.alive && |s'.pcs| == |s.pcs| && s'.pcs[t] == s.pcs[t] && s'.mtx == s.mtx
      && (x != u ==> s'.pcs[u] == s.pcs[u] && s'.gate == 0)
      && (x == u ==>
            || s'.gate == 1
            || (s'.gate == 0 && OpensSoon(s'.pcs[u]) && StepsToOpen(s'.pcs[u]) < StepsToOpen(s.pcs[u])))
  {
    ReachableInv(s);
    assert s.mtx == By(t);
    SumAtLeast(s.pcs, u, HoldsGate);
    OpensSoonOpens(s, u);
    if Enabled(s, x, a) {
      OnlyOneOpens(s, t, u, x, a);
    }
  }

  lemma OnlyOneOpens(s: State, t: Thread, u: Thread, x: Thread, a: Action)
    requires Reachable(s) && t < |s.pcs| && u < |s.pcs| && s.gate == 0 && s.alive && s.mtx == By(t)
    requires (s.pcs[t].SignalGate? || s.pcs[t].FoldGate?) && OpensSoon(s.pcs[u]) && Enabled(s, x, a)
    ensures var s' := Apply(s, x, a);
      && s'.alive && |s'.pcs| == |s.pcs| && s'.pcs[t] == s.pcs[t] && s'.mtx == s.mtx
      && (x != u ==> s'.pcs[u] == s.pcs[u] && s'.gate == 0)
      && (x == u ==>
            || s'.gate == 1
            || (s'.gate == 0 && OpensSoon(s'.pcs[u]) && StepsToOpen(s'.pcs[u]) < StepsToOpen(s.pcs[u])))
  {
    ReachableInv(s);
    assert HoldsMutex(s.pcs[x]) ==> s.mtx == By(x);
    GateIsClosedWhileSignalling(s, u, x);
  }

  /** Waiters that have registered and whom no signal is owed yet. */
  function Unsignalled(s: State): int
  {
    Sum(s.pcs, Registered) - s.toUnblock
  }

  /**
   A signal is a promise to exactly one waiter, a broadcast to all of them; when there is
   none, nothing happens. Either the section behind mtxUnblockLock makes the promise at
   once, because the gate is closed already, or it goes to close the gate first.
   */
  lemma SignalPromises(s: State, t: Thread)
    requires Reachable(s) && Enabled(s, t, Signal(Test))
    ensures var s' := Apply(s, t, Signal(Test)); var all := s.pcs[t].all;
      && Unsignalled(s) >= 0
      && (Unsignalled(s) == 0 ==> s' == Go(s, t, SignalUnlock(0)))
      && (Unsignalled(s) > 0 && s.toUnblock == 0 ==> s' == Go(s, t, SignalGate(all)))
      && (Unsignalled(s) > 0 && s.toUnblock > 0 ==>
            var count := if all then Unsignalled(s) else 1;
            && s'.toUnblock == s.toUnblock + count && Unsignalled(s') == Unsignalled(s) - count
            && s'.pcs == s.pcs[t := SignalUnlock(count)])
  {
    ReachableInv(s);
    assert Inside(s) == s.pcs[t];
    assert Unsignalled(s) == s.blocked - s.gone;
    if s.toUnblock > 0 {
      Moved(s.pcs, t, DoTest(s, t).pcs[t]);
    }
  }

  /** The same promise once the gate is closed. */
  lemma SignalPromisesBehindGate(s: State, t: Thread)
    requires Reachable(s) && Enabled(s, t, Signal(MoveWaiters))
    ensures var s' := Apply(s, t, Signal(MoveWaiters));
      && Unsignalled(s) > 0 && s.toUnblock == 0
      && (var count := if s.pcs[t].all then Unsignalled(s) else 1;
          && s'.toUnblock == count && Unsignalled(s') == Unsignalled(s) - count
          && s'.pcs == s.pcs[t := SignalUnlock(count)])
  {
    ReachableInv(s);
    assert Inside(s) == s.pcs[t];
    Moved(s.pcs, t, Apply(s, t, Signal(MoveWaiters)).pcs[t]);
  }

  /**
   Destroy. The object is freed exactly when no registered waiter remains; and then no
   retired waiter still has to post the gate, and nobody is inside the gate or the mutex.
   */
  lemma DestroyFreesOnlyWhenUnused(s: State, t: Thread, u: Thread)
    requires Reachable(s) && Enabled(s, t, Destroy(Check)) && u < |s.pcs| && u != t
    ensures !Apply(s, t, Destroy(Check)).alive <==> Sum(s.pcs, Registered) == 0
    ensures !Apply(s, t, Destroy(Check)).alive ==>
      Registered(s.pcs[u]) == 0 && HoldsGate(s.pcs[u]) == 0 && !HoldsMutex(s.pcs[u])
  {
    ReachableInv(s);
    SumAtLeast(s.pcs, t, HoldsGate);
    SumAtLeast(s.pcs, u, Registered);
    GateIsClosedWhileSignalling(s, t, u);
  }

  /**
   The exact residue. When the object is freed, any other thread is either outside, or has
   only just called, or is a signaller that has left mtxUnblockLock and not posted yet; and
   as no signal is owed, the tokens that it is about to post are a surplus.
   */
  lemma FreedResidue(s: State, t: Thread, u: Thread)
    requires Reachable(s) && Enabled(s, t, Destroy(Check)) && u < |s.pcs| && u != t
    requires !Apply(s, t, Destroy(Check)).alive
    ensures var pc := s.pcs[u];
      pc == Idle || pc == AtGate || pc.SignalLock? || pc.SignalPost? || pc == DestroyGate
    ensures s.toUnblock == 0 && s.queue + Sum(s.pcs, ToPost) + Sum(s.pcs, Took) == s.steals - s.spurious
  {
    ReachableInv(s);
    DestroyFreesOnlyWhenUnused(s, t, u);
    SumAtLeast(s.pcs, t, HoldsGate);
    GateIsClosedWhileSignalling(s, t, u);
    SignalsAreNotLost(s);
  }

  lemma {:induction false} TookIsRegistered(pcs: seq<Pc>)
    ensures Sum(pcs, Took) <= Sum(pcs, Registered)
  {
    if pcs != [] {
      TookIsRegistered(pcs[1..]);
    }
  }

  /**
   When that happens: at the freeing, some signaller has tokens left to post exactly if more
   signals were taken without a token, less tokens without a signal, than tokens lie on the
   queue; so never if every waiter waited for its token.
   */
  lemma PostIsPendingExactly(s: State, t: Thread)
    requires Reachable(s) && Enabled(s, t, Destroy(Check)) && !Apply(s, t, Destroy(Check)).alive
    ensures Sum(s.pcs, ToPost) > 0 <==> s.steals - s.spurious > s.queue
    ensures s.steals == 0 ==> Sum(s.pcs, ToPost) == 0
  {
    ReachableInv(s);
    SumAtLeast(s.pcs, t, HoldsGate);
    TookIsRegistered(s.pcs);
  }

  lemma ReachableStep(s: State, t: Thread, a: Action) returns (s': State)
    requires Reachable(s) && Enabled(s, t, a)
    ensures s' == Apply(s, t, a) && Reachable(s')
  {
    s' := Apply(s, t, a);
    var tr: seq<State>, threads: nat :| Run(tr, threads) && s == tr[|tr| - 1];
    assert Next(s, s');
    assert Run(tr + [s'], threads);
  }

  lemma WaiterSleeps(s: State, t: Thread) returns (s': State)
    requires Reachable(s) && s.alive && t < |s.pcs| && s.pcs[t] == Idle && s.gate == 1
    ensures Reachable(s') && s' == s.(blocked := s.blocked + 1, pcs := s.pcs[t := Sleeping])
  {
    s' := ReachableStep(s, t, Wait(CallWait));
    s' := ReachableStep(s', t, Wait(PassGate));
    s' := ReachableStep(s', t, Wait(Register));
    s' := ReachableStep(s', t, Wait(LeaveGate));
    assert s'.pcs == s.pcs[t := Sleeping];
  }

  lemma SignallerPromises(s: State, t: Thread) returns (s': State)
    requires Reachable(s) && s.alive && t < |s.pcs| && s.pcs[t] == Idle && s.gate == 1 && s.mtx == Nobody
    requires s.blocked == 1 && s.gone == 0 && s.toUnblock == 0
    ensures Reachable(s')
    ensures s' == s.(blocked := 0, toUnblock := 1, gate := 0, pcs := s.pcs[t := SignalPost(1)])
  {
    s' := ReachableStep(s, t, Signal(CallSignal(false)));
    s' := ReachableStep(s', t, Signal(LockSignal));
    s' := ReachableStep(s', t, Signal(Test));
    s' := ReachableStep(s', t, Signal(PassSignalGate));
    s' := ReachableStep(s', t, Signal(MoveWaiters));
    s' := ReachableStep(s', t, Signal(UnlockSignal));
    assert s'.pcs == s.pcs[t := SignalPost(1)];
  }

  lemma WaiterGivesUp(s: State, t: Thread) returns (s': State)
    requires Reachable(s) && s.alive && t < |s.pcs| && s.pcs[t] == Sleeping && s.mtx == Nobody && s.toUnblock == 1
    ensures Reachable(s')
    ensures s' == s.(toUnblock := 0, gate := s.gate + 1, steals := s.steals + 1, pcs := s.pcs[t := Idle])
  {
    s' := ReachableStep(s, t, Wait(GiveUp));
    s' := ReachableStep(s', t, Wait(LockRetire));
    s' := ReachableStep(s', t, Wait(Count));
    s' := ReachableStep(s', t, Wait(Unlock));
    s' := ReachableStep(s', t, Wait(Reopen));
    assert s'.pcs == s.pcs[t := Idle];
  }

  /**
   A run in which it happens. Thread 0 waits; thread 1 signals and has yet to post; thread 0
   gives up, takes the signal without the token and retires; thread 2 destroys the object.
   */
  lemma DestroyOvertakesPost(threads: nat) returns (s: State)
    requires threads >= 3
    ensures Reachable(s) && Enabled(s, 2, Destroy(Check)) && !Apply(s, 2, Destroy(Check)).alive
    ensures |s.pcs| == threads && s.pcs[1] == SignalPost(1)
  {
    s := Initial(threads);
    assert Run([s], threads) && s == [s][|[s]| - 1];
    s := WaiterSleeps(s, 0);
    s := SignallerPromises(s, 1);
    s := WaiterGivesUp(s, 0);
    s := ReachableStep(s, 2, Destroy(CallDestroy));
    s := ReachableStep(s, 2, Destroy(PassDestroyGate));
    s := ReachableStep(s, 2, Destroy(TryMutex));
  }

  /** Among whatever steps of others: no step of a destroy but the freeing one touches more than the two locks. */
  lemma DestroyTouchesOnlyLocks(s: State, t: Thread, d: DestroyStep)
    requires Enabled(s, t, Destroy(d)) && Apply(s, t, Destroy(d)).alive
    ensures var s' := Apply(s, t, Destroy(d));
      && s' == s.(gate := s'.gate, mtx := s'.mtx, pcs := s'.pcs)
      && |s'.pcs| == |s.pcs| && s'.pcs == s.pcs[t := s'.pcs[t]]
  {
  }

  /** The actions that `t` performs one after the other, if it can. */
  function Perform(s: State, t: Thread, steps: seq<DestroyStep>): State
    decreases |steps|
  {
    if steps == [] then s
    else if Enabled(s, t, Destroy(steps[0])) then Perform(Apply(s, t, Destroy(steps[0])), t, steps[1..])
    else s
  }

  /**
   A destroy that finds the object busy leaves it as it was: counters, semaphores and mutex
   are what they were before the call, whichever of the two tests fails.
   */
  lemma BusyDestroyChangesNothing(s: State, t: Thread)
    requires Reachable(s) && s.alive && t < |s.pcs| && s.pcs[t] == DestroyGate && s.gate > 0
    ensures s.mtx != Nobody ==>
      Perform(s, t, [PassDestroyGate, TryMutex, BackOff]) == Go(s, t, Idle)
    ensures s.mtx == Nobody && Sum(s.pcs, Registered) > 0 ==>
      Perform(s, t, [PassDestroyGate, TryMutex, Check, PostBusy, UnlockBusy]) == Go(s, t, Idle)
  {
    ReachableInv(s);
    if s.mtx != Nobody {
      BackOffIsNeutral(s, t);
    } else if Sum(s.pcs, Registered) > 0 {
      BusyIsNeutral(s, t);
    }
  }

  lemma BackOffIsNeutral(s: State, t: Thread)
    requires s.alive && t < |s.pcs| && s.pcs[t] == DestroyGate && s.gate > 0 && s.mtx != Nobody
    ensures Perform(s, t, [PassDestroyGate, TryMutex, BackOff]) == Go(s, t, Idle)
  {
  }

  lemma BusyIsNeutral(s: State, t: Thread)
    requires s.alive && t < |s.pcs| && s.pcs[t] == DestroyGate && s.gate > 0 && s.mtx == Nobody && s.blocked > s.gone
    ensures Perform(s, t, [PassDestroyGate, TryMutex, Check, PostBusy, UnlockBusy]) == Go(s, t, Idle)
  {
    var s1 := Apply(s, t, Destroy(PassDestroyGate));
    var s2 := Apply(s1, t, Destroy(TryMutex));
    var rest := [Check, PostBusy, UnlockBusy];
    BusyEndsNeutral(s2, t);
    assert Perform(s1, t, [TryMutex] + rest) == Perform(s2, t, rest) by {
      assert ([TryMutex] + rest)[1..] == rest;
    }
    assert ([PassDestroyGate, TryMutex] + rest)[1..] == [TryMutex] + rest;
    assert [PassDestroyGate, TryMutex] + rest == [PassDestroyGate, TryMutex, Check, PostBusy, UnlockBusy];
  }

  lemma BusyEndsNeutral(s: State, t: Thread)
    requires s.alive && t < |s.pcs| && s.pcs[t] == DestroyCheck && s.blocked > s.gone
    ensures Perform(s, t, [Check, PostBusy, UnlockBusy]) == Go(s.(gate := s.gate + 1, mtx := Nobody), t, Idle)
  {
    var s1 := Apply(s, t, Destroy(Check));
    var s2 := Apply(s1, t, Destroy(PostBusy));
    var s3 := Apply(s2, t, Destroy(UnlockBusy));
    assert s3.pcs == s.pcs[t := Idle];
    assert [Check, PostBusy, UnlockBusy][1..] == [PostBusy, UnlockBusy];
    assert [PostBusy, UnlockBusy][1..] == [UnlockBusy];
    assert Perform(s2, t, [UnlockBusy]) == s3;
  }

  // ---------- deadlock freedom ----------

  /** Left to the callers and the clock: new calls, cancellations and timeouts. */
  predicate External(a: Action)
  {
    a == Wait(CallWait) || a == Wait(Cancel) || a == Wait(GiveUp)
    || (a.Signal? && a.g.CallSignal?) || a == Destroy(CallDestroy)
  }

  /** No operation in progress can take a step. */
  ghost predicate Stuck(s: State)
  {
    forall t, a :: Enabled(s, t, a) ==> External(a)
  }

  /** The next action of a program point, if it does not depend on the caller. */
  function Proceed(pc: Pc): Action
  {
    match pc
    case Idle => Wait(CallWait)
    case AtGate => Wait(PassGate)
    case Registering => Wait(Register)
    case LeavingGate => Wait(LeaveGate)
    case Sleeping => Wait(Take)
    case Retiring(_) => Wait(LockRetire)
    case Counting(_) => Wait(Count)
    case FoldGate => Wait(PassFoldGate)
    case FoldSubtract => Wait(Subtract)
    case FoldPost => Wait(PostFold)
    case FoldClear => Wait(ClearGone)
    case Unlocking(_) => Wait(Unlock)
    case Reopening => Wait(Reopen)
    case SignalLock(_) => Signal(LockSignal)
    case SignalTest(_) => Signal(Test)
    case SignalGate(_) => Signal(PassSignalGate)
    case SignalMove(_) => Signal(MoveWaiters)
    case SignalUnlock(_) => Signal(UnlockSignal)
    case SignalPost(_) => Signal(PostQueue)
    case DestroyGate => Destroy(PassDestroyGate)
    case DestroyTry => Destroy(TryMutex)
    case DestroyBackOff => Destroy(BackOff)
    case DestroyCheck => Destroy(Check)
    case BusyPost => Destroy(PostBusy)
    case BusyUnlock => Destroy(UnlockBusy)
    case Freed => Wait(CallWait)
  }

  lemma StuckAt(s: State, t: Thread)
    requires Stuck(s) && s.alive && t < |s.pcs|
    ensures !Enabled(s, t, Proceed(s.pcs[t])) || s.pcs[t] == Idle
  {
  }

  /** Whoever has closed the gate can go on, unless it needs the mutex. */
  lemma GateHolderMoves(s: State, u: Thread)
    requires s.alive && Stuck(s) && u < |s.pcs| && s.pcs[u] != Freed
    ensures HoldsGate(s.pcs[u]) == 0
  {
    StuckAt(s, u);
  }

  /** The waited-for mutex and gate are free in a stuck state. */
  lemma StuckIsUnlocked(s: State)
    requires Inv(s) && s.alive && Stuck(s)
    ensures s.mtx == Nobody
  {
    if s.mtx.By? {
      StuckAt(s, s.mtx.thread);
      assert s.gate == 0 && s.toUnblock == 0;
      var u := SumWitness(s.pcs, HoldsGate);
      GateHolderMoves(s, u);
    }
  }

  lemma StuckIsOpen(s: State)
    requires Inv(s) && s.alive && Stuck(s)
    ensures s.toUnblock == 0 ==> s.gate == 1
  {
    if s.gate == 0 && s.toUnblock == 0 {
      var u := SumWitness(s.pcs, HoldsGate);
      GateHolderMoves(s, u);
    }
  }

  /** What a stuck state owes has been taken, posted or is about to be: so it owes nothing. */
  lemma StuckOwesNothing(s: State)
    requires Reachable(s) && s.alive && Stuck(s)
    ensures s.toUnblock == 0
  {
    ReachableInv(s);
    StuckIsUnlocked(s);
    if s.toUnblock > 0 {
      SignalsAreNotLost(s);
      var u;
      if s.queue > 0 {
        u := SumWitness(s.pcs, Registered);
      } else if Sum(s.pcs, ToPost) > 0 {
        u := SumWitness(s.pcs, ToPost);
      } else {
        u := SumWitness(s.pcs, Took);
      }
      StuckAt(s, u);
    }
  }

  /**
   Deadlock freedom. When no operation can take a step, no signal is owed, the gate is
   open, the inner mutex is free, and every operation in progress is a registered waiter
   for which there is no token.
   */
  lemma StuckOnlyWhenIdle(s: State, t: Thread)
    requires Reachable(s) && s.alive && Stuck(s) && t < |s.pcs|
    ensures s.mtx == Nobody && s.gate == 1 && s.toUnblock == 0
    ensures s.pcs[t] == Idle || (s.pcs[t] == Sleeping && s.queue == 0)
  {
    ReachableInv(s);
    StuckIsUnlocked(s);
    StuckOwesNothing(s);
    StuckIsOpen(s);
    StuckAt(s, t);
  }
}
