/**
 The robust mutex of pthread_mutex_lock.c, pthread_mutex_trylock.c,
 pthread_mutex_unlock.c and pthread_mutex_consistent.c: the word and event of the
 non-robust mutex, an owner for every kind, and the word stateInconsistent through which
 a dead owner's mutex is inherited.

 One action per interlocked operation, event wait and event set, for one mutex and any
 number of threads, any of which may end while it holds the mutex. RobustList proves the
 list operations that belong to the actions AddToList, RemoveFromList and Die. A thread
 never comes back under the same handle (Reuse), so a dead thread stays dead.
 `holder`, `held`, `deaths` and `inherited` are history and are never
 read: who won the word, who has returned from an acquisition and not yet given it up,
 how often an owner died, how often EOWNERDEAD was won.
 */
module RobustMutex {
  import opened Population
  import opened RobustList
  import opened Runs

  type Tid = nat

  datatype Kind = Normal | Recursive | ErrorCheck

  datatype Ref = Nobody | By(thread: Tid)

  /** Whether the acquisition is about to return 0 or EOWNERDEAD. */
  datatype Outcome = Ok | OwnerDied

  datatype Pc =
    | Idle
    | Entering               // pthread_mutex_lock.c:157
    | Arriving               // 171 and 208
    | CheckingOwner          // 222
    | Inheriting             // 175 and 235
    | Contending             // 176 and 236
    | Parked                 // 180 and 240
    | Rechecking             // 185 and 245
    | Relaying               // 191 and 251
    | Adding(how: Outcome)   // 203, 213-218, 259-264
    | TryEntering            // pthread_mutex_trylock.c:111
    | Trying                 // 122
    | TryingOwner            // 135
    | TryInheriting          // 142
    | UnlockCheck            // pthread_mutex_unlock.c:126
    | Marking                // 128
    | Leaving                // 131-152
    | Exchanging             // 135 and 154
    | Signalling             // 141 and 160
    | Dying                  // pthread_win32_attach_detach_np.c:249
    | Dead

  datatype State = State(
    kind: Kind, word: int, event: bool, recovery: Recovery, owner: Ref, count: int,
    pcs: seq<Pc>,
    holder: Ref, held: seq<bool>, deaths: nat, inherited: nat)

  datatype LockStep =
    | CallLock | Enter | Arrive | CheckOwner | Inherit | Contend | Wake | Recheck | Relay | AddToList

  datatype TryStep = CallTry | TryEnter | Try | TryOwner | TryInherit

  datatype UnlockStep =
    | CallUnlock | OwnerTest | Mark | RemoveFromList | Exchange | Signal | MakeConsistent | Die | SignalDeath

  datatype Action = Lock(l: LockStep) | TryLock(y: TryStep) | Unlock(u: UnlockStep)

  predicate LockEnabled(s: State, t: Tid, a: LockStep)
    requires t < |s.pcs|
  {
    match a
    case CallLock => s.pcs[t] == Idle
    case Enter => s.pcs[t] == Entering
    case Arrive => s.pcs[t] == Arriving
    case CheckOwner => s.pcs[t] == CheckingOwner
    case Inherit => s.pcs[t] == Inheriting
    case Contend => s.pcs[t] == Contending
    case Wake => s.pcs[t] == Parked && s.event
    case Recheck => s.pcs[t] == Rechecking
    case Relay => s.pcs[t] == Relaying
    case AddToList => s.pcs[t].Adding?
  }

  predicate TryEnabled(s: State, t: Tid, a: TryStep)
    requires t < |s.pcs|
  {
    match a
    case CallTry => s.pcs[t] == Idle
    case TryEnter => s.pcs[t] == TryEntering
    case Try => s.pcs[t] == Trying
    case TryOwner => s.pcs[t] == TryingOwner
    case TryInherit => s.pcs[t] == TryInheriting
  }

  predicate UnlockEnabled(s: State, t: Tid, a: UnlockStep)
    requires t < |s.pcs|
  {
    match a
    case CallUnlock => s.pcs[t] == Idle
    case OwnerTest => s.pcs[t] == UnlockCheck
    case Mark => s.pcs[t] == Marking
    case RemoveFromList => s.pcs[t] == Leaving
    case Exchange => s.pcs[t] == Exchanging
    case Signal => s.pcs[t] == Signalling
    case MakeConsistent => s.pcs[t] == Idle
    case Die => s.pcs[t] == Idle
    case SignalDeath => s.pcs[t] == Dying
  }

  predicate Enabled(s: State, t: Tid, a: Action)
  {
    t < |s.pcs| &&
    match a
    case Lock(l) => LockEnabled(s, t, l)
    case TryLock(y) => TryEnabled(s, t, y)
    case Unlock(u) => UnlockEnabled(s, t, u)
  }

  function Go(s: State, t: Tid, pc: Pc): State
    requires t < |s.pcs|
  {
    s.(pcs := s.pcs[t := pc])
  }

  /** Thread `t` has changed the word from 0. */
  function Won(s: State, t: Tid): State
    requires t < |s.pcs|
  {
    Go(s.(holder := By(t)), t, Adding(Ok))
  }

  /** ptw32_robust_mutex_inherit, lines 82-105; `otherwise` is where result 0 leads. */
  function DoInherit(s: State, t: Tid, otherwise: Pc): State
    requires t < |s.pcs|
  {
    match s.recovery
    case OwnerDead =>
      Go(s.(recovery := Inconsistent, holder := By(t), inherited := s.inherited + 1), t, Adding(OwnerDied))
    case NotRecoverable => Go(s, t, Idle)
    case _ => Go(s, t, otherwise)
  }

  function DoArrive(s: State, t: Tid): State
    requires t < |s.pcs|
  {
    if s.word == 0 then Won(s.(word := 1), t)
    else if s.kind == Normal then Go(s.(word := 1), t, Inheriting)
    else Go(s, t, CheckingOwner)
  }

  function DoCheckOwner(s: State, t: Tid): State
    requires t < |s.pcs|
  {
    if s.owner != By(t) then Go(s, t, Inheriting)
    else Go(if s.kind == Recursive then s.(count := s.count + 1) else s, t, Idle)
  }

  function DoTryOwner(s: State, t: Tid): State
    requires t < |s.pcs|
  {
    if s.kind == Recursive && s.owner == By(t) then Go(s.(count := s.count + 1), t, Idle)
    else Go(s, t, TryInheriting)
  }

  /** `held` is as long as `pcs` in every run; beyond that it has nothing to record. */
  function Note(held: seq<bool>, t: Tid, b: bool): seq<bool>
  {
    if t < |held| then held[t := b] else held
  }

  function DoAdd(s: State, t: Tid): State
    requires t < |s.pcs|
  {
    Go(s.(owner := By(t), count := 1, held := Note(s.held, t, true)), t, Idle)
  }

  function DoRemove(s: State, t: Tid): State
    requires t < |s.pcs|
  {
    var s' := if s.kind == Recursive then s.(count := s.count - 1) else s;
    if s.kind == Recursive && s'.count != 0 then Go(s', t, Idle)
    else Go(s'.(owner := Nobody, held := Note(s.held, t, false)), t, Exchanging)
  }

  /** Lines 237-243 of the exit loop when the dying thread's list holds this mutex. */
  function DoDie(s: State, t: Tid): State
    requires t < |s.pcs|
  {
    if s.owner == By(t)
    then
      Go(s.(recovery := OwnerDead, holder := Nobody, deaths := s.deaths + 1, held := Note(s.held, t, false)), t, Dying)
    else Go(s, t, Dead)
  }

  function LockApply(s: State, t: Tid, a: LockStep): State
    requires t < |s.pcs| && LockEnabled(s, t, a)
  {
    match a
    case CallLock => Go(s, t, Entering)
    case Enter => Go(s, t, if s.recovery == NotRecoverable then Idle else Arriving)
    case Arrive => DoArrive(s, t)
    case CheckOwner => DoCheckOwner(s, t)
    case Inherit => DoInherit(s, t, Contending)
    case Contend => if s.word == 0 then Won(s.(word := -1), t) else Go(s.(word := -1), t, Parked)
    case Wake => Go(s.(event := false), t, Rechecking)
    case Recheck => Go(s, t, if s.recovery == NotRecoverable then Relaying else Inheriting)
    case Relay => Go(s.(event := true), t, Idle)
    case AddToList => DoAdd(s, t)
  }

  function TryApply(s: State, t: Tid, a: TryStep): State
    requires t < |s.pcs| && TryEnabled(s, t, a)
  {
    match a
    case CallTry => Go(s, t, TryEntering)
    case TryEnter => Go(s, t, if s.recovery == NotRecoverable then Idle else Trying)
    case Try => if s.word == 0 then Won(s.(word := 1), t) else Go(s, t, TryingOwner)
    case TryOwner => DoTryOwner(s, t)
    case TryInherit => DoInherit(s, t, Idle)
  }

  function UnlockApply(s: State, t: Tid, a: UnlockStep): State
    requires t < |s.pcs| && UnlockEnabled(s, t, a)
  {
    match a
    case CallUnlock => Go(s, t, UnlockCheck)
    case OwnerTest => Go(s, t, if s.owner == By(t) then Marking else Idle)
    case Mark => Go(if s.recovery == Inconsistent then s.(recovery := NotRecoverable) else s, t, Leaving)
    case RemoveFromList => DoRemove(s, t)
    case Exchange => Go(s.(word := 0, holder := Nobody), t, if s.word < 0 then Signalling else Idle)
    case Signal => Go(s.(event := true), t, Idle)
    case MakeConsistent => if s.recovery == Inconsistent then s.(recovery := Consistent) else s
    case Die => DoDie(s, t)
    case SignalDeath => Go(s.(event := true), t, Dead)
  }

  function Apply(s: State, t: Tid, a: Action): State
    requires Enabled(s, t, a)
  {
    match a
    case Lock(l) => LockApply(s, t, l)
    case TryLock(y) => TryApply(s, t, y)
    case Unlock(u) => UnlockApply(s, t, u)
  }

  function Initial(kind: Kind, threads: nat): State
  {
    State(kind, 0, false, Consistent, Nobody, 0, seq(threads, _ => Idle), Nobody,
          seq(threads, _ => false), 0, 0)
  }

  // ---------- the invariant ----------

  predicate Gone(pc: Pc)
  {
    pc.Dying? || pc.Dead?
  }

  /** Has passed the owner test of its unlock. */
  predicate Unlocks(pc: Pc)
  {
    pc.Marking? || pc.Leaving?
  }

  /** How a thread stands to the mutex. */
  predicate ThreadOk(s: State, t: Tid)
  {
    t < |s.pcs| ==>
      var pc := s.pcs[t];
      && |s.held| == |s.pcs| && (s.held[t] <==> s.owner == By(t) && !Gone(pc))
      && (pc.Adding? || pc.Exchanging? || Unlocks(pc) ==> s.holder == By(t))
      && (s.holder == By(t) ==> !Gone(pc))
      && (s.holder == By(t) ==> (s.owner == By(t) <==> !pc.Adding? && !pc.Exchanging?))
      && (s.owner == By(t) && s.holder != By(t) ==> Gone(pc))
      && (pc.Leaving? || pc.Exchanging? ==> s.recovery != Inconsistent && s.recovery != OwnerDead)
  }

  ghost predicate Inv(s: State)
  {
    && (s.holder.By? ==> s.holder.thread < |s.pcs|)
    && (s.owner.By? ==> s.owner.thread < |s.pcs|)
    && (s.word != 0 <==> s.holder.By? || s.recovery == OwnerDead)
    && (s.recovery == OwnerDead ==> s.holder == Nobody)
    && (s.word == 0 ==> s.recovery != Inconsistent)
    && (s.kind == Recursive && s.owner.By? && s.owner == s.holder ==> s.count >= 1)
    && s.deaths == s.inherited + (if s.recovery == OwnerDead then 1 else 0)
    && (forall t: Tid :: ThreadOk(s, t))
  }

  lemma InitialInv(kind: Kind, threads: nat)
    ensures Inv(Initial(kind, threads))
  {
  }

  lemma KeepsCallLock(s: State, t: Tid)
    requires Inv(s) && t < |s.pcs| && s.pcs[t] == Idle
    ensures Inv(Go(s, t, Entering))
  {
    var s' := Go(s, t, Entering);
    assert ThreadOk(s, t);
    forall u: Tid ensures ThreadOk(s', u) {
      assert ThreadOk(s, u);
    }
  }

  lemma KeepsEnter(s: State, t: Tid)
    requires Inv(s) && t < |s.pcs| && s.pcs[t] == Entering
    ensures Inv(Go(s, t, if s.recovery == NotRecoverable then Idle else Arriving))
  {
    var s' := Go(s, t, if s.recovery == NotRecoverable then Idle else Arriving);
    assert ThreadOk(s, t);
    forall u: Tid ensures ThreadOk(s', u) {
      assert ThreadOk(s, u);
    }
  }

  lemma KeepsArrive(s: State, t: Tid)
    requires Inv(s) && t < |s.pcs| && s.pcs[t] == Arriving
    ensures Inv(DoArrive(s, t))
  {
    var s' := DoArrive(s, t);
    assert ThreadOk(s, t);
    forall u: Tid ensures ThreadOk(s', u) {
      assert ThreadOk(s, u);
    }
  }

  lemma KeepsCheckOwner(s: State, t: Tid)
    requires Inv(s) && t < |s.pcs| && s.pcs[t] == CheckingOwner
    ensures Inv(DoCheckOwner(s, t))
  {
    var s' := DoCheckOwner(s, t);
    assert ThreadOk(s, t);
    forall u: Tid ensures ThreadOk(s', u) {
      assert ThreadOk(s, u);
    }
  }

  lemma KeepsInherit(s: State, t: Tid)
    requires Inv(s) && t < |s.pcs| && s.pcs[t] == Inheriting
    ensures Inv(DoInherit(s, t, Contending))
  {
    var s' := DoInherit(s, t, Contending);
    assert ThreadOk(s, t);
    forall u: Tid ensures ThreadOk(s', u) {
      assert ThreadOk(s, u);
    }
  }

  lemma KeepsContend(s: State, t: Tid)
    requires Inv(s) && t < |s.pcs| && s.pcs[t] == Contending
    ensures Inv(if s.word == 0 then Won(s.(word := -1), t) else Go(s.(word := -1), t, Parked))
  {
    var s' := if s.word == 0 then Won(s.(word := -1), t) else Go(s.(word := -1), t, Parked);
    assert ThreadOk(s, t);
    forall u: Tid ensures ThreadOk(s', u) {
      assert ThreadOk(s, u);
    }
  }

  lemma KeepsWake(s: State, t: Tid)
    requires Inv(s) && t < |s.pcs| && s.pcs[t] == Parked && s.event
    ensures Inv(Go(s.(event := false), t, Rechecking))
  {
    var s' := Go(s.(event := false), t, Rechecking);
    assert ThreadOk(s, t);
    forall u: Tid ensures ThreadOk(s', u) {
      assert ThreadOk(s, u);
    }
  }

  lemma KeepsRecheck(s: State, t: Tid)
    requires Inv(s) && t < |s.pcs| && s.pcs[t] == Rechecking
    ensures Inv(Go(s, t, if s.recovery == NotRecoverable then Relaying else Inheriting))
  {
    var s' := Go(s, t, if s.recovery == NotRecoverable then Relaying else Inheriting);
    assert ThreadOk(s, t);
    forall u: Tid ensures ThreadOk(s', u) {
      assert ThreadOk(s, u);
    }
  }

  lemma KeepsRelay(s: State, t: Tid)
    requires Inv(s) && t < |s.pcs| && s.pcs[t] == Relaying
    ensures Inv(Go(s.(event := true), t, Idle))
  {
    var s' := Go(s.(event := true), t, Idle);
    assert ThreadOk(s, t);
    forall u: Tid ensures ThreadOk(s', u) {
      assert ThreadOk(s, u);
    }
  }

  lemma KeepsAddToList(s: State, t: Tid)
    requires Inv(s) && t < |s.pcs| && s.pcs[t].Adding?
    ensures Inv(DoAdd(s, t))
  {
    var s' := DoAdd(s, t);
    assert ThreadOk(s, t);
    forall u: Tid ensures ThreadOk(s', u) {
      assert ThreadOk(s, u);
    }
  }

  lemma LockKeepsInv(s: State, t: Tid, a: LockStep)
    requires Inv(s) && t < |s.pcs| && LockEnabled(s, t, a)
    ensures Inv(LockApply(s, t, a))
  {
    match a
    case CallLock => KeepsCallLock(s, t);
    case Enter => KeepsEnter(s, t);
    case Arrive => KeepsArrive(s, t);
    case CheckOwner => KeepsCheckOwner(s, t);
    case Inherit => KeepsInherit(s, t);
    case Contend => KeepsContend(s, t);
    case Wake => KeepsWake(s, t);
    case Recheck => KeepsRecheck(s, t);
    case Relay => KeepsRelay(s, t);
    case AddToList => KeepsAddToList(s, t);
  }

  lemma KeepsCallTry(s: State, t: Tid)
    requires Inv(s) && t < |s.pcs| && s.pcs[t] == Idle
    ensures Inv(Go(s, t, TryEntering))
  {
    var s' := Go(s, t, TryEntering);
    assert ThreadOk(s, t);
    forall u: Tid ensures ThreadOk(s', u) {
      assert ThreadOk(s, u);
    }
  }

  lemma KeepsTryEnter(s: State, t: Tid)
    requires Inv(s) && t < |s.pcs| && s.pcs[t] == TryEntering
    ensures Inv(Go(s, t, if s.recovery == NotRecoverable then Idle else Trying))
  {
    var s' := Go(s, t, if s.recovery == NotRecoverable then Idle else Trying);
    assert ThreadOk(s, t);
    forall u: Tid ensures ThreadOk(s', u) {
      assert ThreadOk(s, u);
    }
  }

  lemma KeepsTry(s: State, t: Tid)
    requires Inv(s) && t < |s.pcs| && s.pcs[t] == Trying
    ensures Inv(if s.word == 0 then Won(s.(word := 1), t) else Go(s, t, TryingOwner))
  {
    var s' := if s.word == 0 then Won(s.(word := 1), t) else Go(s, t, TryingOwner);
    assert ThreadOk(s, t);
    forall u: Tid ensures ThreadOk(s', u) {
      assert ThreadOk(s, u);
    }
  }

  lemma KeepsTryOwner(s: State, t: Tid)
    requires Inv(s) && t < |s.pcs| && s.pcs[t] == TryingOwner
    ensures Inv(DoTryOwner(s, t))
  {
    var s' := DoTryOwner(s, t);
    assert ThreadOk(s, t);
    forall u: Tid ensures ThreadOk(s', u) {
      assert ThreadOk(s, u);
    }
  }

  lemma KeepsTryInherit(s: State, t: Tid)
    requires Inv(s) && t < |s.pcs| && s.pcs[t] == TryInheriting
    ensures Inv(DoInherit(s, t, Idle))
  {
    var s' := DoInherit(s, t, Idle);
    assert ThreadOk(s, t);
    forall u: Tid ensures ThreadOk(s', u) {
      assert ThreadOk(s, u);
    }
  }

  lemma TryKeepsInv(s: State, t: Tid, a: TryStep)
    requires Inv(s) && t < |s.pcs| && TryEnabled(s, t, a)
    ensures Inv(TryApply(s, t, a))
  {
    match a
    case CallTry => KeepsCallTry(s, t);
    case TryEnter => KeepsTryEnter(s, t);
    case Try => KeepsTry(s, t);
    case TryOwner => KeepsTryOwner(s, t);
    case TryInherit => KeepsTryInherit(s, t);
  }

  lemma KeepsCallUnlock(s: State, t: Tid)
    requires Inv(s) && t < |s.pcs| && s.pcs[t] == Idle
    ensures Inv(Go(s, t, UnlockCheck))
  {
    var s' := Go(s, t, UnlockCheck);
    assert ThreadOk(s, t);
    forall u: Tid ensures ThreadOk(s', u) {
      assert ThreadOk(s, u);
    }
  }

  lemma KeepsOwnerTest(s: State, t: Tid)
    requires Inv(s) && t < |s.pcs| && s.pcs[t] == UnlockCheck
    ensures Inv(Go(s, t, if s.owner == By(t) then Marking else Idle))
  {
    var s' := Go(s, t, if s.owner == By(t) then Marking else Idle);
    assert ThreadOk(s, t);
    forall u: Tid ensures ThreadOk(s', u) {
      assert ThreadOk(s, u);
    }
  }

  lemma KeepsMark(s: State, t: Tid)
    requires Inv(s) && t < |s.pcs| && s.pcs[t] == Marking
    ensures Inv(Go(if s.recovery == Inconsistent then s.(recovery := NotRecoverable) else s, t, Leaving))
  {
    var s' := Go(if s.recovery == Inconsistent then s.(recovery := NotRecoverable) else s, t, Leaving);
    assert ThreadOk(s, t);
    forall u: Tid ensures ThreadOk(s', u) {
      assert ThreadOk(s, u);
    }
  }

  lemma KeepsRemoveFromList(s: State, t: Tid)
    requires Inv(s) && t < |s.pcs| && s.pcs[t] == Leaving
    ensures Inv(DoRemove(s, t))
  {
    var s' := DoRemove(s, t);
    assert ThreadOk(s, t);
    forall u: Tid ensures ThreadOk(s', u) {
      assert ThreadOk(s, u);
    }
  }

  lemma KeepsExchange(s: State, t: Tid)
    requires Inv(s) && t < |s.pcs| && s.pcs[t] == Exchanging
    ensures Inv(Go(s.(word := 0, holder := Nobody), t, if s.word < 0 then Signalling else Idle))
  {
    var s' := Go(s.(word := 0, holder := Nobody), t, if s.word < 0 then Signalling else Idle);
    assert ThreadOk(s, t);
    forall u: Tid ensures ThreadOk(s', u) {
      assert ThreadOk(s, u);
    }
  }

  lemma KeepsSignal(s: State, t: Tid)
    requires Inv(s) && t < |s.pcs| && s.pcs[t] == Signalling
    ensures Inv(Go(s.(event := true), t, Idle))
  {
    var s' := Go(s.(event := true), t, Idle);
    assert ThreadOk(s, t);
    forall u: Tid ensures ThreadOk(s', u) {
      assert ThreadOk(s, u);
    }
  }

  lemma KeepsMakeConsistent(s: State, t: Tid)
    requires Inv(s) && t < |s.pcs| && s.pcs[t] == Idle
    ensures Inv(if s.recovery == Inconsistent then s.(recovery := Consistent) else s)
  {
    var s' := if s.recovery == Inconsistent then s.(recovery := Consistent) else s;
    assert ThreadOk(s, t);
    forall u: Tid ensures ThreadOk(s', u) {
      assert ThreadOk(s, u);
    }
  }

  lemma KeepsDie(s: State, t: Tid)
    requires Inv(s) && t < |s.pcs| && s.pcs[t] == Idle
    ensures Inv(DoDie(s, t))
  {
    var s' := DoDie(s, t);
    assert ThreadOk(s, t);
    forall u: Tid ensures ThreadOk(s', u) {
      assert ThreadOk(s, u);
    }
  }

  lemma KeepsSignalDeath(s: State, t: Tid)
    requires Inv(s) && t < |s.pcs| && s.pcs[t] == Dying
    ensures Inv(Go(s.(event := true), t, Dead))
  {
    var s' := Go(s.(event := true), t, Dead);
    assert ThreadOk(s, t);
    forall u: Tid ensures ThreadOk(s', u) {
      assert ThreadOk(s, u);
    }
  }

  lemma UnlockKeepsInv(s: State, t: Tid, a: UnlockStep)
    requires Inv(s) && t < |s.pcs| && UnlockEnabled(s, t, a)
    ensures Inv(UnlockApply(s, t, a))
  {
    match a
    case CallUnlock => KeepsCallUnlock(s, t);
    case OwnerTest => KeepsOwnerTest(s, t);
    case Mark => KeepsMark(s, t);
    case RemoveFromList => KeepsRemoveFromList(s, t);
    case Exchange => KeepsExchange(s, t);
    case Signal => KeepsSignal(s, t);
    case MakeConsistent => KeepsMakeConsistent(s, t);
    case Die => KeepsDie(s, t);
    case SignalDeath => KeepsSignalDeath(s, t);
  }

  lemma StepKeepsInv(s: State, t: Tid, a: Action)
    requires Inv(s) && Enabled(s, t, a)
    ensures Inv(Apply(s, t, a))
  {
    match a
    case Lock(l) => LockKeepsInv(s, t, l);
    case TryLock(y) => TryKeepsInv(s, t, y);
    case Unlock(u) => UnlockKeepsInv(s, t, u);
  }

  // ---------- runs ----------

  ghost predicate Next(s: State, s': State)
  {
    exists t, a :: Enabled(s, t, a) && s' == Apply(s, t, a)
  }

  ghost predicate Run(tr: seq<State>, kind: Kind, threads: nat)
  {
    IsRun(tr, Next) && tr[0] == Initial(kind, threads)
  }

  ghost predicate Reachable(s: State)
  {
    exists tr: seq<State>, kind: Kind, threads: nat :: Run(tr, kind, threads) && s == tr[|tr| - 1]
  }

  lemma NextKeepsInv(s: State, s': State)
    requires Inv(s) && Next(s, s')
    ensures Inv(s')
  {
    var t, a :| Enabled(s, t, a) && s' == Apply(s, t, a);
    StepKeepsInv(s, t, a);
  }

  lemma RunsKeepInv(tr: seq<State>, kind: Kind, threads: nat)
    requires Run(tr, kind, threads)
    ensures Inv(tr[|tr| - 1])
  {
    InitialInv(kind, threads);
    forall s: State, s': State | Inv(s) && Next(s, s') ensures Inv(s') {
      NextKeepsInv(s, s');
    }
    RunKeeps(tr, Next, Inv);
  }

  lemma ReachableInv(s: State)
    requires Reachable(s)
    ensures Inv(s)
  {
    var tr: seq<State>, kind: Kind, threads: nat :| Run(tr, kind, threads) && s == tr[|tr| - 1];
    RunsKeepInv(tr, kind, threads);
  }

  // ---------- what robustness is for ----------

  /**
   Ownership. At most one thread holds the mutex, also while owners die and others inherit;
   the holder, and no other live thread, is the one that the owner field names; and the word
   is nonzero meanwhile.
   */
  lemma Exclusion(s: State, t: Tid, u: Tid)
    requires Reachable(s) && t < |s.pcs| && u < |s.pcs|
    ensures |s.held| == |s.pcs|
    ensures s.held[t] && s.held[u] ==> t == u
    ensures s.held[t] <==> s.owner == By(t) && !Gone(s.pcs[t])
    ensures s.held[t] ==> s.word != 0 && s.recovery != OwnerDead
    ensures s.held[t] && s.kind == Recursive ==> s.count >= 1
  {
    ReachableInv(s);
    assert ThreadOk(s, t) && ThreadOk(s, u);
  }

  /** Each death of an owner is answered by at most one EOWNERDEAD, and by one before the next death. */
  lemma OneHeirPerDeath(s: State)
    requires Reachable(s)
    ensures s.inherited <= s.deaths <= s.inherited + 1
    ensures s.deaths == s.inherited + 1 <==> s.recovery == OwnerDead
  {
    ReachableInv(s);
  }

  /**
   A thread that is told EOWNERDEAD is alone: at that moment nobody holds the mutex and
   nobody else is between winning it and returning, and adding it to the thread's list
   makes that thread the one holder.
   */
  lemma HeirIsOnlyOwner(s: State, t: Tid, u: Tid)
    requires Reachable(s) && t < |s.pcs| && u < |s.pcs| && s.pcs[t] == Adding(OwnerDied)
    ensures |s.held| == |s.pcs| && !s.held[u]
    ensures u != t ==> !s.pcs[u].Adding? && !s.pcs[u].Exchanging?
    ensures LockEnabled(s, t, AddToList)
    ensures var s' := LockApply(s, t, AddToList); s'.held == s.held[t := true] && s'.owner == By(t)
  {
    ReachableInv(s);
    assert ThreadOk(s, t) && ThreadOk(s, u);
  }

  /** The unlocked reads of ownerThread say exactly whether the reader holds the mutex. */
  lemma OwnerTestIsExact(s: State, t: Tid)
    requires Reachable(s) && t < |s.pcs|
    requires s.pcs[t] == CheckingOwner || s.pcs[t] == TryingOwner || s.pcs[t] == UnlockCheck
    ensures |s.held| == |s.pcs| && (s.owner == By(t) <==> s.held[t])
  {
    ReachableInv(s);
    assert ThreadOk(s, t);
  }

  /**
   An inherited mutex is never passed on unrepaired: whenever the word is free, or about to
   be freed by an unlock, the mutex has been made consistent or is marked not recoverable.
   */
  lemma NeverFreedInconsistent(s: State, t: Tid)
    requires Reachable(s) && t < |s.pcs|
    ensures s.word == 0 || s.pcs[t] == Exchanging ==> s.recovery == Consistent || s.recovery == NotRecoverable
  {
    ReachableInv(s);
    assert ThreadOk(s, t);
  }

  // ---------- what the list operations rely on ----------

  /** A thread about to add the mutex to its list: no live thread owns it, so it is on no list but a dead one's. */
  lemma AddingIsUnowned(s: State, t: Tid)
    requires Reachable(s) && t < |s.pcs| && s.pcs[t].Adding?
    ensures s.owner.By? ==> s.owner.thread < |s.pcs| && Gone(s.pcs[s.owner.thread])
  {
    ReachableInv(s);
    assert ThreadOk(s, t);
    if s.owner.By? {
      assert ThreadOk(s, s.owner.thread);
    }
  }

  /** A thread about to take the mutex off the owner's list: it is the owner. */
  lemma LeavingIsOwner(s: State, t: Tid)
    requires Reachable(s) && t < |s.pcs| && s.pcs[t] == Leaving
    ensures s.owner == By(t) && !Gone(s.pcs[t])
  {
    ReachableInv(s);
    assert ThreadOk(s, t);
  }

  // ---------- lost wakeups ----------

  function IsParked(pc: Pc): nat
  {
    if pc.Parked? then 1 else 0
  }

  /** Is about to set the event, or to exchange in -1 unless the inheritance test stops it. */
  function Rouses(pc: Pc): nat
  {
    if pc.Signalling? || pc.Dying? || pc.Relaying? || pc.Contending? || pc.Rechecking? || pc.Inheriting? then 1 else 0
  }

  function IsGone(pc: Pc): nat
  {
    if Gone(pc) then 1 else 0
  }

  /** The law of the non-robust mutex: while a thread is parked, the word says so or somebody is roused. */
  ghost predicate Roused(s: State)
  {
    s.word != -1 && Sum(s.pcs, IsParked) > 0 ==> s.event || Sum(s.pcs, Rouses) > 0
  }

  /**
   The last one roused ends its wait because the mutex is inherited or not recoverable,
   rouses nobody, and leaves a word that does not tell of the thread still parked.
   */
  ghost predicate LosesWakeup(s: State, t: Tid, a: Action)
  {
    && a == Lock(Inherit) && (s.recovery == OwnerDead || s.recovery == NotRecoverable)
    && s.word != -1 && !s.event
    && Sum(s.pcs, IsParked) > 0 && Sum(s.pcs, Rouses) == 1
  }

  lemma RousedMoves(s: State, t: Tid, s': State)
    requires t < |s.pcs| == |s'.pcs| && s'.pcs == s.pcs[t := s'.pcs[t]]
    ensures Sum(s'.pcs, IsParked) + IsParked(s.pcs[t]) == Sum(s.pcs, IsParked) + IsParked(s'.pcs[t])
    ensures Sum(s'.pcs, Rouses) + Rouses(s.pcs[t]) == Sum(s.pcs, Rouses) + Rouses(s'.pcs[t])
    ensures Sum(s'.pcs, IsGone) + IsGone(s.pcs[t]) == Sum(s.pcs, IsGone) + IsGone(s'.pcs[t])
  {
    SumUpdate(s.pcs, t, s'.pcs[t], IsParked);
    SumUpdate(s.pcs, t, s'.pcs[t], Rouses);
    SumUpdate(s.pcs, t, s'.pcs[t], IsGone);
  }

  /** Only thread `t` has moved; a death is counted when an owner goes, and its mark needs a death. */
  predicate MovesOne(s: State, t: Tid, s': State)
    requires t < |s.pcs|
  {
    && |s'.pcs| == |s.pcs| && s'.pcs == s.pcs[t := s'.pcs[t]]
    && s.deaths <= s'.deaths && s'.deaths - s.deaths <= IsGone(s'.pcs[t]) - IsGone(s.pcs[t])
    && (s'.deaths == 0 && s.recovery == Consistent ==> s'.recovery == Consistent)
  }

  lemma LockMovesOne(s: State, t: Tid, a: LockStep)
    requires t < |s.pcs| && LockEnabled(s, t, a)
    ensures MovesOne(s, t, LockApply(s, t, a))
  {
  }

  lemma TryMovesOne(s: State, t: Tid, a: TryStep)
    requires t < |s.pcs| && TryEnabled(s, t, a)
    ensures MovesOne(s, t, TryApply(s, t, a))
  {
  }

  lemma UnlockMovesOne(s: State, t: Tid, a: UnlockStep)
    requires t < |s.pcs| && UnlockEnabled(s, t, a)
    ensures MovesOne(s, t, UnlockApply(s, t, a))
  {
  }

  lemma OneThreadMoves(s: State, t: Tid, a: Action)
    requires Enabled(s, t, a)
    ensures MovesOne(s, t, Apply(s, t, a))
  {
    match a
    case Lock(l) => LockMovesOne(s, t, l);
    case TryLock(y) => TryMovesOne(s, t, y);
    case Unlock(u) => UnlockMovesOne(s, t, u);
  }

  /** The law is lost exactly there: no other step of any thread breaks it. */
  lemma LostExactlyWhen(s: State, t: Tid, a: Action)
    requires Enabled(s, t, a) && Roused(s)
    ensures Roused(Apply(s, t, a)) <==> !LosesWakeup(s, t, a)
  {
    OneThreadMoves(s, t, a);
    RousedMoves(s, t, Apply(s, t, a));
    match a
    case Lock(l) => LockRouses(s, t, l);
    case TryLock(y) => TryRouses(s, t, y);
    case Unlock(u) => UnlockRouses(s, t, u);
  }

  lemma LockRouses(s: State, t: Tid, a: LockStep)
    requires t < |s.pcs| && LockEnabled(s, t, a) && Roused(s)
    requires RousedMoved(s, t, LockApply(s, t, a))
    ensures Roused(LockApply(s, t, a)) <==> !LosesWakeup(s, t, Lock(a))
  {
  }

  lemma TryRouses(s: State, t: Tid, a: TryStep)
    requires t < |s.pcs| && TryEnabled(s, t, a) && Roused(s)
    requires RousedMoved(s, t, TryApply(s, t, a))
    ensures Roused(TryApply(s, t, a))
  {
  }

  lemma UnlockRouses(s: State, t: Tid, a: UnlockStep)
    requires t < |s.pcs| && UnlockEnabled(s, t, a) && Roused(s)
    requires RousedMoved(s, t, UnlockApply(s, t, a))
    ensures Roused(UnlockApply(s, t, a))
  {
  }

  ghost predicate RousedMoved(s: State, t: Tid, s': State)
    requires t < |s.pcs|
  {
    && |s'.pcs| == |s.pcs|
    && Sum(s'.pcs, IsParked) + IsParked(s.pcs[t]) == Sum(s.pcs, IsParked) + IsParked(s'.pcs[t])
    && Sum(s'.pcs, Rouses) + Rouses(s.pcs[t]) == Sum(s.pcs, Rouses) + Rouses(s'.pcs[t])
  }

  // Without deaths, or with two threads, that never happens.

  ghost predicate LawOk(s: State)
  {
    && s.deaths <= Sum(s.pcs, IsGone)
    && (s.deaths == 0 ==> s.recovery == Consistent)
    && (s.deaths == 0 || |s.pcs| <= 2 ==> Roused(s))
  }

  lemma DeathsAreGone(s: State, t: Tid, a: Action)
    requires Enabled(s, t, a) && s.deaths <= Sum(s.pcs, IsGone) && (s.deaths == 0 ==> s.recovery == Consistent)
    ensures var s' := Apply(s, t, a);
      && s.deaths <= s'.deaths <= Sum(s'.pcs, IsGone)
      && (s'.deaths == 0 ==> s'.recovery == Consistent)
  {
    OneThreadMoves(s, t, a);
    RousedMoves(s, t, Apply(s, t, a));
  }

  lemma TwoLiveThreads(pcs: seq<Pc>, t: Tid, u: Tid)
    requires |pcs| <= 2 && t < |pcs| && u < |pcs| && t != u && !Gone(pcs[t]) && !Gone(pcs[u])
    ensures Sum(pcs, IsGone) == 0
  {
    SumZero(pcs, IsGone);
  }

  lemma StepKeepsLaw(s: State, t: Tid, a: Action)
    requires LawOk(s) && Enabled(s, t, a)
    ensures LawOk(Apply(s, t, a)) && |Apply(s, t, a).pcs| == |s.pcs|
  {
    DeathsAreGone(s, t, a);
    OneThreadMoves(s, t, a);
    if s.deaths == 0 || |s.pcs| <= 2 {
      LostExactlyWhen(s, t, a);
      if LosesWakeup(s, t, a) {
        var u := SumWitness(s.pcs, IsParked);
        assert s.deaths > 0;
        TwoLiveThreads(s.pcs, t, u);
      }
    }
  }

  lemma RunsKeepLaw(tr: seq<State>, kind: Kind, threads: nat)
    requires Run(tr, kind, threads)
    ensures LawOk(tr[|tr| - 1])
  {
    SumZero(tr[0].pcs, IsParked);
    forall s: State, s': State | LawOk(s) && Next(s, s') ensures LawOk(s') {
      NextKeepsLaw(s, s');
    }
    RunKeeps(tr, Next, LawOk);
  }

  lemma NextKeepsLaw(s: State, s': State)
    requires LawOk(s) && Next(s, s')
    ensures LawOk(s')
  {
    var t, a :| Enabled(s, t, a) && s' == Apply(s, t, a);
    StepKeepsLaw(s, t, a);
  }

  lemma ReachableLaw(s: State)
    requires Reachable(s)
    ensures LawOk(s)
  {
    var tr: seq<State>, kind: Kind, threads: nat :| Run(tr, kind, threads) && s == tr[|tr| - 1];
    RunsKeepLaw(tr, kind, threads);
  }

  // With three threads and one death it does. The runs, phase by phase.

  lemma ReachableStep(s: State, t: Tid, a: Action)
    requires Reachable(s) && Enabled(s, t, a)
    ensures Reachable(Apply(s, t, a))
  {
    var tr: seq<State>, kind: Kind, threads: nat :| Run(tr, kind, threads) && s == tr[|tr| - 1];
    var s' := Apply(s, t, a);
    assert Next(s, s');
    assert Run(tr + [s'], kind, threads);
  }

  lemma InitialReachable(kind: Kind, threads: nat)
    ensures Reachable(Initial(kind, threads))
  {
    var tr := [Initial(kind, threads)];
    assert Run(tr, kind, threads) && Initial(kind, threads) == tr[|tr| - 1];
  }

  lemma Enters(s: State, t: Tid) returns (s': State)
    requires Reachable(s) && t < |s.pcs| && s.pcs[t] == Idle && s.recovery != NotRecoverable
    ensures Reachable(s') && s' == s.(pcs := s.pcs[t := Arriving])
  {
    var s1 := Apply(s, t, Lock(CallLock));
    s' := Apply(s1, t, Lock(Enter));
    ReachableStep(s, t, Lock(CallLock));
    ReachableStep(s1, t, Lock(Enter));
    assert s'.pcs == s.pcs[t := Arriving];
  }

  /** A lock of the free mutex wins the word. */
  lemma Wins(s: State, t: Tid) returns (s': State)
    requires Reachable(s) && t < |s.pcs| && s.pcs[t] == Idle && s.word == 0 && s.recovery == Consistent
    ensures Reachable(s') && s' == s.(word := 1, holder := By(t), pcs := s.pcs[t := Adding(Ok)])
  {
    var s1 := Enters(s, t);
    s' := Apply(s1, t, Lock(Arrive));
    ReachableStep(s1, t, Lock(Arrive));
    assert s'.pcs == s.pcs[t := Adding(Ok)];
  }

  /** And returns. */
  lemma Locks(s: State, t: Tid) returns (s': State)
    requires Reachable(s) && t < |s.pcs| == |s.held| && s.pcs[t] == Idle && s.word == 0 && s.recovery == Consistent
    ensures Reachable(s')
    ensures s' == s.(word := 1, holder := By(t), owner := By(t), count := 1, held := s.held[t := true])
  {
    var s1 := Wins(s, t);
    s' := Apply(s1, t, Lock(AddToList));
    ReachableStep(s1, t, Lock(AddToList));
    assert s'.pcs == s.pcs;
  }

  /** A lock of the held mutex comes as far as the inheritance test. */
  lemma Arrives(s: State, t: Tid) returns (s': State)
    requires Reachable(s) && t < |s.pcs| && s.pcs[t] == Idle && s.word != 0 && s.recovery != NotRecoverable
    requires s.owner != By(t)
    ensures Reachable(s')
    ensures s' == s.(word := if s.kind == Normal then 1 else s.word, pcs := s.pcs[t := Inheriting])
  {
    var s1 := Enters(s, t);
    s' := Apply(s1, t, Lock(Arrive));
    ReachableStep(s1, t, Lock(Arrive));
    if s.kind != Normal {
      ReachableStep(s', t, Lock(CheckOwner));
      s' := Apply(s', t, Lock(CheckOwner));
    }
    assert s'.pcs == s.pcs[t := Inheriting];
  }

  /** And then parks. */
  lemma Parks(s: State, t: Tid) returns (s': State)
    requires Reachable(s) && t < |s.pcs| && s.pcs[t] == Idle && s.word != 0 && s.recovery == Consistent
    requires s.owner != By(t)
    ensures Reachable(s') && s' == s.(word := -1, pcs := s.pcs[t := Parked])
  {
    var s1 := Arrives(s, t);
    var s2 := Apply(s1, t, Lock(Inherit));
    s' := Apply(s2, t, Lock(Contend));
    ReachableStep(s1, t, Lock(Inherit));
    ReachableStep(s2, t, Lock(Contend));
    assert s'.pcs == s.pcs[t := Parked];
  }

  /** The owner ends. */
  lemma Dies(s: State, t: Tid) returns (s': State)
    requires Reachable(s) && t < |s.pcs| == |s.held| && s.pcs[t] == Idle && s.owner == By(t)
    ensures Reachable(s')
    ensures s' == s.(recovery := OwnerDead, holder := Nobody, deaths := s.deaths + 1, held := s.held[t := false],
                     event := true, pcs := s.pcs[t := Dead])
  {
    var s1 := Apply(s, t, Unlock(Die));
    s' := Apply(s1, t, Unlock(SignalDeath));
    ReachableStep(s, t, Unlock(Die));
    ReachableStep(s1, t, Unlock(SignalDeath));
    assert s'.pcs == s.pcs[t := Dead];
  }

  /** An unlock by the owner, up to the list. */
  lemma PassesOwnerTest(s: State, t: Tid) returns (s': State)
    requires Reachable(s) && t < |s.pcs| && s.pcs[t] == Idle && s.owner == By(t)
    ensures Reachable(s')
    ensures s' == s.(recovery := if s.recovery == Inconsistent then NotRecoverable else s.recovery,
                     pcs := s.pcs[t := Leaving])
  {
    var s1 := Apply(s, t, Unlock(CallUnlock));
    var s2 := Apply(s1, t, Unlock(OwnerTest));
    s' := Apply(s2, t, Unlock(Mark));
    ReachableStep(s, t, Unlock(CallUnlock));
    ReachableStep(s1, t, Unlock(OwnerTest));
    ReachableStep(s2, t, Unlock(Mark));
    assert s'.pcs == s.pcs[t := Leaving];
  }

  /** And, if it has locked once, up to the exchange. */
  lemma LeavesWord(s: State, t: Tid) returns (s': State)
    requires Reachable(s) && t < |s.pcs| == |s.held| && s.pcs[t] == Idle && s.owner == By(t) && s.count == 1
    ensures Reachable(s')
    ensures s' == s.(recovery := if s.recovery == Inconsistent then NotRecoverable else s.recovery,
                     count := if s.kind == Recursive then 0 else 1, owner := Nobody, held := s.held[t := false],
                     pcs := s.pcs[t := Exchanging])
  {
    var s1 := PassesOwnerTest(s, t);
    s' := Apply(s1, t, Unlock(RemoveFromList));
    ReachableStep(s1, t, Unlock(RemoveFromList));
    assert s'.pcs == s.pcs[t := Exchanging];
  }

  /** The whole unlock; the event is set if the word is -1. */
  lemma GivesUp(s: State, t: Tid) returns (s': State)
    requires Reachable(s) && t < |s.pcs| == |s.held| && s.pcs[t] == Idle && s.owner == By(t) && s.count == 1
    ensures Reachable(s')
    ensures s' == s.(recovery := if s.recovery == Inconsistent then NotRecoverable else s.recovery,
                     count := if s.kind == Recursive then 0 else 1, owner := Nobody, held := s.held[t := false],
                     word := 0, holder := Nobody, event := s.event || s.word < 0)
  {
    var s1 := LeavesWord(s, t);
    s' := Apply(s1, t, Unlock(Exchange));
    ReachableStep(s1, t, Unlock(Exchange));
    if s.word < 0 {
      ReachableStep(s', t, Unlock(Signal));
      s' := Apply(s', t, Unlock(Signal));
    }
    assert s'.pcs == s.pcs;
  }

  /** A parked thread wakes and comes as far as the inheritance test. */
  lemma Wakes(s: State, t: Tid) returns (s': State)
    requires Reachable(s) && t < |s.pcs| && s.pcs[t] == Parked && s.event && s.recovery != NotRecoverable
    ensures Reachable(s') && s' == s.(event := false, pcs := s.pcs[t := Inheriting])
  {
    var s1 := Apply(s, t, Lock(Wake));
    s' := Apply(s1, t, Lock(Recheck));
    ReachableStep(s, t, Lock(Wake));
    ReachableStep(s1, t, Lock(Recheck));
    assert s'.pcs == s.pcs[t := Inheriting];
  }

  /** It inherits the dead owner's mutex. */
  lemma Inherits(s: State, t: Tid) returns (s': State)
    requires Reachable(s) && t < |s.pcs| == |s.held| && s.pcs[t] == Inheriting && s.recovery == OwnerDead
    ensures Reachable(s')
    ensures s' == s.(recovery := Inconsistent, holder := By(t), inherited := s.inherited + 1,
                     owner := By(t), count := 1, held := s.held[t := true], pcs := s.pcs[t := Idle])
  {
    var s1 := Apply(s, t, Lock(Inherit));
    s' := Apply(s1, t, Lock(AddToList));
    ReachableStep(s, t, Lock(Inherit));
    ReachableStep(s1, t, Lock(AddToList));
    assert s'.pcs == s.pcs[t := Idle];
  }

  /** No operation in progress will wake thread `t`, although the mutex is free. */
  ghost predicate Stranded(s: State, t: Tid)
  {
    && t < |s.pcs| && s.pcs[t] == Parked && s.word == 0 && !s.event
    && forall u: Tid :: u < |s.pcs| && u != t ==> s.pcs[u] == Idle || s.pcs[u] == Dead
  }

  lemma StrandedIsNotRoused(s: State, t: Tid)
    requires Stranded(s, t)
    ensures !Roused(s)
  {
    SumAtLeast(s.pcs, t, IsParked);
    SumZero(s.pcs, Rouses);
  }

  /** Thread 0 has locked and unlocked while threads 1 and 2 parked; one of them is to wake. */
  lemma TwoAreParked(kind: Kind, threads: nat) returns (s: State)
    requires threads >= 3
    ensures Reachable(s) && s.kind == kind && |s.pcs| == |s.held| == threads
    ensures s.word == 0 && s.event && s.recovery == Consistent && s.deaths == 0
    ensures s.pcs == Initial(kind, threads).pcs[1 := Parked][2 := Parked]
  {
    s := Initial(kind, threads);
    InitialReachable(kind, threads);
    s := Locks(s, 0);
    s := Parks(s, 1);
    s := Parks(s, 2);
    s := GivesUp(s, 0);
  }

  /**
   One event for two causes. Thread 0 unlocks, setting the event for the two parked threads;
   it locks again and ends, and the SetEvent of its death finds the event set already.
   Thread 1 wakes and inherits with the word at 1; its unlock signals nobody, and thread 2
   sleeps on at a free and consistent mutex.
   */
  lemma DeathHidesWakeup(kind: Kind, threads: nat) returns (s: State)
    requires threads >= 3
    ensures Reachable(s) && s.kind == kind && |s.pcs| == threads && s.deaths == 1 && s.recovery == Consistent
    ensures Stranded(s, 2)
  {
    s := TwoAreParked(kind, threads);
    s := Locks(s, 0);
    s := Dies(s, 0);
    s := Wakes(s, 1);
    s := Inherits(s, 1);
    ReachableStep(s, 1, Unlock(MakeConsistent));
    s := Apply(s, 1, Unlock(MakeConsistent));
    s := GivesUp(s, 1);
  }

  /**
   A refusal that is not passed on. Threads 1 and 3 are parked when the owner, thread 0,
   ends. Thread 2, arriving, overwrites the word with 1 and inherits. Thread 1 wakes, and
   rechecks before thread 2 unlocks without making the mutex consistent, which signals
   nobody. The inheritance test then turns thread 1 away, and thread 3 sleeps on for ever.
   */
  lemma RefusalHidesWakeup(threads: nat) returns (s: State)
    requires threads >= 4
    ensures Reachable(s) && s.kind == Normal && |s.pcs| == threads && s.deaths == 1
    ensures Stranded(s, 3) && Forsaken(s, 3)
  {
    s := Initial(Normal, threads);
    InitialReachable(Normal, threads);
    s := Locks(s, 0);
    s := Parks(s, 1);
    s := Parks(s, 3);
    s := Dies(s, 0);
    s := Arrives(s, 2);
    s := Inherits(s, 2);
    s := Wakes(s, 1);
    s := GivesUp(s, 2);
    ReachableStep(s, 1, Lock(Inherit));
    s := Apply(s, 1, Lock(Inherit));
  }

  /** The same for good: a mutex that is not recoverable and that nobody can come to own. */
  ghost predicate Forsaken(s: State, t: Tid)
  {
    && t < |s.pcs| && s.pcs[t] == Parked && !s.event && s.recovery == NotRecoverable && s.owner == Nobody
    && forall u: Tid :: u < |s.pcs| && u != t ==>
         var pc := s.pcs[u]; pc.Idle? || pc.Dead? || pc.Entering? || pc.TryEntering? || pc.UnlockCheck?
  }

  lemma ForsakenStays(s: State, t: Tid, u: Tid, a: Action)
    requires Forsaken(s, t) && Enabled(s, u, a)
    ensures Forsaken(Apply(s, u, a), t)
  {
  }

  /** A forsaken thread sleeps on in every continuation, whatever anybody calls. */
  lemma {:induction false} ForsakenForEver(tr: seq<State>, t: Tid)
    requires IsRun(tr, Next) && Forsaken(tr[0], t)
    ensures Forsaken(tr[|tr| - 1], t)
  {
    var k := |tr| - 1;
    if k > 0 {
      ForsakenForEver(tr[..k], t);
      ForsakenNext(tr[k - 1], tr[k], t);
    }
  }

  lemma ForsakenNext(s: State, s': State, t: Tid)
    requires Forsaken(s, t) && Next(s, s')
    ensures Forsaken(s', t)
  {
    var u, a :| Enabled(s, u, a) && s' == Apply(s, u, a);
    ForsakenStays(s, t, u, a);
  }

  /**
   The exact condition. With `threads` threads of which at most `deaths` end as owners,
   every parked thread is always roused if and only if no owner ends or there are at most
   two threads.
   */
  lemma RousedExactly(kind: Kind, threads: nat, deaths: nat)
    ensures (forall s :: Reachable(s) && s.kind == kind && |s.pcs| == threads && s.deaths <= deaths ==> Roused(s))
      <==> deaths == 0 || threads <= 2
  {
    if deaths == 0 || threads <= 2 {
      forall s | Reachable(s) && s.kind == kind && |s.pcs| == threads && s.deaths <= deaths ensures Roused(s) {
        ReachableLaw(s);
      }
    } else {
      var s := DeathHidesWakeup(kind, threads);
      StrandedIsNotRoused(s, 2);
    }
  }
}
