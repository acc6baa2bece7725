/**
 The queue lock of Mellor-Crummey and Scott as adapted by ptw32_MCS_lock.c: each flag
 word holds 0, -1 or an event handle, a holder may move its place in the queue to
 another node, and nodes live on the stacks of their users.

 One action per interlocked operation, event wait and event set, for one lock and any
 number of nodes; plain writes to a node that nobody else can reach yet belong to the
 interlocked operation that publishes it. Every node carries the program counter of the
 operation in progress on it. `History` records what happened: no guard and no program
 counter ever reads it.
 */
module McsLock {
  import opened Population
  import opened Runs

  type Node = nat
  type Handle = nat

  datatype Ref = Null | At(node: Node)

  /** A flag word: 0, -1, or the handle of the event on which its reader waits. */
  datatype Flag = Clear | Raised | Stored(event: Handle)

  datatype Cell = Cell(next: Ref, nextFlag: Flag, readyFlag: Flag)

  /** An open auto-reset event and the node whose wait created it. */
  datatype Event = Event(signalled: bool, creator: Node)

  /** What a holder does once its successor has finished linking. */
  datatype After = PassTo(next: Node) | RereadNext | MoveTo(target: Node)

  /** Program points; the numbers are lines of ptw32_MCS_lock.c. */
  datatype Pc =
    | Idle
    // acquire: behind a predecessor
    | Linking(pred: Node)              // 191
    | SettingNext(pred: Node)          // 192, in flag_set 112
    | SignallingNext(event: Handle)    // 192, in flag_set 129
    | AwaitingReady                    // 193, in flag_wait 142
    | OfferingReady(event: Handle)     // 193, in flag_wait 150
    | ParkedReady(event: Handle)       // 193, in flag_wait 156
    | Held
    // release
    | Freeing                          // 220
    | AwaitingNext(after: After)       // 230, 237, 300, in flag_wait 142
    | OfferingNext(after: After, event: Handle)   // the same, in flag_wait 150
    | ParkedNext(after: After, event: Handle)     // the same, in flag_wait 156
    | Rereading                        // 231
    | Passing(next: Node)              // 241, in flag_set 112
    | SignallingReady(event: Handle)   // 241, in flag_set 129
    // transfer
    | Spinning(target: Node)           // 294
    | Moving(target: Node)             // 305
    | Reserved                         // target of a transfer in progress

  /**
   The k-th exchange or compare-exchange that queued a node takes ticket k. `log[k]` is
   the node standing for ticket k now, `pos` the latest ticket of each node, `head` the
   first ticket that has not been passed on. `arrived` and `granted` list the nodes in
   the order in which they queued and in which their acquire returned. `signaller` is
   the release that has left the queue but not yet called SetEvent.
   */
  datatype History = History(
    log: seq<Node>, pos: seq<nat>, head: nat, arrived: seq<Node>, granted: seq<Node>, signaller: Ref)

  datatype State = State(lock: Ref, cells: seq<Cell>, pcs: seq<Pc>, open: map<Handle, Event>, h: History)

  datatype AcquireStep =
    | Enqueue | TryEnqueue | Link | SetNext | SignalNext | ReadReady(event: Handle) | OfferReady | WakeReady

  datatype ReleaseStep = Leave | Free | Reread | Pass | SignalReady

  /** The wait on the node's own nextFlag, in release and in transfer. */
  datatype AwaitStep = ReadNext(event: Handle) | OfferNext | WakeNext

  datatype TransferStep = Replace(target: Node) | Spin | Move

  datatype Action = Acquire(a: AcquireStep) | Release(r: ReleaseStep) | Await(w: AwaitStep) | Transfer(m: TransferStep)

  const FRESH := Cell(Null, Clear, Clear)

  predicate Sized(s: State)
  {
    |s.cells| == |s.pcs| == |s.h.pos|
  }

  // When the operation in progress on `n` can perform a step. A pointer that is about to
  // be followed must point to a node, a handle that is about to be set must be open.

  predicate AcquireEnabled(s: State, n: Node, a: AcquireStep)
    requires Sized(s) && n < |s.pcs|
  {
    match a
    case Enqueue => s.pcs[n] == Idle
    case TryEnqueue => s.pcs[n] == Idle
    case Link => s.pcs[n].Linking? && s.pcs[n].pred < |s.pcs|
    case SetNext => s.pcs[n].SettingNext? && s.pcs[n].pred < |s.pcs|
    case SignalNext => s.pcs[n].SignallingNext? && s.pcs[n].event in s.open
    case ReadReady(e) => s.pcs[n].AwaitingReady? && e !in s.open
    case OfferReady => s.pcs[n].OfferingReady?
    case WakeReady => s.pcs[n].ParkedReady? && IsSet(s, s.pcs[n].event)
  }

  predicate ReleaseEnabled(s: State, n: Node, a: ReleaseStep)
    requires Sized(s) && n < |s.pcs|
  {
    match a
    case Leave => s.pcs[n] == Held
    case Free => s.pcs[n] == Freeing
    case Reread => s.pcs[n] == Rereading && s.cells[n].next.At?
    case Pass => s.pcs[n].Passing? && s.pcs[n].next < |s.pcs|
    case SignalReady => s.pcs[n].SignallingReady? && s.pcs[n].event in s.open
  }

  predicate AwaitEnabled(s: State, n: Node, a: AwaitStep)
    requires Sized(s) && n < |s.pcs|
  {
    match a
    case ReadNext(e) => s.pcs[n].AwaitingNext? && e !in s.open
    case OfferNext => s.pcs[n].OfferingNext?
    case WakeNext => s.pcs[n].ParkedNext? && IsSet(s, s.pcs[n].event)
  }

  predicate TransferEnabled(s: State, n: Node, a: TransferStep)
    requires Sized(s) && n < |s.pcs|
  {
    match a
    case Replace(m) => s.pcs[n] == Held && m < |s.pcs| && s.pcs[m] == Idle
    case Spin => s.pcs[n].Spinning?
    case Move => s.pcs[n].Moving? && s.pcs[n].target < |s.pcs|
  }

  predicate Enabled(s: State, n: Node, a: Action)
    requires Sized(s)
  {
    n < |s.pcs| &&
    match a
    case Acquire(b) => AcquireEnabled(s, n, b)
    case Release(b) => ReleaseEnabled(s, n, b)
    case Await(b) => AwaitEnabled(s, n, b)
    case Transfer(b) => TransferEnabled(s, n, b)
  }

  predicate IsSet(s: State, e: Handle)
  {
    e in s.open && s.open[e].signalled
  }

  /** The program point after the wait on the successor's flag (lines 230-241, 305). */
  function Resume(k: After): Pc
  {
    match k
    case PassTo(x) => Passing(x)
    case RereadNext => Rereading
    case MoveTo(m) => Moving(m)
  }

  function DoEnqueue(s: State, n: Node): State
    requires Sized(s) && n < |s.pcs|
  {
    var s' := s.(lock := At(n), cells := s.cells[n := FRESH],
                 h := s.h.(log := s.h.log + [n], pos := s.h.pos[n := |s.h.log|], arrived := s.h.arrived + [n]));
    match s.lock
    case Null => Grant(s', n)
    case At(p) => s'.(pcs := s.pcs[n := Linking(p)])
  }

  /** The acquire operation on `n` returns: `n` holds the lock. */
  function Grant(s: State, n: Node): State
    requires n < |s.pcs|
  {
    s.(pcs := s.pcs[n := Held], h := s.h.(granted := s.h.granted + [n]))
  }

  /** `m` takes the place of `n` at the front of the queue. */
  function Substitute(h: History, n: Node, m: Node): History
  {
    if h.head < |h.log| && n < |h.pos| && m < |h.pos|
    then h.(log := h.log[h.head := m], pos := h.pos[m := h.pos[n]])
    else h
  }

  function DoTryEnqueue(s: State, n: Node): State
    requires Sized(s) && n < |s.pcs| && s.pcs[n] == Idle
  {
    if s.lock == Null then DoEnqueue(s, n) else s.(cells := s.cells[n := FRESH])
  }

  function DoLink(s: State, n: Node): State
    requires Sized(s) && n < |s.pcs| && s.pcs[n].Linking? && s.pcs[n].pred < |s.pcs|
  {
    var p := s.pcs[n].pred;
    s.(cells := s.cells[p := s.cells[p].(next := At(n))], pcs := s.pcs[n := SettingNext(p)])
  }

  function DoSetNext(s: State, n: Node): State
    requires Sized(s) && n < |s.pcs| && s.pcs[n].SettingNext? && s.pcs[n].pred < |s.pcs|
  {
    var p := s.pcs[n].pred;
    (match s.cells[p].nextFlag
     case Clear => s.(cells := s.cells[p := s.cells[p].(nextFlag := Raised)], pcs := s.pcs[n := AwaitingReady])
     case Raised => s.(pcs := s.pcs[n := AwaitingReady])
     case Stored(e) => s.(pcs := s.pcs[n := SignallingNext(e)]))
  }

  function DoSignalNext(s: State, n: Node): State
    requires Sized(s) && n < |s.pcs| && s.pcs[n].SignallingNext? && s.pcs[n].event in s.open
  {
    var e := s.pcs[n].event;
    s.(open := s.open[e := s.open[e].(signalled := true)], pcs := s.pcs[n := AwaitingReady])
  }

  function DoReadReady(s: State, n: Node, e: Handle): State
    requires Sized(s) && n < |s.pcs| && s.pcs[n].AwaitingReady? && e !in s.open
  {
    if s.cells[n].readyFlag == Clear
    then s.(open := s.open[e := Event(false, n)], pcs := s.pcs[n := OfferingReady(e)])
    else Grant(s, n)
  }

  function DoOfferReady(s: State, n: Node): State
    requires Sized(s) && n < |s.pcs| && s.pcs[n].OfferingReady?
  {
    var e := s.pcs[n].event;
    if s.cells[n].readyFlag == Clear
    then s.(cells := s.cells[n := s.cells[n].(readyFlag := Stored(e))], pcs := s.pcs[n := ParkedReady(e)])
    else Grant(s.(open := s.open - {e}), n)
  }

  function DoWakeReady(s: State, n: Node): State
    requires Sized(s) && n < |s.pcs| && s.pcs[n].ParkedReady? && IsSet(s, s.pcs[n].event)
  {
    Grant(s.(open := s.open - {s.pcs[n].event}), n)
  }

  function DoLeave(s: State, n: Node): State
    requires Sized(s) && n < |s.pcs| && s.pcs[n] == Held
  {
    (match s.cells[n].next
     case Null => s.(pcs := s.pcs[n := Freeing])
     case At(x) => s.(pcs := s.pcs[n := AwaitingNext(PassTo(x))]))
  }

  function DoFree(s: State, n: Node): State
    requires Sized(s) && n < |s.pcs| && s.pcs[n] == Freeing
  {
    if s.lock == At(n)
    then s.(lock := Null, pcs := s.pcs[n := Idle], h := s.h.(head := s.h.head + 1))
    else s.(pcs := s.pcs[n := AwaitingNext(RereadNext)])
  }

  function DoReadNext(s: State, n: Node, e: Handle): State
    requires Sized(s) && n < |s.pcs| && s.pcs[n].AwaitingNext? && e !in s.open
  {
    var k := s.pcs[n].after;
    if s.cells[n].nextFlag == Clear
    then s.(open := s.open[e := Event(false, n)], pcs := s.pcs[n := OfferingNext(k, e)])
    else s.(pcs := s.pcs[n := Resume(k)])
  }

  function DoOfferNext(s: State, n: Node): State
    requires Sized(s) && n < |s.pcs| && s.pcs[n].OfferingNext?
  {
    var k, e := s.pcs[n].after, s.pcs[n].event;
    if s.cells[n].nextFlag == Clear
    then s.(cells := s.cells[n := s.cells[n].(nextFlag := Stored(e))], pcs := s.pcs[n := ParkedNext(k, e)])
    else s.(open := s.open - {e}, pcs := s.pcs[n := Resume(k)])
  }

  function DoWakeNext(s: State, n: Node): State
    requires Sized(s) && n < |s.pcs| && s.pcs[n].ParkedNext? && IsSet(s, s.pcs[n].event)
  {
    s.(open := s.open - {s.pcs[n].event}, pcs := s.pcs[n := Resume(s.pcs[n].after)])
  }

  function DoReread(s: State, n: Node): State
    requires Sized(s) && n < |s.pcs| && s.pcs[n] == Rereading && s.cells[n].next.At?
  {
    s.(pcs := s.pcs[n := Passing(s.cells[n].next.node)])
  }

  function DoPass(s: State, n: Node): State
    requires Sized(s) && n < |s.pcs| && s.pcs[n].Passing? && s.pcs[n].next < |s.pcs|
  {
    var x := s.pcs[n].next;
    (match s.cells[x].readyFlag
     case Clear =>
       s.(cells := s.cells[x := s.cells[x].(readyFlag := Raised)],
          pcs := s.pcs[n := Idle], h := s.h.(head := s.h.head + 1))
     case Raised => s.(pcs := s.pcs[n := Idle], h := s.h.(head := s.h.head + 1))
     case Stored(e) =>
       s.(pcs := s.pcs[n := SignallingReady(e)], h := s.h.(head := s.h.head + 1, signaller := At(n))))
  }

  function DoSignalReady(s: State, n: Node): State
    requires Sized(s) && n < |s.pcs| && s.pcs[n].SignallingReady? && s.pcs[n].event in s.open
  {
    var e := s.pcs[n].event;
    s.(open := s.open[e := s.open[e].(signalled := true)], pcs := s.pcs[n := Idle],
       h := s.h.(signaller := Null))
  }

  function DoReplace(s: State, n: Node, m: Node): State
    requires Sized(s) && n < |s.pcs| && s.pcs[n] == Held && m < |s.pcs| && s.pcs[m] == Idle
  {
    if s.lock == At(n)
    then s.(lock := At(m), cells := s.cells[m := FRESH], pcs := s.pcs[n := Idle][m := Held],
            h := Substitute(s.h, n, m))
    else s.(cells := s.cells[m := FRESH], pcs := s.pcs[n := Spinning(m)][m := Reserved])
  }

  function DoSpin(s: State, n: Node): State
    requires Sized(s) && n < |s.pcs| && s.pcs[n].Spinning?
  {
    if s.cells[n].next == Null then s
    else s.(pcs := s.pcs[n := AwaitingNext(MoveTo(s.pcs[n].target))])
  }

  function DoMove(s: State, n: Node): State
    requires Sized(s) && n < |s.pcs| && s.pcs[n].Moving? && s.pcs[n].target < |s.pcs|
  {
    var m := s.pcs[n].target;
    s.(cells := s.cells[m := s.cells[m].(next := s.cells[n].next, nextFlag := s.cells[n].nextFlag)],
       pcs := s.pcs[n := Idle][m := Held],
       h := Substitute(s.h, n, m))
  }

  function AcquireApply(s: State, n: Node, a: AcquireStep): State
    requires Sized(s) && n < |s.pcs| && AcquireEnabled(s, n, a)
  {
    match a
    case Enqueue => DoEnqueue(s, n)
    case TryEnqueue => DoTryEnqueue(s, n)
    case Link => DoLink(s, n)
    case SetNext => DoSetNext(s, n)
    case SignalNext => DoSignalNext(s, n)
    case ReadReady(e) => DoReadReady(s, n, e)
    case OfferReady => DoOfferReady(s, n)
    case WakeReady => DoWakeReady(s, n)
  }

  function ReleaseApply(s: State, n: Node, a: ReleaseStep): State
    requires Sized(s) && n < |s.pcs| && ReleaseEnabled(s, n, a)
  {
    match a
    case Leave => DoLeave(s, n)
    case Free => DoFree(s, n)
    case Reread => DoReread(s, n)
    case Pass => DoPass(s, n)
    case SignalReady => DoSignalReady(s, n)
  }

  function AwaitApply(s: State, n: Node, a: AwaitStep): State
    requires Sized(s) && n < |s.pcs| && AwaitEnabled(s, n, a)
  {
    match a
    case ReadNext(e) => DoReadNext(s, n, e)
    case OfferNext => DoOfferNext(s, n)
    case WakeNext => DoWakeNext(s, n)
  }

  function TransferApply(s: State, n: Node, a: TransferStep): State
    requires Sized(s) && n < |s.pcs| && TransferEnabled(s, n, a)
  {
    match a
    case Replace(m) => DoReplace(s, n, m)
    case Spin => DoSpin(s, n)
    case Move => DoMove(s, n)
  }

  function Apply(s: State, n: Node, a: Action): State
    requires Sized(s) && Enabled(s, n, a)
  {
    match a
    case Acquire(b) => AcquireApply(s, n, b)
    case Release(b) => ReleaseApply(s, n, b)
    case Await(b) => AwaitApply(s, n, b)
    case Transfer(b) => TransferApply(s, n, b)
  }

  function Initial(nodes: nat): State
  {
    State(Null, seq(nodes, _ => FRESH), seq(nodes, _ => Idle), map[],
          History([], seq(nodes, _ => 0), 0, [], [], Null))
  }

  // ---------- the invariant ----------

  /** From the moment the lock is granted until the release hands it on. */
  predicate Owns(pc: Pc)
  {
    pc.Held? || pc.Freeing? || pc.AwaitingNext? || pc.OfferingNext? || pc.ParkedNext?
    || pc.Rereading? || pc.Passing? || pc.Spinning? || pc.Moving?
  }

  predicate Waits(pc: Pc)
  {
    pc.AwaitingReady? || pc.OfferingReady? || pc.ParkedReady?
  }

  predicate Joins(pc: Pc)
  {
    pc.Linking? || pc.SettingNext? || pc.SignallingNext?
  }

  predicate Queued(pc: Pc)
  {
    Owns(pc) || Waits(pc) || Joins(pc)
  }

  /** The wait for the successor's signal is over. */
  predicate SawNext(pc: Pc)
  {
    pc.Rereading? || pc.Passing? || pc.Moving?
  }

  /** The operation has created an event and not closed it yet. */
  predicate Waiting(pc: Pc)
  {
    pc.OfferingReady? || pc.ParkedReady? || pc.OfferingNext? || pc.ParkedNext?
  }

  /** The event on which an operation waits, or is about to wait, has been set. */
  predicate Rung(open: map<Handle, Event>, pc: Pc)
  {
    Waiting(pc) && pc.event in open && open[pc.event].signalled
  }

  /** The continuation of an operation that waits for its successor or has seen it. */
  predicate HasAfter(pc: Pc, k: After)
  {
    if pc.AwaitingNext? || pc.OfferingNext? || pc.ParkedNext? then pc.after == k
    else if pc.Passing? then k == PassTo(pc.next)
    else if pc.Spinning? || pc.Moving? then k == MoveTo(pc.target)
    else false
  }

  /** The successor has not yet performed its flag_set on the nextFlag of `c`. */
  predicate Unset(c: Cell, pc: Pc, rung: bool)
  {
    && !SawNext(pc)
    && (if pc.ParkedNext? then c.nextFlag == Stored(pc.event) && !rung else c.nextFlag == Clear)
  }

  /** How the queued node `q` stands to its predecessor `p`, whose cell is `c`. */
  predicate Linked(q: Node, pc: Pc, p: Node, c: Cell, ppc: Pc, rung: bool)
  {
    if pc.Linking? then pc.pred == p && c.next == Null && Unset(c, ppc, rung)
    else if pc.SettingNext? then pc.pred == p && c.next == At(q) && Unset(c, ppc, rung)
    else if pc.SignallingNext? then c.next == At(q) && c.nextFlag == Stored(pc.event) && Unset(c, ppc, rung)
    else c.next == At(q) && c.nextFlag != Clear && (ppc.ParkedNext? ==> rung)
  }

  /** The last node of the queue: nobody has touched it. */
  predicate Untouched(c: Cell, pc: Pc)
  {
    && c.next == Null
    && c.nextFlag == Clear
    && (Joins(pc) || Waits(pc) || pc.Held? || pc.Freeing?)
  }

  /** A queued node that is not first: its readyFlag has not been set. */
  predicate Ungranted(c: Cell, pc: Pc, rung: bool)
  {
    && !Owns(pc)
    && (if pc.ParkedReady? then c.readyFlag == Stored(pc.event) && !rung else c.readyFlag == Clear)
  }

  /** The first queued node while it has not noticed yet that the lock is its own. */
  predicate Granted(c: Cell, pc: Pc, rung: bool, signaller: Pc)
  {
    && Waits(pc)
    && (if pc.ParkedReady?
        then c.readyFlag == Stored(pc.event) && signaller == (if rung then Reserved else SignallingReady(pc.event))
        else c.readyFlag == Raised && signaller == Reserved)
  }

  /** What the release that left the queue without having signalled yet is doing. */
  function Signaller(s: State): Pc
  {
    if s.h.signaller.At? && s.h.signaller.node < |s.pcs| then s.pcs[s.h.signaller.node] else Reserved
  }

  /** The queued node `n` and its place. */
  ghost predicate PlaceOk(s: State, n: Node)
    requires Sized(s) && n < |s.pcs|
  {
    var k := s.h.pos[n];
    && s.h.head <= k < |s.h.log| && s.h.log[k] == n
    && (Owns(s.pcs[n]) ==> k == s.h.head && s.h.signaller == Null)
    && (k == s.h.head && !Owns(s.pcs[n]) ==>
          Granted(s.cells[n], s.pcs[n], Rung(s.open, s.pcs[n]), Signaller(s)))
    && (k > s.h.head ==>
          var p := s.h.log[k - 1];
          && p < |s.pcs|
          && Ungranted(s.cells[n], s.pcs[n], Rung(s.open, s.pcs[n]))
          && Linked(n, s.pcs[n], p, s.cells[p], s.pcs[p], Rung(s.open, s.pcs[p])))
    && (k == |s.h.log| - 1 ==> Untouched(s.cells[n], s.pcs[n]))
  }

  /** The memory of the operation on `n`: its event, its continuation. */
  ghost predicate MemoryOk(s: State, n: Node)
    requires Sized(s) && n < |s.pcs|
  {
    var pc := s.pcs[n];
    && (Waiting(pc) ==> pc.event in s.open && s.open[pc.event].creator == n)
    && (pc.OfferingReady? || pc.OfferingNext? ==> !Rung(s.open, pc))
    && (pc.ParkedNext? ==> s.cells[n].nextFlag == Stored(pc.event))
    && (SawNext(pc) ==> s.cells[n].next.At? && s.cells[n].nextFlag != Clear)
    && (pc.SignallingReady? ==>
          && s.h.signaller == At(n)
          && s.h.head < |s.h.log| && s.h.log[s.h.head] < |s.pcs|
          && s.pcs[s.h.log[s.h.head]] == ParkedReady(pc.event))
    && (pc.Reserved? ==>
          && s.cells[n] == FRESH
          && s.h.head < |s.h.log| && s.h.log[s.h.head] < |s.pcs|
          && HasAfter(s.pcs[s.h.log[s.h.head]], MoveTo(n)))
  }

  ghost predicate AfterOk(s: State, n: Node, k: After)
    requires Sized(s) && n < |s.pcs|
  {
    && (k.PassTo? ==> s.cells[n].next == At(k.next))
    && (k.MoveTo? ==> k.target < |s.pcs| && s.pcs[k.target] == Reserved)
  }

  ghost predicate NodeOk(s: State, n: Node)
    requires Sized(s)
  {
    n < |s.pcs| ==>
      && (Queued(s.pcs[n]) ==> PlaceOk(s, n))
      && MemoryOk(s, n)
      && (s.pcs[n].AwaitingNext? || s.pcs[n].OfferingNext? || s.pcs[n].ParkedNext? ==> AfterOk(s, n, s.pcs[n].after))
      && (s.pcs[n].Passing? ==> AfterOk(s, n, PassTo(s.pcs[n].next)))
      && (s.pcs[n].Spinning? || s.pcs[n].Moving? ==> AfterOk(s, n, MoveTo(s.pcs[n].target)))
  }

  ghost predicate TicketOk(s: State, k: nat)
    requires Sized(s)
  {
    s.h.head <= k < |s.h.log| ==>
      var n := s.h.log[k];
      n < |s.pcs| && s.h.pos[n] == k && Queued(s.pcs[n])
  }

  predicate HeadOwns(s: State)
  {
    s.h.head < |s.h.log| && s.h.log[s.h.head] < |s.pcs| && Owns(s.pcs[s.h.log[s.h.head]])
  }

  /** The lock word is the tail of the queue. */
  predicate LinksOk(s: State)
  {
    && s.h.head <= |s.h.log|
    && s.lock == (if s.h.head == |s.h.log| then Null else At(s.h.log[|s.h.log| - 1]))
    && (s.h.head == |s.h.log| ==> s.h.signaller == Null)
    && (s.h.signaller.At? ==> Signaller(s).SignallingReady?)
  }

  ghost predicate Ledger(s: State)
    requires Sized(s)
  {
    && LinksOk(s)
    && |s.h.log| == |s.h.arrived|
    && |s.h.granted| == s.h.head + (if HeadOwns(s) then 1 else 0) <= |s.h.arrived|
    && s.h.granted == s.h.arrived[..|s.h.granted|]
    && (forall k :: |s.h.granted| <= k < |s.h.log| ==> s.h.log[k] == s.h.arrived[k])
  }

  ghost predicate Inv(s: State)
  {
    && Sized(s)
    && (forall n: Node :: NodeOk(s, n))
    && (forall k: nat :: TicketOk(s, k))
    && Ledger(s)
  }

  lemma InitialInv(nodes: nat)
    ensures Inv(Initial(nodes))
  {
  }

  // What a step needs to know about the nodes around the one it changes.

  ghost predicate Known(s: State, i: Node)
    requires Sized(s)
  {
    i < |s.pcs| && Queued(s.pcs[i]) && NodeOk(s, i)
  }

  ghost predicate FrontOk(s: State)
    requires Sized(s)
  {
    s.h.head < |s.h.log| ==>
      Known(s, s.h.log[s.h.head]) && s.h.pos[s.h.log[s.h.head]] == s.h.head
  }

  ghost predicate BackOk(s: State)
    requires Sized(s)
  {
    s.h.head < |s.h.log| ==>
      var b := s.h.log[|s.h.log| - 1];
      s.lock == At(b) && Known(s, b) && s.h.pos[b] == |s.h.log| - 1
  }

  ghost predicate BeforeOk(s: State, i: Node)
    requires Sized(s)
  {
    i < |s.pcs| && Queued(s.pcs[i]) && s.h.head < s.h.pos[i] <= |s.h.log| ==>
      Known(s, s.h.log[s.h.pos[i] - 1]) && s.h.pos[s.h.log[s.h.pos[i] - 1]] == s.h.pos[i] - 1
  }

  ghost predicate BehindOk(s: State, i: Node)
    requires Sized(s)
  {
    i < |s.pcs| && Queued(s.pcs[i]) && s.h.head <= s.h.pos[i] && s.h.pos[i] + 1 < |s.h.log| ==>
      Known(s, s.h.log[s.h.pos[i] + 1]) && s.h.pos[s.h.log[s.h.pos[i] + 1]] == s.h.pos[i] + 1
  }

  lemma Around(s: State, n: Node)
    requires Inv(s)
    ensures NodeOk(s, n) && FrontOk(s) && BackOk(s) && BeforeOk(s, n) && BehindOk(s, n)
  {
    var h := s.h;
    assert NodeOk(s, n);
    if h.head < |h.log| {
      assert TicketOk(s, h.head) && TicketOk(s, |h.log| - 1);
      assert NodeOk(s, h.log[h.head]) && NodeOk(s, h.log[|h.log| - 1]);
    }
    if n < |s.pcs| && Queued(s.pcs[n]) {
      if h.pos[n] > h.head {
        assert TicketOk(s, h.pos[n] - 1) && NodeOk(s, h.log[h.pos[n] - 1]);
      }
      if h.pos[n] + 1 < |h.log| {
        assert TicketOk(s, h.pos[n] + 1) && NodeOk(s, h.log[h.pos[n] + 1]);
      }
    }
  }

  // ---------- every step keeps the invariant ----------
  //
  // XNode: step X of node `n` keeps what is known about any node `i`, from what is known
  // about `n`, `i` and the nodes next to them in the queue.

  lemma EnqueueFreeNode(s: State, n: Node, i: Node)
    requires Sized(s) && n < |s.pcs| && s.pcs[n] == Idle
    requires LinksOk(s) && NodeOk(s, n) && NodeOk(s, i)
    requires s.lock == Null
    ensures NodeOk(DoEnqueue(s, n), i)
  {
  }

  lemma EnqueueBusySelf(s: State, n: Node, i: Node)
    requires Sized(s) && n < |s.pcs| && s.pcs[n] == Idle
    requires LinksOk(s) && NodeOk(s, n) && NodeOk(s, i) && BackOk(s) && BeforeOk(s, i)
    requires s.lock != Null
    requires i == n
    ensures NodeOk(DoEnqueue(s, n), i)
  {
  }

  lemma EnqueueBusyOther(s: State, n: Node, i: Node)
    requires Sized(s) && n < |s.pcs| && s.pcs[n] == Idle
    requires LinksOk(s) && NodeOk(s, n) && NodeOk(s, i) && BackOk(s) && BeforeOk(s, i)
    requires s.lock != Null
    requires i != n
    ensures NodeOk(DoEnqueue(s, n), i)
  {
  }

  lemma EnqueueBusyNode(s: State, n: Node, i: Node)
    requires Sized(s) && n < |s.pcs| && s.pcs[n] == Idle
    requires LinksOk(s) && NodeOk(s, n) && NodeOk(s, i) && BackOk(s) && BeforeOk(s, i)
    requires s.lock != Null
    ensures NodeOk(DoEnqueue(s, n), i)
  {
    if i == n {
      EnqueueBusySelf(s, n, i);
    } else {
      EnqueueBusyOther(s, n, i);
    }
  }

  lemma KeepsEnqueue(s: State, n: Node)
    requires Inv(s) && n < |s.pcs| && s.pcs[n] == Idle
    ensures Inv(DoEnqueue(s, n))
  {
    var s' := DoEnqueue(s, n);
    Around(s, n);
    forall i: Node ensures NodeOk(s', i) {
      Around(s, i);
      if s.lock == Null { EnqueueFreeNode(s, n, i); } else { EnqueueBusyNode(s, n, i); }
    }
    forall k: nat ensures TicketOk(s', k) {
      assert TicketOk(s, k);
    }
  }

  lemma TryEnqueueNode(s: State, n: Node, i: Node)
    requires Sized(s) && n < |s.pcs| && s.pcs[n] == Idle
    requires LinksOk(s) && NodeOk(s, n) && NodeOk(s, i) && BeforeOk(s, i)
    ensures NodeOk(DoTryEnqueue(s, n), i)
  {
  }

  lemma KeepsTryEnqueue(s: State, n: Node)
    requires Inv(s) && n < |s.pcs| && s.pcs[n] == Idle
    ensures Inv(DoTryEnqueue(s, n))
  {
    var s' := DoTryEnqueue(s, n);
    Around(s, n);
    forall i: Node ensures NodeOk(s', i) {
      Around(s, i);
      TryEnqueueNode(s, n, i);
    }
    forall k: nat ensures TicketOk(s', k) {
      assert TicketOk(s, k);
    }
  }

  lemma LinkSelf(s: State, n: Node, i: Node)
    requires Sized(s) && n < |s.pcs| && s.pcs[n].Linking? && s.pcs[n].pred < |s.pcs|
    requires LinksOk(s) && NodeOk(s, n) && NodeOk(s, i) && BeforeOk(s, n) && BeforeOk(s, i)
    requires i == n
    ensures NodeOk(DoLink(s, n), i)
  {
  }

  lemma LinkPred(s: State, n: Node, i: Node)
    requires Sized(s) && n < |s.pcs| && s.pcs[n].Linking? && s.pcs[n].pred < |s.pcs|
    requires LinksOk(s) && NodeOk(s, n) && NodeOk(s, i) && BeforeOk(s, n) && BeforeOk(s, i)
    requires i != n
    requires i == s.pcs[n].pred
    ensures NodeOk(DoLink(s, n), i)
  {
  }

  lemma LinkRest(s: State, n: Node, i: Node)
    requires Sized(s) && n < |s.pcs| && s.pcs[n].Linking? && s.pcs[n].pred < |s.pcs|
    requires LinksOk(s) && NodeOk(s, n) && NodeOk(s, i) && BeforeOk(s, n) && BeforeOk(s, i)
    requires i != n
    requires i != s.pcs[n].pred
    ensures NodeOk(DoLink(s, n), i)
  {
    assert i < |s.pcs| && Queued(s.pcs[i]) && s.h.pos[i] > s.h.head ==> s.h.log[s.h.pos[i] - 1] != s.pcs[n].pred;
  }

  lemma LinkOther(s: State, n: Node, i: Node)
    requires Sized(s) && n < |s.pcs| && s.pcs[n].Linking? && s.pcs[n].pred < |s.pcs|
    requires LinksOk(s) && NodeOk(s, n) && NodeOk(s, i) && BeforeOk(s, n) && BeforeOk(s, i)
    requires i != n
    ensures NodeOk(DoLink(s, n), i)
  {
    if i == s.pcs[n].pred {
      LinkPred(s, n, i);
    } else {
      LinkRest(s, n, i);
    }
  }

  lemma LinkNode(s: State, n: Node, i: Node)
    requires Sized(s) && n < |s.pcs| && s.pcs[n].Linking? && s.pcs[n].pred < |s.pcs|
    requires LinksOk(s) && NodeOk(s, n) && NodeOk(s, i) && BeforeOk(s, n) && BeforeOk(s, i)
    ensures NodeOk(DoLink(s, n), i)
  {
    if i == n {
      LinkSelf(s, n, i);
    } else {
      LinkOther(s, n, i);
    }
  }

  lemma KeepsLink(s: State, n: Node)
    requires Inv(s) && n < |s.pcs| && s.pcs[n].Linking? && s.pcs[n].pred < |s.pcs|
    ensures Inv(DoLink(s, n))
  {
    var s' := DoLink(s, n);
    Around(s, n);
    forall i: Node ensures NodeOk(s', i) {
      Around(s, i);
      LinkNode(s, n, i);
    }
    forall k: nat ensures TicketOk(s', k) {
      assert TicketOk(s, k);
    }
  }

  lemma SetNextClearSelf(s: State, n: Node, i: Node)
    requires Sized(s) && n < |s.pcs| && s.pcs[n].SettingNext? && s.pcs[n].pred < |s.pcs|
    requires LinksOk(s) && NodeOk(s, n) && NodeOk(s, i) && BeforeOk(s, n) && BeforeOk(s, i)
    requires s.cells[s.pcs[n].pred].nextFlag == Clear
    requires i == n
    ensures NodeOk(DoSetNext(s, n), i)
  {
  }

  lemma SetNextClearPred(s: State, n: Node, i: Node)
    requires Sized(s) && n < |s.pcs| && s.pcs[n].SettingNext? && s.pcs[n].pred < |s.pcs|
    requires LinksOk(s) && NodeOk(s, n) && NodeOk(s, i) && BeforeOk(s, n) && BeforeOk(s, i)
    requires s.cells[s.pcs[n].pred].nextFlag == Clear
    requires i != n
    requires i == s.pcs[n].pred
    ensures NodeOk(DoSetNext(s, n), i)
  {
  }

  lemma SetNextClearRest(s: State, n: Node, i: Node)
    requires Sized(s) && n < |s.pcs| && s.pcs[n].SettingNext? && s.pcs[n].pred < |s.pcs|
    requires LinksOk(s) && NodeOk(s, n) && NodeOk(s, i) && BeforeOk(s, n) && BeforeOk(s, i)
    requires s.cells[s.pcs[n].pred].nextFlag == Clear
    requires i != n
    requires i != s.pcs[n].pred
    ensures NodeOk(DoSetNext(s, n), i)
  {
    assert i < |s.pcs| && Queued(s.pcs[i]) && s.h.pos[i] > s.h.head ==> s.h.log[s.h.pos[i] - 1] != s.pcs[n].pred;
  }

  lemma SetNextClearOther(s: State, n: Node, i: Node)
    requires Sized(s) && n < |s.pcs| && s.pcs[n].SettingNext? && s.pcs[n].pred < |s.pcs|
    requires LinksOk(s) && NodeOk(s, n) && NodeOk(s, i) && BeforeOk(s, n) && BeforeOk(s, i)
    requires s.cells[s.pcs[n].pred].nextFlag == Clear
    requires i != n
    ensures NodeOk(DoSetNext(s, n), i)
  {
    if i == s.pcs[n].pred {
      SetNextClearPred(s, n, i);
    } else {
      SetNextClearRest(s, n, i);
    }
  }

  lemma SetNextClearNode(s: State, n: Node, i: Node)
    requires Sized(s) && n < |s.pcs| && s.pcs[n].SettingNext? && s.pcs[n].pred < |s.pcs|
    requires LinksOk(s) && NodeOk(s, n) && NodeOk(s, i) && BeforeOk(s, n) && BeforeOk(s, i)
    requires s.cells[s.pcs[n].pred].nextFlag == Clear
    ensures NodeOk(DoSetNext(s, n), i)
  {
    if i == n {
      SetNextClearSelf(s, n, i);
    } else {
      SetNextClearOther(s, n, i);
    }
  }

  lemma SetNextSetSelf(s: State, n: Node, i: Node)
    requires Sized(s) && n < |s.pcs| && s.pcs[n].SettingNext? && s.pcs[n].pred < |s.pcs|
    requires LinksOk(s) && NodeOk(s, n) && NodeOk(s, i) && BeforeOk(s, n) && BeforeOk(s, i)
    requires s.cells[s.pcs[n].pred].nextFlag != Clear
    requires i == n
    ensures NodeOk(DoSetNext(s, n), i)
  {
  }

  lemma SetNextSetPred(s: State, n: Node, i: Node)
    requires Sized(s) && n < |s.pcs| && s.pcs[n].SettingNext? && s.pcs[n].pred < |s.pcs|
    requires LinksOk(s) && NodeOk(s, n) && NodeOk(s, i) && BeforeOk(s, n) && BeforeOk(s, i)
    requires s.cells[s.pcs[n].pred].nextFlag != Clear
    requires i != n
    requires i == s.pcs[n].pred
    ensures NodeOk(DoSetNext(s, n), i)
  {
  }

  lemma SetNextSetRest(s: State, n: Node, i: Node)
    requires Sized(s) && n < |s.pcs| && s.pcs[n].SettingNext? && s.pcs[n].pred < |s.pcs|
    requires LinksOk(s) && NodeOk(s, n) && NodeOk(s, i) && BeforeOk(s, n) && BeforeOk(s, i)
    requires s.cells[s.pcs[n].pred].nextFlag != Clear
    requires i != n
    requires i != s.pcs[n].pred
    ensures NodeOk(DoSetNext(s, n), i)
  {
    assert i < |s.pcs| && Queued(s.pcs[i]) && s.h.pos[i] > s.h.head ==> s.h.log[s.h.pos[i] - 1] != s.pcs[n].pred;
  }

  lemma SetNextSetOther(s: State, n: Node, i: Node)
    requires Sized(s) && n < |s.pcs| && s.pcs[n].SettingNext? && s.pcs[n].pred < |s.pcs|
    requires LinksOk(s) && NodeOk(s, n) && NodeOk(s, i) && BeforeOk(s, n) && BeforeOk(s, i)
    requires s.cells[s.pcs[n].pred].nextFlag != Clear
    requires i != n
    ensures NodeOk(DoSetNext(s, n), i)
  {
    if i == s.pcs[n].pred {
      SetNextSetPred(s, n, i);
    } else {
      SetNextSetRest(s, n, i);
    }
  }

  lemma SetNextSetNode(s: State, n: Node, i: Node)
    requires Sized(s) && n < |s.pcs| && s.pcs[n].SettingNext? && s.pcs[n].pred < |s.pcs|
    requires LinksOk(s) && NodeOk(s, n) && NodeOk(s, i) && BeforeOk(s, n) && BeforeOk(s, i)
    requires s.cells[s.pcs[n].pred].nextFlag != Clear
    ensures NodeOk(DoSetNext(s, n), i)
  {
    if i == n {
      SetNextSetSelf(s, n, i);
    } else {
      SetNextSetOther(s, n, i);
    }
  }

  lemma KeepsSetNextClear(s: State, n: Node)
    requires Inv(s) && n < |s.pcs| && s.pcs[n].SettingNext? && s.pcs[n].pred < |s.pcs|
    requires s.cells[s.pcs[n].pred].nextFlag == Clear
    ensures Inv(DoSetNext(s, n))
  {
    var s' := DoSetNext(s, n);
    Around(s, n);
    forall i: Node ensures NodeOk(s', i) {
      Around(s, i);
      SetNextClearNode(s, n, i);
    }
    forall k: nat ensures TicketOk(s', k) {
      assert TicketOk(s, k);
    }
  }

  lemma KeepsSetNextSet(s: State, n: Node)
    requires Inv(s) && n < |s.pcs| && s.pcs[n].SettingNext? && s.pcs[n].pred < |s.pcs|
    requires s.cells[s.pcs[n].pred].nextFlag != Clear
    ensures Inv(DoSetNext(s, n))
  {
    var s' := DoSetNext(s, n);
    Around(s, n);
    forall i: Node ensures NodeOk(s', i) {
      Around(s, i);
      SetNextSetNode(s, n, i);
    }
    forall k: nat ensures TicketOk(s', k) {
      assert TicketOk(s, k);
    }
  }

  lemma KeepsSetNext(s: State, n: Node)
    requires Inv(s) && n < |s.pcs| && s.pcs[n].SettingNext? && s.pcs[n].pred < |s.pcs|
    ensures Inv(DoSetNext(s, n))
  {
    if s.cells[s.pcs[n].pred].nextFlag == Clear {
      KeepsSetNextClear(s, n);
    } else {
      KeepsSetNextSet(s, n);
    }
  }

  lemma SignalNextSelf(s: State, n: Node, i: Node)
    requires Sized(s) && n < |s.pcs| && s.pcs[n].SignallingNext? && s.pcs[n].event in s.open
    requires LinksOk(s) && NodeOk(s, n) && NodeOk(s, i) && BeforeOk(s, n) && BeforeOk(s, i)
    requires i == n
    ensures NodeOk(DoSignalNext(s, n), i)
  {
  }

  lemma SignalNextOther(s: State, n: Node, i: Node)
    requires Sized(s) && n < |s.pcs| && s.pcs[n].SignallingNext? && s.pcs[n].event in s.open
    requires LinksOk(s) && NodeOk(s, n) && NodeOk(s, i) && BeforeOk(s, n) && BeforeOk(s, i)
    requires i != n
    ensures NodeOk(DoSignalNext(s, n), i)
  {
  }

  lemma SignalNextNode(s: State, n: Node, i: Node)
    requires Sized(s) && n < |s.pcs| && s.pcs[n].SignallingNext? && s.pcs[n].event in s.open
    requires LinksOk(s) && NodeOk(s, n) && NodeOk(s, i) && BeforeOk(s, n) && BeforeOk(s, i)
    ensures NodeOk(DoSignalNext(s, n), i)
  {
    if i == n {
      SignalNextSelf(s, n, i);
    } else {
      SignalNextOther(s, n, i);
    }
  }

  lemma KeepsSignalNext(s: State, n: Node)
    requires Inv(s) && n < |s.pcs| && s.pcs[n].SignallingNext? && s.pcs[n].event in s.open
    ensures Inv(DoSignalNext(s, n))
  {
    var s' := DoSignalNext(s, n);
    Around(s, n);
    forall i: Node ensures NodeOk(s', i) {
      Around(s, i);
      SignalNextNode(s, n, i);
    }
    forall k: nat ensures TicketOk(s', k) {
      assert TicketOk(s, k);
    }
  }

  lemma ReadReadyClearSelf(s: State, n: Node, e: Handle, i: Node)
    requires Sized(s) && n < |s.pcs| && s.pcs[n].AwaitingReady? && e !in s.open
    requires LinksOk(s) && NodeOk(s, n) && NodeOk(s, i) && FrontOk(s)
    requires s.cells[n].readyFlag == Clear
    requires i == n
    ensures NodeOk(DoReadReady(s, n, e), i)
  {
  }

  lemma ReadReadyClearOther(s: State, n: Node, e: Handle, i: Node)
    requires Sized(s) && n < |s.pcs| && s.pcs[n].AwaitingReady? && e !in s.open
    requires LinksOk(s) && NodeOk(s, n) && NodeOk(s, i) && FrontOk(s)
    requires s.cells[n].readyFlag == Clear
    requires i != n
    ensures NodeOk(DoReadReady(s, n, e), i)
  {
  }

  lemma ReadReadyClearNode(s: State, n: Node, e: Handle, i: Node)
    requires Sized(s) && n < |s.pcs| && s.pcs[n].AwaitingReady? && e !in s.open
    requires LinksOk(s) && NodeOk(s, n) && NodeOk(s, i) && FrontOk(s)
    requires s.cells[n].readyFlag == Clear
    ensures NodeOk(DoReadReady(s, n, e), i)
  {
    if i == n {
      ReadReadyClearSelf(s, n, e, i);
    } else {
      ReadReadyClearOther(s, n, e, i);
    }
  }

  lemma ReadReadySetNode(s: State, n: Node, e: Handle, i: Node)
    requires Sized(s) && n < |s.pcs| && s.pcs[n].AwaitingReady? && e !in s.open
    requires LinksOk(s) && NodeOk(s, n) && NodeOk(s, i) && BeforeOk(s, n) && BehindOk(s, n) && BeforeOk(s, i)
    requires s.cells[n].readyFlag != Clear
    ensures NodeOk(DoReadReady(s, n, e), i)
  {
  }

  lemma KeepsReadReadyClear(s: State, n: Node, e: Handle)
    requires Inv(s) && n < |s.pcs| && s.pcs[n].AwaitingReady? && e !in s.open
    requires s.cells[n].readyFlag == Clear
    ensures Inv(DoReadReady(s, n, e))
  {
    var s' := DoReadReady(s, n, e);
    Around(s, n);
    forall i: Node ensures NodeOk(s', i) {
      Around(s, i);
      ReadReadyClearNode(s, n, e, i);
    }
    forall k: nat ensures TicketOk(s', k) {
      assert TicketOk(s, k);
    }
  }

  lemma KeepsReadReady(s: State, n: Node, e: Handle)
    requires Inv(s) && n < |s.pcs| && s.pcs[n].AwaitingReady? && e !in s.open
    ensures Inv(DoReadReady(s, n, e))
  {
    if s.cells[n].readyFlag == Clear {
      KeepsReadReadyClear(s, n, e);
    } else {
      var s' := DoReadReady(s, n, e);
      Around(s, n);
      forall i: Node ensures NodeOk(s', i) {
        Around(s, i);
        ReadReadySetNode(s, n, e, i);
      }
      forall k: nat ensures TicketOk(s', k) {
        assert TicketOk(s, k);
      }
    }
  }

  lemma OfferReadyClearSelf(s: State, n: Node, i: Node)
    requires Sized(s) && n < |s.pcs| && s.pcs[n].OfferingReady?
    requires LinksOk(s) && NodeOk(s, n) && NodeOk(s, i)
    requires s.cells[n].readyFlag == Clear
    requires i == n
    ensures NodeOk(DoOfferReady(s, n), i)
  {
  }

  lemma OfferReadyClearOther(s: State, n: Node, i: Node)
    requires Sized(s) && n < |s.pcs| && s.pcs[n].OfferingReady?
    requires LinksOk(s) && NodeOk(s, n) && NodeOk(s, i)
    requires s.cells[n].readyFlag == Clear
    requires i != n
    ensures NodeOk(DoOfferReady(s, n), i)
  {
  }

  lemma OfferReadyClearNode(s: State, n: Node, i: Node)
    requires Sized(s) && n < |s.pcs| && s.pcs[n].OfferingReady?
    requires LinksOk(s) && NodeOk(s, n) && NodeOk(s, i)
    requires s.cells[n].readyFlag == Clear
    ensures NodeOk(DoOfferReady(s, n), i)
  {
    if i == n {
      OfferReadyClearSelf(s, n, i);
    } else {
      OfferReadyClearOther(s, n, i);
    }
  }

  lemma OfferReadySetNode(s: State, n: Node, i: Node)
    requires Sized(s) && n < |s.pcs| && s.pcs[n].OfferingReady?
    requires LinksOk(s) && NodeOk(s, n) && NodeOk(s, i) && BeforeOk(s, n)
    requires s.cells[n].readyFlag != Clear
    ensures NodeOk(DoOfferReady(s, n), i)
  {
  }

  lemma KeepsOfferReady(s: State, n: Node)
    requires Inv(s) && n < |s.pcs| && s.pcs[n].OfferingReady?
    ensures Inv(DoOfferReady(s, n))
  {
    var s' := DoOfferReady(s, n);
    Around(s, n);
    forall i: Node ensures NodeOk(s', i) {
      Around(s, i);
      if s.cells[n].readyFlag == Clear { OfferReadyClearNode(s, n, i); } else { OfferReadySetNode(s, n, i); }
    }
    forall k: nat ensures TicketOk(s', k) {
      assert TicketOk(s, k);
    }
  }

  lemma WakeReadyNode(s: State, n: Node, i: Node)
    requires Sized(s) && n < |s.pcs| && s.pcs[n].ParkedReady? && IsSet(s, s.pcs[n].event)
    requires LinksOk(s) && NodeOk(s, n) && NodeOk(s, i) && BeforeOk(s, i)
    ensures NodeOk(DoWakeReady(s, n), i)
  {
  }

  lemma KeepsWakeReady(s: State, n: Node)
    requires Inv(s) && n < |s.pcs| && s.pcs[n].ParkedReady? && IsSet(s, s.pcs[n].event)
    ensures Inv(DoWakeReady(s, n))
  {
    var s' := DoWakeReady(s, n);
    Around(s, n);
    forall i: Node ensures NodeOk(s', i) {
      Around(s, i);
      WakeReadyNode(s, n, i);
    }
    forall k: nat ensures TicketOk(s', k) {
      assert TicketOk(s, k);
    }
  }

  lemma LeaveSelf(s: State, n: Node, i: Node)
    requires Sized(s) && n < |s.pcs| && s.pcs[n] == Held
    requires LinksOk(s) && NodeOk(s, n) && NodeOk(s, i)
    requires i == n
    ensures NodeOk(DoLeave(s, n), i)
  {
  }

  lemma LeaveOther(s: State, n: Node, i: Node)
    requires Sized(s) && n < |s.pcs| && s.pcs[n] == Held
    requires LinksOk(s) && NodeOk(s, n) && NodeOk(s, i)
    requires i != n
    ensures NodeOk(DoLeave(s, n), i)
  {
  }

  lemma LeaveNode(s: State, n: Node, i: Node)
    requires Sized(s) && n < |s.pcs| && s.pcs[n] == Held
    requires LinksOk(s) && NodeOk(s, n) && NodeOk(s, i)
    ensures NodeOk(DoLeave(s, n), i)
  {
    if i == n {
      LeaveSelf(s, n, i);
    } else {
      LeaveOther(s, n, i);
    }
  }

  lemma KeepsLeave(s: State, n: Node)
    requires Inv(s) && n < |s.pcs| && s.pcs[n] == Held
    ensures Inv(DoLeave(s, n))
  {
    var s' := DoLeave(s, n);
    Around(s, n);
    forall i: Node ensures NodeOk(s', i) {
      Around(s, i);
      LeaveNode(s, n, i);
    }
    forall k: nat ensures TicketOk(s', k) {
      assert TicketOk(s, k);
    }
  }

  lemma FreeNode(s: State, n: Node, i: Node)
    requires Sized(s) && n < |s.pcs| && s.pcs[n] == Freeing
    requires LinksOk(s) && NodeOk(s, n) && NodeOk(s, i) && BackOk(s) && BeforeOk(s, n)
    ensures NodeOk(DoFree(s, n), i)
  {
  }

  lemma KeepsFree(s: State, n: Node)
    requires Inv(s) && n < |s.pcs| && s.pcs[n] == Freeing
    ensures Inv(DoFree(s, n))
  {
    var s' := DoFree(s, n);
    Around(s, n);
    forall i: Node ensures NodeOk(s', i) {
      Around(s, i);
      FreeNode(s, n, i);
    }
    forall k: nat ensures TicketOk(s', k) {
      assert TicketOk(s, k);
    }
  }

  lemma ReadNextClearNode(s: State, n: Node, e: Handle, i: Node)
    requires Sized(s) && n < |s.pcs| && s.pcs[n].AwaitingNext? && e !in s.open
    requires LinksOk(s) && NodeOk(s, n) && NodeOk(s, i)
    requires s.cells[n].nextFlag == Clear
    ensures NodeOk(DoReadNext(s, n, e), i)
  {
  }

  lemma ReadNextSetNode(s: State, n: Node, e: Handle, i: Node)
    requires Sized(s) && n < |s.pcs| && s.pcs[n].AwaitingNext? && e !in s.open
    requires LinksOk(s) && NodeOk(s, n) && NodeOk(s, i) && BehindOk(s, n)
    requires s.cells[n].nextFlag != Clear
    ensures NodeOk(DoReadNext(s, n, e), i)
  {
  }

  lemma KeepsReadNext(s: State, n: Node, e: Handle)
    requires Inv(s) && n < |s.pcs| && s.pcs[n].AwaitingNext? && e !in s.open
    ensures Inv(DoReadNext(s, n, e))
  {
    var s' := DoReadNext(s, n, e);
    Around(s, n);
    forall i: Node ensures NodeOk(s', i) {
      Around(s, i);
      if s.cells[n].nextFlag == Clear { ReadNextClearNode(s, n, e, i); } else { ReadNextSetNode(s, n, e, i); }
    }
    forall k: nat ensures TicketOk(s', k) {
      assert TicketOk(s, k);
    }
  }

  lemma OfferNextClearNode(s: State, n: Node, i: Node)
    requires Sized(s) && n < |s.pcs| && s.pcs[n].OfferingNext?
    requires LinksOk(s) && NodeOk(s, n) && NodeOk(s, i) && BehindOk(s, n) && BeforeOk(s, n)
    requires s.cells[n].nextFlag == Clear
    ensures NodeOk(DoOfferNext(s, n), i)
  {
  }

  lemma OfferNextSetNode(s: State, n: Node, i: Node)
    requires Sized(s) && n < |s.pcs| && s.pcs[n].OfferingNext?
    requires LinksOk(s) && NodeOk(s, n) && NodeOk(s, i) && BehindOk(s, n)
    requires s.cells[n].nextFlag != Clear
    ensures NodeOk(DoOfferNext(s, n), i)
  {
  }

  lemma KeepsOfferNext(s: State, n: Node)
    requires Inv(s) && n < |s.pcs| && s.pcs[n].OfferingNext?
    ensures Inv(DoOfferNext(s, n))
  {
    var s' := DoOfferNext(s, n);
    Around(s, n);
    forall i: Node ensures NodeOk(s', i) {
      Around(s, i);
      if s.cells[n].nextFlag == Clear { OfferNextClearNode(s, n, i); } else { OfferNextSetNode(s, n, i); }
    }
    forall k: nat ensures TicketOk(s', k) {
      assert TicketOk(s, k);
    }
  }

  lemma WakeNextNode(s: State, n: Node, i: Node)
    requires Sized(s) && n < |s.pcs| && s.pcs[n].ParkedNext? && IsSet(s, s.pcs[n].event)
    requires LinksOk(s) && NodeOk(s, n) && NodeOk(s, i) && BehindOk(s, n) && BeforeOk(s, i)
    ensures NodeOk(DoWakeNext(s, n), i)
  {
  }

  lemma KeepsWakeNext(s: State, n: Node)
    requires Inv(s) && n < |s.pcs| && s.pcs[n].ParkedNext? && IsSet(s, s.pcs[n].event)
    ensures Inv(DoWakeNext(s, n))
  {
    var s' := DoWakeNext(s, n);
    Around(s, n);
    forall i: Node ensures NodeOk(s', i) {
      Around(s, i);
      WakeNextNode(s, n, i);
    }
    forall k: nat ensures TicketOk(s', k) {
      assert TicketOk(s, k);
    }
  }

  lemma RereadNode(s: State, n: Node, i: Node)
    requires Sized(s) && n < |s.pcs| && s.pcs[n] == Rereading && s.cells[n].next.At?
    requires LinksOk(s) && NodeOk(s, n) && NodeOk(s, i)
    ensures NodeOk(DoReread(s, n), i)
  {
  }

  lemma KeepsReread(s: State, n: Node)
    requires Inv(s) && n < |s.pcs| && s.pcs[n] == Rereading && s.cells[n].next.At?
    ensures Inv(DoReread(s, n))
  {
    var s' := DoReread(s, n);
    Around(s, n);
    forall i: Node ensures NodeOk(s', i) {
      Around(s, i);
      RereadNode(s, n, i);
    }
    forall k: nat ensures TicketOk(s', k) {
      assert TicketOk(s, k);
    }
  }

  lemma PassClearNode(s: State, n: Node, i: Node)
    requires Sized(s) && n < |s.pcs| && s.pcs[n].Passing? && s.pcs[n].next < |s.pcs|
    requires LinksOk(s) && NodeOk(s, n) && NodeOk(s, i) && FrontOk(s) && BehindOk(s, n)
    requires s.cells[s.pcs[n].next].readyFlag == Clear
    ensures NodeOk(DoPass(s, n), i)
  {
  }

  lemma PassStoredSelf(s: State, n: Node, i: Node)
    requires Sized(s) && n < |s.pcs| && s.pcs[n].Passing? && s.pcs[n].next < |s.pcs|
    requires LinksOk(s) && NodeOk(s, n) && NodeOk(s, i) && FrontOk(s) && BehindOk(s, n)
    requires s.cells[s.pcs[n].next].readyFlag != Clear
    requires i == n
    ensures NodeOk(DoPass(s, n), i)
  {
  }

  lemma PassStoredOther(s: State, n: Node, i: Node)
    requires Sized(s) && n < |s.pcs| && s.pcs[n].Passing? && s.pcs[n].next < |s.pcs|
    requires LinksOk(s) && NodeOk(s, n) && NodeOk(s, i) && FrontOk(s) && BehindOk(s, n)
    requires s.cells[s.pcs[n].next].readyFlag != Clear
    requires i != n
    ensures NodeOk(DoPass(s, n), i)
  {
  }

  lemma PassStoredNode(s: State, n: Node, i: Node)
    requires Sized(s) && n < |s.pcs| && s.pcs[n].Passing? && s.pcs[n].next < |s.pcs|
    requires LinksOk(s) && NodeOk(s, n) && NodeOk(s, i) && FrontOk(s) && BehindOk(s, n)
    requires s.cells[s.pcs[n].next].readyFlag != Clear
    ensures NodeOk(DoPass(s, n), i)
  {
    if i == n {
      PassStoredSelf(s, n, i);
    } else {
      PassStoredOther(s, n, i);
    }
  }

  lemma KeepsPass(s: State, n: Node)
    requires Inv(s) && n < |s.pcs| && s.pcs[n].Passing? && s.pcs[n].next < |s.pcs|
    ensures Inv(DoPass(s, n))
  {
    var s' := DoPass(s, n);
    Around(s, n);
    forall i: Node ensures NodeOk(s', i) {
      Around(s, i);
      if s.cells[s.pcs[n].next].readyFlag == Clear { PassClearNode(s, n, i); } else { PassStoredNode(s, n, i); }
    }
    forall k: nat ensures TicketOk(s', k) {
      assert TicketOk(s, k);
    }
  }

  lemma SignalReadyNode(s: State, n: Node, i: Node)
    requires Sized(s) && n < |s.pcs| && s.pcs[n].SignallingReady? && s.pcs[n].event in s.open
    requires LinksOk(s) && NodeOk(s, n) && NodeOk(s, i) && FrontOk(s) && BeforeOk(s, i)
    ensures NodeOk(DoSignalReady(s, n), i)
  {
  }

  lemma KeepsSignalReady(s: State, n: Node)
    requires Inv(s) && n < |s.pcs| && s.pcs[n].SignallingReady? && s.pcs[n].event in s.open
    ensures Inv(DoSignalReady(s, n))
  {
    var s' := DoSignalReady(s, n);
    Around(s, n);
    forall i: Node ensures NodeOk(s', i) {
      Around(s, i);
      SignalReadyNode(s, n, i);
    }
    forall k: nat ensures TicketOk(s', k) {
      assert TicketOk(s, k);
    }
  }

  lemma ReplaceLastNode(s: State, n: Node, m: Node, i: Node)
    requires Sized(s) && n < |s.pcs| && s.pcs[n] == Held && m < |s.pcs| && s.pcs[m] == Idle
    requires LinksOk(s) && NodeOk(s, n) && NodeOk(s, i) && BackOk(s) && BeforeOk(s, i)
    requires s.lock == At(n)
    ensures NodeOk(DoReplace(s, n, m), i)
  {
  }

  lemma ReplaceNotLastNode(s: State, n: Node, m: Node, i: Node)
    requires Sized(s) && n < |s.pcs| && s.pcs[n] == Held && m < |s.pcs| && s.pcs[m] == Idle
    requires LinksOk(s) && NodeOk(s, n) && NodeOk(s, i) && BeforeOk(s, n) && BeforeOk(s, i)
    requires s.lock != At(n)
    ensures NodeOk(DoReplace(s, n, m), i)
  {
  }

  lemma KeepsReplace(s: State, n: Node, m: Node)
    requires Inv(s) && n < |s.pcs| && s.pcs[n] == Held && m < |s.pcs| && s.pcs[m] == Idle
    ensures Inv(DoReplace(s, n, m))
  {
    var s' := DoReplace(s, n, m);
    Around(s, n);
    forall i: Node ensures NodeOk(s', i) {
      Around(s, i);
      if s.lock == At(n) { ReplaceLastNode(s, n, m, i); } else { ReplaceNotLastNode(s, n, m, i); }
    }
    forall k: nat ensures TicketOk(s', k) {
      assert TicketOk(s, k);
    }
  }

  lemma SpinNode(s: State, n: Node, i: Node)
    requires Sized(s) && n < |s.pcs| && s.pcs[n].Spinning?
    requires LinksOk(s) && NodeOk(s, n) && NodeOk(s, i)
    ensures NodeOk(DoSpin(s, n), i)
  {
  }

  lemma KeepsSpin(s: State, n: Node)
    requires Inv(s) && n < |s.pcs| && s.pcs[n].Spinning?
    ensures Inv(DoSpin(s, n))
  {
    var s' := DoSpin(s, n);
    Around(s, n);
    forall i: Node ensures NodeOk(s', i) {
      Around(s, i);
      SpinNode(s, n, i);
    }
    forall k: nat ensures TicketOk(s', k) {
      assert TicketOk(s, k);
    }
  }

  lemma MoveNode(s: State, n: Node, i: Node)
    requires Sized(s) && n < |s.pcs| && s.pcs[n].Moving? && s.pcs[n].target < |s.pcs|
    requires LinksOk(s) && NodeOk(s, n) && NodeOk(s, i) && BeforeOk(s, n) && BeforeOk(s, i)
    ensures NodeOk(DoMove(s, n), i)
  {
  }

  lemma KeepsMove(s: State, n: Node)
    requires Inv(s) && n < |s.pcs| && s.pcs[n].Moving? && s.pcs[n].target < |s.pcs|
    ensures Inv(DoMove(s, n))
  {
    var s' := DoMove(s, n);
    Around(s, n);
    forall i: Node ensures NodeOk(s', i) {
      Around(s, i);
      MoveNode(s, n, i);
    }
    forall k: nat ensures TicketOk(s', k) {
      assert TicketOk(s, k);
    }
  }

  lemma AcquireKeepsInv(s: State, n: Node, a: AcquireStep)
    requires Inv(s) && n < |s.pcs| && AcquireEnabled(s, n, a)
    ensures Inv(AcquireApply(s, n, a))
  {
    match a
    case Enqueue => KeepsEnqueue(s, n);
    case TryEnqueue => KeepsTryEnqueue(s, n);
    case Link => KeepsLink(s, n);
    case SetNext => KeepsSetNext(s, n);
    case SignalNext => KeepsSignalNext(s, n);
    case ReadReady(e) => KeepsReadReady(s, n, e);
    case OfferReady => KeepsOfferReady(s, n);
    case WakeReady => KeepsWakeReady(s, n);
  }

  lemma ReleaseKeepsInv(s: State, n: Node, a: ReleaseStep)
    requires Inv(s) && n < |s.pcs| && ReleaseEnabled(s, n, a)
    ensures Inv(ReleaseApply(s, n, a))
  {
    match a
    case Leave => KeepsLeave(s, n);
    case Free => KeepsFree(s, n);
    case Reread => KeepsReread(s, n);
    case Pass => KeepsPass(s, n);
    case SignalReady => KeepsSignalReady(s, n);
  }

  lemma AwaitKeepsInv(s: State, n: Node, a: AwaitStep)
    requires Inv(s) && n < |s.pcs| && AwaitEnabled(s, n, a)
    ensures Inv(AwaitApply(s, n, a))
  {
    match a
    case ReadNext(e) => KeepsReadNext(s, n, e);
    case OfferNext => KeepsOfferNext(s, n);
    case WakeNext => KeepsWakeNext(s, n);
  }

  lemma TransferKeepsInv(s: State, n: Node, a: TransferStep)
    requires Inv(s) && n < |s.pcs| && TransferEnabled(s, n, a)
    ensures Inv(TransferApply(s, n, a))
  {
    match a
    case Replace(m) => KeepsReplace(s, n, m);
    case Spin => KeepsSpin(s, n);
    case Move => KeepsMove(s, n);
  }

  lemma StepKeepsInv(s: State, n: Node, a: Action)
    requires Inv(s) && Enabled(s, n, a)
    ensures Inv(Apply(s, n, a))
  {
    match a
    case Acquire(b) => AcquireKeepsInv(s, n, b);
    case Release(b) => ReleaseKeepsInv(s, n, b);
    case Await(b) => AwaitKeepsInv(s, n, b);
    case Transfer(b) => TransferKeepsInv(s, n, b);
  }

  // ---------- runs ----------

  ghost predicate Next(s: State, s': State)
  {
    Sized(s) && exists n, a :: Enabled(s, n, a) && s' == Apply(s, n, a)
  }

  ghost predicate Run(tr: seq<State>, nodes: nat)
  {
    IsRun(tr, Next) && tr[0] == Initial(nodes)
  }

  lemma NextKeepsInv(s: State, s': State)
    requires Inv(s) && Next(s, s')
    ensures Inv(s') && |s'.pcs| == |s.pcs|
  {
    var n, a :| Enabled(s, n, a) && s' == Apply(s, n, a);
    StepKeepsInv(s, n, a);
  }

  lemma RunsKeepInv(tr: seq<State>, nodes: nat)
    requires Run(tr, nodes)
    ensures Inv(tr[|tr| - 1]) && |tr[|tr| - 1].pcs| == nodes
  {
    InitialInv(nodes);
    forall s: State, s': State | Inv(s) && |s.pcs| == nodes && Next(s, s') ensures Inv(s') && |s'.pcs| == nodes {
      NextKeepsInv(s, s');
    }
    RunKeeps(tr, Next, s => Inv(s) && |s.pcs| == nodes);
  }

  ghost predicate Reachable(s: State)
  {
    exists tr: seq<State>, nodes: nat :: Run(tr, nodes) && s == tr[|tr| - 1]
  }

  lemma ReachableInv(s: State)
    requires Reachable(s)
    ensures Inv(s)
  {
    var tr: seq<State>, nodes: nat :| Run(tr, nodes) && s == tr[|tr| - 1];
    RunsKeepInv(tr, nodes);
  }

  lemma ReachableNext(s: State, s': State)
    requires Reachable(s) && Next(s, s')
    ensures Reachable(s')
  {
    var tr: seq<State>, nodes: nat :| Run(tr, nodes) && s == tr[|tr| - 1];
    assert Run(tr + [s'], nodes);
  }

  /** Nothing that happens depends on the history: it could be erased. */
  lemma HistoryIsNeverRead(s: State, h: History, n: Node, a: Action)
    requires Sized(s) && Sized(s.(h := h))
    ensures Enabled(s, n, a) <==> Enabled(s.(h := h), n, a)
    ensures Enabled(s, n, a) ==> Apply(s, n, a).(h := h) == Apply(s.(h := h), n, a).(h := h)
  {
  }

  // ---------- exclusion and order ----------

  /** The queued nodes, first to last. */
  function Queue(s: State): seq<Node>
  {
    if s.h.head <= |s.h.log| then s.h.log[s.h.head..] else []
  }

  /** At most one node holds the lock, and it is the first of the queue. */
  lemma Exclusion(s: State, n: Node, m: Node)
    requires Reachable(s) && n < |s.pcs| && m < |s.pcs| && Owns(s.pcs[n]) && Queued(s.pcs[m])
    ensures Queue(s) != [] && Queue(s)[0] == n
    ensures Owns(s.pcs[m]) ==> m == n
  {
    ReachableInv(s);
    assert NodeOk(s, n) && NodeOk(s, m);
  }

  /** The queue lists exactly the nodes with an operation in progress, each once. */
  lemma QueueIsTheQueued(s: State, n: Node)
    requires Reachable(s) && n < |s.pcs|
    ensures n in Queue(s) <==> Queued(s.pcs[n])
    ensures forall i, j :: 0 <= i < j < |Queue(s)| ==> Queue(s)[i] != Queue(s)[j]
  {
    ReachableInv(s);
    assert NodeOk(s, n);
    if n in Queue(s) {
      var k :| 0 <= k < |Queue(s)| && Queue(s)[k] == n;
      assert TicketOk(s, s.h.head + k);
    }
    if Queued(s.pcs[n]) {
      assert Queue(s)[s.h.pos[n] - s.h.head] == n;
    }
    forall i, j | 0 <= i < j < |Queue(s)| ensures Queue(s)[i] != Queue(s)[j] {
      assert TicketOk(s, s.h.head + i) && TicketOk(s, s.h.head + j);
    }
  }

  /**
   The lock word is the tail of the queue, or 0 when the queue is empty. Each node but
   the last is linked to the node behind it, unless that node has yet to write the link
   through its own `pred`.
   */
  lemma LockWordIsTail(s: State)
    requires Reachable(s)
    ensures s.lock == (if Queue(s) == [] then Null else At(Queue(s)[|Queue(s)| - 1]))
    ensures forall k :: 0 < k < |Queue(s)| ==> LinkedPair(s, Queue(s)[k - 1], Queue(s)[k])
    ensures s.lock.At? ==> s.lock.node < |s.cells| && s.cells[s.lock.node].next == Null
  {
    ReachableInv(s);
    forall k | 0 < k < |Queue(s)| ensures LinkedPair(s, Queue(s)[k - 1], Queue(s)[k]) {
      assert TicketOk(s, s.h.head + k) && TicketOk(s, s.h.head + k - 1);
      assert NodeOk(s, Queue(s)[k]);
    }
    if s.lock.At? {
      assert TicketOk(s, |s.h.log| - 1);
      assert NodeOk(s, s.lock.node);
    }
  }

  /** `q` is the successor of `p`: half linked, or linked. */
  predicate LinkedPair(s: State, p: Node, q: Node)
  {
    && p < |s.cells| && q < |s.pcs|
    && s.cells[p].next == (if s.pcs[q].Linking? then Null else At(q))
    && (s.pcs[q].Linking? || s.pcs[q].SettingNext? ==> s.pcs[q].pred == p)
  }

  /** The lock is granted strictly in the order of the exchanges on the lock word. */
  lemma GrantsFollowArrivals(s: State)
    requires Reachable(s)
    ensures |s.h.granted| <= |s.h.arrived| && s.h.granted == s.h.arrived[..|s.h.granted|]
  {
    ReachableInv(s);
  }

  // What the steps of each role record.

  lemma AcquireRecords(s: State, n: Node, a: AcquireStep)
    requires Sized(s) && n < |s.pcs| && AcquireEnabled(s, n, a)
    ensures var s' := AcquireApply(s, n, a); n < |s'.pcs| && Records(s, s', n)
  {
  }

  lemma ReleaseRecords(s: State, n: Node, a: ReleaseStep)
    requires Sized(s) && n < |s.pcs| && ReleaseEnabled(s, n, a)
    ensures var s' := ReleaseApply(s, n, a); n < |s'.pcs| && Records(s, s', n)
  {
  }

  lemma AwaitRecords(s: State, n: Node, a: AwaitStep)
    requires Sized(s) && n < |s.pcs| && AwaitEnabled(s, n, a)
    ensures var s' := AwaitApply(s, n, a); n < |s'.pcs| && Records(s, s', n)
  {
  }

  lemma TransferRecords(s: State, n: Node, a: TransferStep)
    requires Sized(s) && n < |s.pcs| && TransferEnabled(s, n, a)
    ensures var s' := TransferApply(s, n, a); n < |s'.pcs| && Records(s, s', n)
  {
  }

  /** `arrived` grows exactly when a node enters the queue, `granted` when its wait ends. */
  predicate Records(s: State, s': State, n: Node)
    requires n < |s.pcs| && n < |s'.pcs|
  {
    && s'.h.arrived == s.h.arrived + (if !Queued(s.pcs[n]) && Queued(s'.pcs[n]) then [n] else [])
    && s'.h.granted == s.h.granted + (if !Owns(s.pcs[n]) && Owns(s'.pcs[n]) then [n] else [])
  }

  lemma HistoryIsWhatHappened(s: State, n: Node, a: Action)
    requires Sized(s) && Enabled(s, n, a)
    ensures n < |Apply(s, n, a).pcs| && Records(s, Apply(s, n, a), n)
  {
    match a
    case Acquire(b) => AcquireRecords(s, n, b);
    case Release(b) => ReleaseRecords(s, n, b);
    case Await(b) => AwaitRecords(s, n, b);
    case Transfer(b) => TransferRecords(s, n, b);
  }

  /** try_acquire succeeds exactly when no node is queued; otherwise it changes nothing
   but the cell of the caller's node. */
  lemma TryAcquireIsExact(s: State, n: Node)
    requires Reachable(s) && Sized(s) && Enabled(s, n, Acquire(TryEnqueue))
    ensures var s' := Apply(s, n, Acquire(TryEnqueue));
      && (s'.pcs[n] == Held <==> forall i :: 0 <= i < |s.pcs| ==> !Queued(s.pcs[i]))
      && (s'.pcs[n] != Held ==> s' == s.(cells := s'.cells) && forall i :: 0 <= i < |s.cells| && i != n ==>
        s'.cells[i] == s.cells[i])
  {
    ReachableInv(s);
    if s.lock == Null {
      forall i | 0 <= i < |s.pcs| ensures !Queued(s.pcs[i]) {
        assert NodeOk(s, i);
      }
    } else {
      assert TicketOk(s, |s.h.log| - 1);
    }
  }

  // ---------- hand-off ----------

  /**
   No pointer dangles: what an operation is about to touch belongs to an operation that
   has not returned, and a handle it is about to set is open and awaited.
   */
  lemma PointersAreLive(s: State, n: Node)
    requires Reachable(s) && Sized(s) && n < |s.pcs|
    ensures var pc := s.pcs[n];
      && (pc.Linking? || pc.SettingNext? ==> pc.pred < |s.pcs| && pc.pred != n && Queued(s.pcs[pc.pred]))
      && (pc.SignallingNext? ==> AwaitedBy(s, pc.event) && s.pcs[s.open[pc.event].creator].ParkedNext?)
      && (pc.SignallingReady? ==> AwaitedBy(s, pc.event) && s.pcs[s.open[pc.event].creator].ParkedReady?)
      && (SawNext(pc) ==> s.cells[n].next.At? && s.cells[n].next.node < |s.pcs| && Queued(s.pcs[s.cells[n].next.node]))
      && (pc.Passing? ==> s.cells[n].next == At(pc.next) && pc.next != n)
      && (pc.Spinning? || pc.Moving? ==> pc.target < |s.pcs| && s.pcs[pc.target] == Reserved)
  {
    ReachableInv(s);
    Around(s, n);
    if s.pcs[n].SignallingReady? {
      assert NodeOk(s, s.h.log[s.h.head]);
    }
  }

  /** `e` is open and the thread that created it waits for it. */
  predicate AwaitedBy(s: State, e: Handle)
  {
    && e in s.open && s.open[e].creator < |s.pcs| && !s.open[e].signalled
    && (var pc := s.pcs[s.open[e].creator]; (pc.ParkedNext? || pc.ParkedReady?) && pc.event == e)
  }

  /** The wait on nextFlag never passes before the successor's flag_set is complete. */
  lemma NextIsSeenAfterItIsSet(s: State, n: Node)
    requires Reachable(s) && Sized(s) && n < |s.pcs| && SawNext(s.pcs[n])
    ensures s.cells[n].next.At? && s.cells[n].next.node < |s.pcs|
    ensures Waits(s.pcs[s.cells[n].next.node])
  {
    ReachableInv(s);
    Around(s, n);
  }

  /** A thread parked on its nextFlag can wake exactly when its successor's flag_set is complete. */
  lemma ParkedNextWakesOnSet(s: State, n: Node)
    requires Reachable(s) && Sized(s) && n < |s.pcs| && s.pcs[n].ParkedNext?
    ensures IsSet(s, s.pcs[n].event) <==>
      s.cells[n].next.At? && s.cells[n].next.node < |s.pcs| && !Joins(s.pcs[s.cells[n].next.node])
  {
    ReachableInv(s);
    Around(s, n);
  }

  /**
   A thread parked on its readyFlag can wake exactly when every node queued before it has
   left the queue and the last release has made its SetEvent call.
   */
  lemma ParkedReadyWakesOnSet(s: State, n: Node)
    requires Reachable(s) && Sized(s) && n < |s.pcs| && s.pcs[n].ParkedReady?
    ensures IsSet(s, s.pcs[n].event) <==>
      (Queue(s) != [] && Queue(s)[0] == n && forall i :: 0 <= i < |s.pcs| ==> !s.pcs[i].SignallingReady?)
  {
    ReachableInv(s);
    Around(s, n);
    forall i | 0 <= i < |s.pcs| && s.pcs[i].SignallingReady?
      ensures s.h.signaller == At(i)
    {
      assert NodeOk(s, i);
    }
  }

  /** Nobody owns the lock before the previous release has made its last call. */
  lemma SignalsPrecedeOwnership(s: State, n: Node, m: Node)
    requires Reachable(s) && n < |s.pcs| && m < |s.pcs| && Owns(s.pcs[n])
    ensures !s.pcs[m].SignallingReady?
  {
    ReachableInv(s);
    assert NodeOk(s, n) && NodeOk(s, m);
  }

  // Which cells a step reads and writes: those of the nodes that it can reach.

  lemma AcquireTouches(s: State, x: Node, c: Cell, n: Node, a: AcquireStep)
    requires Sized(s) && x < |s.pcs| && n < |s.pcs| && n != x && AcquireEnabled(s, n, a)
    requires s.pcs[n].Linking? || s.pcs[n].SettingNext? ==> s.pcs[n].pred != x
    ensures AcquireApply(Scribble(s, x, c), n, a) == Scribble(AcquireApply(s, n, a), x, c)
    ensures AcquireApply(s, n, a).cells[x] == s.cells[x]
  {
    assert AcquireApply(Scribble(s, x, c), n, a).cells == AcquireApply(s, n, a).cells[x := c];
  }

  lemma ReleaseTouches(s: State, x: Node, c: Cell, n: Node, a: ReleaseStep)
    requires Sized(s) && x < |s.pcs| && n < |s.pcs| && n != x && ReleaseEnabled(s, n, a)
    requires s.pcs[n].Passing? ==> s.pcs[n].next != x
    ensures ReleaseApply(Scribble(s, x, c), n, a) == Scribble(ReleaseApply(s, n, a), x, c)
    ensures ReleaseApply(s, n, a).cells[x] == s.cells[x]
  {
    assert ReleaseApply(Scribble(s, x, c), n, a).cells == ReleaseApply(s, n, a).cells[x := c];
  }

  lemma AwaitTouches(s: State, x: Node, c: Cell, n: Node, a: AwaitStep)
    requires Sized(s) && x < |s.pcs| && n < |s.pcs| && n != x && AwaitEnabled(s, n, a)
    ensures AwaitApply(Scribble(s, x, c), n, a) == Scribble(AwaitApply(s, n, a), x, c)
    ensures AwaitApply(s, n, a).cells[x] == s.cells[x]
  {
    assert AwaitApply(Scribble(s, x, c), n, a).cells == AwaitApply(s, n, a).cells[x := c];
  }

  lemma TransferTouches(s: State, x: Node, c: Cell, n: Node, a: TransferStep)
    requires Sized(s) && x < |s.pcs| && n < |s.pcs| && n != x && TransferEnabled(s, n, a)
    requires a != Replace(x) && (s.pcs[n].Moving? ==> s.pcs[n].target != x)
    ensures TransferApply(Scribble(s, x, c), n, a) == Scribble(TransferApply(s, n, a), x, c)
    ensures TransferApply(s, n, a).cells[x] == s.cells[x]
  {
    assert TransferApply(Scribble(s, x, c), n, a).cells == TransferApply(s, n, a).cells[x := c];
  }

  /** What an operation may reach besides its own node. */
  predicate Reaches(s: State, n: Node, a: Action, x: Node)
    requires n < |s.pcs|
  {
    || ((s.pcs[n].Linking? || s.pcs[n].SettingNext?) && s.pcs[n].pred == x)
    || (s.pcs[n].Passing? && s.pcs[n].next == x)
    || (s.pcs[n].Moving? && s.pcs[n].target == x)
    || a == Transfer(Replace(x))
  }

  lemma StepTouches(s: State, x: Node, c: Cell, n: Node, a: Action)
    requires Sized(s) && x < |s.pcs| && Enabled(s, n, a) && n != x && !Reaches(s, n, a, x)
    ensures Enabled(Scribble(s, x, c), n, a) && x < |Apply(s, n, a).cells|
    ensures Apply(Scribble(s, x, c), n, a) == Scribble(Apply(s, n, a), x, c)
    ensures Apply(s, n, a).cells[x] == s.cells[x]
  {
    match a
    case Acquire(b) => AcquireTouches(s, x, c, n, b);
    case Release(b) => ReleaseTouches(s, x, c, n, b);
    case Await(b) => AwaitTouches(s, x, c, n, b);
    case Transfer(b) => TransferTouches(s, x, c, n, b);
  }

  /**
   Once release (or a transfer away from it) has finished with a node, no step of any
   other operation reads or writes that node: changing its cell beforehand makes no
   difference. So a node may live on the stack of its user. Only a transfer towards `x`
   starts using it again.
   */
  lemma ReleasedNodeIsQuiet(s: State, x: Node, c: Cell, n: Node, a: Action)
    requires Reachable(s) && Sized(s) && x < |s.pcs| && (s.pcs[x].Idle? || s.pcs[x].SignallingReady?)
    requires Enabled(s, n, a) && n != x && a != Transfer(Replace(x))
    ensures Enabled(Scribble(s, x, c), n, a) && x < |Apply(s, n, a).cells|
    ensures Apply(Scribble(s, x, c), n, a) == Scribble(Apply(s, n, a), x, c)
    ensures Apply(s, n, a).cells[x] == s.cells[x]
  {
    assert !Reaches(s, n, a, x) by {
      PointersAreLive(s, n);
    }
    StepTouches(s, x, c, n, a);
  }

  function Scribble(s: State, x: Node, c: Cell): State
    requires x < |s.cells|
  {
    s.(cells := s.cells[x := c])
  }

  // ---------- transfer ----------

  /** Without successors, one exchange puts the new node in the place of the old one. */
  lemma ReplaceKeepsQueue(s: State, n: Node, m: Node)
    requires Reachable(s) && Sized(s) && Enabled(s, n, Transfer(Replace(m))) && s.lock == At(n)
    ensures var s' := Apply(s, n, Transfer(Replace(m)));
      && Queue(s) == [n] && Queue(s') == [m] && s'.lock == At(m)
      && s'.pcs == s.pcs[n := Idle][m := Held] && s'.cells == s.cells[m := FRESH]
      && s'.h.arrived == s.h.arrived && s'.h.granted == s.h.granted
  {
    ReachableInv(s);
    Around(s, n);
    assert s.h.pos[n] == s.h.head == |s.h.log| - 1;
  }

  /** What a move writes: the new node takes over the successor and its flag. */
  lemma MoveWrites(s: State, n: Node)
    requires Reachable(s) && Sized(s) && Enabled(s, n, Transfer(Move))
    ensures var s', m := Apply(s, n, Transfer(Move)), s.pcs[n].target;
      && |Queue(s)| >= 2 && s.pcs[m] == Reserved && m < |s.cells| && s.cells[n].nextFlag != Clear
      && s'.cells == s.cells[m := Cell(At(Queue(s)[1]), s.cells[n].nextFlag, Clear)]
  {
    ReachableInv(s);
    Around(s, n);
    assert NodeOk(s, s.pcs[n].target);
  }

  /** What it does to the queue. */
  lemma MoveReplacesFirst(s: State, n: Node)
    requires Reachable(s) && Sized(s) && Enabled(s, n, Transfer(Move))
    ensures var s', m := Apply(s, n, Transfer(Move)), s.pcs[n].target;
      Queue(s) != [] && Queue(s)[0] == n && Queue(s') == [m] + Queue(s)[1..]
  {
    ReachableInv(s);
    Around(s, n);
    var m := s.pcs[n].target;
    UpdateFirst(s.h.log, s.h.head, m);
  }

  lemma UpdateFirst(log: seq<Node>, head: nat, m: Node)
    requires head < |log|
    ensures log[head := m][head..] == [m] + log[head..][1..]
  {
  }

  /**
   With successors, however they raced with it, a transfer ends with the lock still held,
   by the new node, in front of the same successors in the same order; the new node knows
   the first of them and its nextFlag is already set.
   */
  lemma MoveKeepsQueue(s: State, n: Node)
    requires Reachable(s) && Sized(s) && Enabled(s, n, Transfer(Move))
    ensures var s', m := Apply(s, n, Transfer(Move)), s.pcs[n].target;
      && |Queue(s)| >= 2 && Queue(s)[0] == n && s.pcs[m] == Reserved && m < |s.cells|
      && Queue(s') == [m] + Queue(s)[1..] && s'.lock == s.lock
      && s'.pcs == s.pcs[n := Idle][m := Held]
      && (exists flag :: flag != Clear && s'.cells == s.cells[m := Cell(At(Queue(s)[1]), flag, Clear)])
      && s'.h.arrived == s.h.arrived && s'.h.granted == s.h.granted
      && Sized(s') && Settled(s', m)
  {
    MoveWrites(s, n);
    MoveReplacesFirst(s, n);
  }

  /** `m` holds the lock and the flag of its successor has been consumed or set. */
  predicate Settled(s: State, m: Node)
    requires Sized(s)
  {
    && m < |s.pcs| && s.cells[m].next.At? && s.cells[m].nextFlag != Clear
    && (var pc := s.pcs[m];
        pc.Held? || pc.Spinning? || pc.Moving? || pc.AwaitingNext? || pc.Rereading? || pc.Passing?)
  }

  lemma AcquireKeepsSettled(s: State, m: Node, n: Node, a: AcquireStep)
    requires Sized(s) && Settled(s, m) && n < |s.pcs| && AcquireEnabled(s, n, a)
    requires NodeOk(s, n) && NodeOk(s, m)
    ensures var s' := AcquireApply(s, n, a); Sized(s') && Settled(s', m)
  {
  }

  lemma ReleaseKeepsSettled(s: State, m: Node, n: Node, a: ReleaseStep)
    requires Sized(s) && Settled(s, m) && n < |s.pcs| && ReleaseEnabled(s, n, a)
    requires NodeOk(s, n) && NodeOk(s, m)
    ensures var s' := ReleaseApply(s, n, a); Sized(s') && m < |s'.pcs| && (Owns(s'.pcs[m]) ==> Settled(s', m))
  {
  }

  lemma AwaitKeepsSettled(s: State, m: Node, n: Node, a: AwaitStep)
    requires Sized(s) && Settled(s, m) && n < |s.pcs| && AwaitEnabled(s, n, a)
    ensures var s' := AwaitApply(s, n, a); Sized(s') && Settled(s', m)
  {
  }

  lemma TransferKeepsSettled(s: State, m: Node, n: Node, a: TransferStep)
    requires Sized(s) && Settled(s, m) && n < |s.pcs| && TransferEnabled(s, n, a) && LinksOk(s)
    requires NodeOk(s, n) && NodeOk(s, m)
    ensures var s' := TransferApply(s, n, a); Sized(s') && m < |s'.pcs| && (Owns(s'.pcs[m]) ==> Settled(s', m))
  {
  }

  lemma SettledStep(s: State, m: Node, n: Node, a: Action)
    requires Inv(s) && Settled(s, m) && Enabled(s, n, a)
    ensures var s' := Apply(s, n, a); Sized(s') && m < |s'.pcs| && (Owns(s'.pcs[m]) ==> Settled(s', m))
  {
    assert NodeOk(s, n) && NodeOk(s, m);
    match a
    case Acquire(b) => AcquireKeepsSettled(s, m, n, b);
    case Release(b) => ReleaseKeepsSettled(s, m, n, b);
    case Await(b) => AwaitKeepsSettled(s, m, n, b);
    case Transfer(b) => TransferKeepsSettled(s, m, n, b);
  }

  lemma NextKeepsSettled(s: State, s': State, m: Node)
    requires Inv(s) && Settled(s, m) && Next(s, s')
    ensures Sized(s') && m < |s'.pcs| && (Owns(s'.pcs[m]) ==> Settled(s', m))
  {
    var n, a :| Enabled(s, n, a) && s' == Apply(s, n, a);
    SettledStep(s, m, n, a);
  }

  /** Settled until the lock is given away. */
  lemma {:induction false} StaysSettled(tr: seq<State>, m: Node)
    requires IsRun(tr, Next) && Reachable(tr[0]) && Sized(tr[0]) && Settled(tr[0], m)
    requires forall i :: 0 <= i < |tr| ==> m < |tr[i].pcs| && Owns(tr[i].pcs[m])
    ensures var s := tr[|tr| - 1]; Reachable(s) && Sized(s) && Settled(s, m)
  {
    var k := |tr| - 1;
    if k > 0 {
      StaysSettled(tr[..k], m);
      NextKeepsBoth(tr[k - 1], tr[k], m);
    }
  }

  lemma NextKeepsBoth(s: State, s': State, m: Node)
    requires Reachable(s) && Sized(s) && Settled(s, m) && Next(s, s')
    requires m < |s'.pcs| && Owns(s'.pcs[m])
    ensures Reachable(s') && Sized(s') && Settled(s', m)
  {
    ReachableInv(s);
    NextKeepsSettled(s, s', m);
    ReachableNext(s, s');
  }

  /**
   A release (or a second transfer) through a node that has taken over a flag already
   consumed never blocks: after the move, in every run, the node never offers an event nor
   parks until it has given the lock away.
   */
  lemma TransferredFlagIsNotAwaited(s: State, n: Node, tr: seq<State>)
    requires Reachable(s) && Sized(s) && Enabled(s, n, Transfer(Move))
    requires IsRun(tr, Next) && tr[0] == Apply(s, n, Transfer(Move))
    requires var m := s.pcs[n].target; forall i :: 0 <= i < |tr| ==> m < |tr[i].pcs| && Owns(tr[i].pcs[m])
    ensures var s', m := tr[|tr| - 1], s.pcs[n].target;
      Sized(s') && Settled(s', m) && !s'.pcs[m].OfferingNext? && !s'.pcs[m].ParkedNext?
  {
    MoveKeepsQueue(s, n);
    assert Next(s, tr[0]);
    ReachableNext(s, tr[0]);
    StaysSettled(tr, s.pcs[n].target);
  }

  // ---------- progress ----------

  /** Left to the callers: starting an operation. */
  predicate External(a: Action)
  {
    a == Acquire(Enqueue) || a == Acquire(TryEnqueue) || a == Release(Leave) || (a.Transfer? && a.m.Replace?)
  }

  /** A step of an operation in progress that gets it further: not one more turn of the
   spin loop. */
  ghost predicate Useful(s: State, n: Node, a: Action)
    requires Sized(s)
  {
    Enabled(s, n, a) && !External(a) && Apply(s, n, a) != s
  }

  ghost predicate Stuck(s: State)
    requires Sized(s)
  {
    forall n, a :: !Useful(s, n, a)
  }

  lemma FreshHandle(open: map<Handle, Event>) returns (e: Handle)
    ensures e !in open
  {
    var used := open.Keys;
    e := 0;
    while exists h :: h in used && h >= e
      invariant used <= open.Keys
      invariant forall h :: h in open.Keys && h >= e ==> h in used
      decreases |used|
    {
      var h :| h in used && h >= e;
      e := h + 1;
      used := used - {h};
    }
  }

  /** The program points at which an operation can always go on. */
  predicate Moves(s: State, n: Node)
    requires Sized(s) && n < |s.pcs|
  {
    var pc := s.pcs[n];
    if pc.ParkedReady? || pc.ParkedNext? then IsSet(s, pc.event)
    else if pc.Spinning? then s.cells[n].next.At?
    else !(pc.Idle? || pc.Held? || pc.Reserved?)
  }

  function Proceed(pc: Pc, e: Handle): Action
  {
    match pc
    case Idle => Acquire(Enqueue)
    case Linking(_) => Acquire(Link)
    case SettingNext(_) => Acquire(SetNext)
    case SignallingNext(_) => Acquire(SignalNext)
    case AwaitingReady => Acquire(ReadReady(e))
    case OfferingReady(_) => Acquire(OfferReady)
    case ParkedReady(_) => Acquire(WakeReady)
    case Held => Release(Leave)
    case Freeing => Release(Free)
    case AwaitingNext(_) => Await(ReadNext(e))
    case OfferingNext(_, _) => Await(OfferNext)
    case ParkedNext(_, _) => Await(WakeNext)
    case Rereading => Release(Reread)
    case Passing(_) => Release(Pass)
    case SignallingReady(_) => Release(SignalReady)
    case Spinning(_) => Transfer(Spin)
    case Moving(_) => Transfer(Move)
    case Reserved => Acquire(Enqueue)
  }

  lemma MovesIsUseful(s: State, n: Node) returns (a: Action)
    requires Reachable(s) && Sized(s) && n < |s.pcs| && Moves(s, n)
    ensures Useful(s, n, a)
  {
    PointersAreLive(s, n);
    var e := FreshHandle(s.open);
    a := Proceed(s.pcs[n], e);
    assert Enabled(s, n, a);
    assert Apply(s, n, a).pcs[n] != s.pcs[n];
  }

  lemma StuckFront(s: State)
    requires Reachable(s) && Sized(s) && Stuck(s) && Queue(s) != []
    ensures Queue(s)[0] < |s.pcs| && s.pcs[Queue(s)[0]] == Held
  {
    ReachableInv(s);
    assert TicketOk(s, s.h.head);
    var f := Queue(s)[0];
    Around(s, f);
    if Moves(s, f) {
      var _ := MovesIsUseful(s, f);
    } else if s.h.signaller.At? && Moves(s, s.h.signaller.node) {
      var _ := MovesIsUseful(s, s.h.signaller.node);
    } else if s.h.head + 1 < |s.h.log| && Moves(s, s.h.log[s.h.head + 1]) {
      var _ := MovesIsUseful(s, s.h.log[s.h.head + 1]);
    }
  }

  lemma BehindFirst(s: State, n: Node)
    requires Sized(s) && n < |s.pcs| && s.h.head < s.h.pos[n] < |s.h.log| && s.h.log[s.h.pos[n]] == n
    ensures n in Queue(s)[1..]
  {
    assert Queue(s)[1..] == s.h.log[s.h.head + 1..];
  }

  /**
   Deadlock freedom. When no operation can get further, either the lock is free and every
   node idle, or the first queued node holds the lock, every other queued node is parked
   on its readyFlag, and every node outside the queue is idle.
   */
  lemma StuckOnlyWhileHeld(s: State, n: Node)
    requires Reachable(s) && Sized(s) && Stuck(s) && n < |s.pcs|
    ensures s.lock == Null ==> s.pcs[n] == Idle
    ensures s.lock != Null ==>
      && Queue(s) != [] && Queue(s)[0] < |s.pcs| && s.pcs[Queue(s)[0]] == Held
      && (s.pcs[n] == Idle || n == Queue(s)[0] || (s.pcs[n].ParkedReady? && n in Queue(s)[1..]))
  {
    ReachableInv(s);
    if Queue(s) != [] {
      StuckFront(s);
    }
    Around(s, n);
    if Moves(s, n) {
      var _ := MovesIsUseful(s, n);
    }
    if Queued(s.pcs[n]) && s.h.pos[n] > s.h.head {
      BehindFirst(s, n);
    }
  }

  /** An upper bound on the steps an operation can still take by itself. */
  function Left(pc: Pc): nat
  {
    match pc
    case Idle => 0
    case Linking(_) => 6
    case SettingNext(_) => 5
    case SignallingNext(_) => 4
    case AwaitingReady => 3
    case OfferingReady(_) => 2
    case ParkedReady(_) => 1
    case Held => 0
    case Freeing => 7
    case AwaitingNext(_) => 6
    case OfferingNext(_, _) => 5
    case ParkedNext(_, _) => 4
    case Rereading => 3
    case Passing(_) => 2
    case SignallingReady(_) => 1
    case Spinning(_) => 7
    case Moving(_) => 1
    case Reserved => 0
  }

  /** A step that leaves the other nodes' operations alone. */
  lemma LeftFalls(s: State, s': State, n: Node)
    requires n < |s.pcs| == |s'.pcs| && Left(s'.pcs[n]) < Left(s.pcs[n])
    requires s'.pcs == s.pcs[n := s'.pcs[n]]
    ensures Sum(s'.pcs, Left) < Sum(s.pcs, Left)
  {
    SumUpdate(s.pcs, n, s'.pcs[n], Left);
  }

  /** Only the operation on `n` has moved, and it has fewer steps left. */
  predicate GetsFurther(s: State, s': State, n: Node)
    requires n < |s.pcs|
  {
    |s'.pcs| == |s.pcs| && s'.pcs == s.pcs[n := s'.pcs[n]] && Left(s'.pcs[n]) < Left(s.pcs[n])
  }

  lemma AcquireGetsFurther(s: State, n: Node, a: AcquireStep)
    requires Sized(s) && n < |s.pcs| && AcquireEnabled(s, n, a) && a != Enqueue && a != TryEnqueue
    ensures GetsFurther(s, AcquireApply(s, n, a), n)
  {
  }

  lemma ReleaseGetsFurther(s: State, n: Node, a: ReleaseStep)
    requires Sized(s) && n < |s.pcs| && ReleaseEnabled(s, n, a) && a != Leave
    ensures GetsFurther(s, ReleaseApply(s, n, a), n)
  {
  }

  lemma AwaitGetsFurther(s: State, n: Node, a: AwaitStep)
    requires Sized(s) && n < |s.pcs| && AwaitEnabled(s, n, a)
    ensures GetsFurther(s, AwaitApply(s, n, a), n)
  {
  }

  lemma SpinGetsFurther(s: State, n: Node)
    requires Sized(s) && n < |s.pcs| && s.pcs[n].Spinning? && DoSpin(s, n) != s
    ensures GetsFurther(s, DoSpin(s, n), n)
  {
  }

  lemma MoveGetsFurther(s: State, n: Node)
    requires Sized(s) && n < |s.pcs| && s.pcs[n].Moving? && s.pcs[n].target < |s.pcs|
    ensures Sum(DoMove(s, n).pcs, Left) < Sum(s.pcs, Left)
  {
    var m := s.pcs[n].target;
    SumUpdate(s.pcs, n, Idle, Left);
    SumUpdate(s.pcs[n := Idle], m, Held, Left);
  }

  /**
   Every step but the callers' own (and one more turn of the spin loop) uses up part of
   a budget that only the callers replenish: at most seven steps for each call.
   */
  lemma UsefulStepsAreBounded(s: State, n: Node, a: Action)
    requires Sized(s) && Useful(s, n, a)
    ensures Sum(Apply(s, n, a).pcs, Left) < Sum(s.pcs, Left)
  {
    if a == Transfer(Move) {
      MoveGetsFurther(s, n);
    } else {
      match a {
        case Acquire(b) => AcquireGetsFurther(s, n, b);
        case Release(b) => ReleaseGetsFurther(s, n, b);
        case Await(b) => AwaitGetsFurther(s, n, b);
        case Transfer(b) => SpinGetsFurther(s, n);
      }
      LeftFalls(s, Apply(s, n, a), n);
    }
  }

  ghost predicate UsefulNext(s: State, s': State)
  {
    Sized(s) && exists n, a :: Useful(s, n, a) && s' == Apply(s, n, a)
  }

  lemma UsefulNextIsBounded(s: State, s': State)
    requires UsefulNext(s, s')
    ensures Sum(s'.pcs, Left) < Sum(s.pcs, Left)
  {
    var n, a :| Useful(s, n, a) && s' == Apply(s, n, a);
    UsefulStepsAreBounded(s, n, a);
  }

  /**
   Bounded hand-off: from any state, without new calls, at most seven useful steps per node
   lead to a state without useful steps; what that state looks like says StuckOnlyWhileHeld.
   */
  lemma {:induction false} HandOffIsBounded(tr: seq<State>)
    requires IsRun(tr, UsefulNext)
    ensures |tr| - 1 + Sum(tr[|tr| - 1].pcs, Left) <= Sum(tr[0].pcs, Left) <= 7 * |tr[0].pcs|
  {
    var k := |tr| - 1;
    if k == 0 {
      AtMostSeven(tr[0].pcs);
    } else {
      HandOffIsBounded(tr[..k]);
      UsefulNextIsBounded(tr[k - 1], tr[k]);
    }
  }

  lemma {:induction false} AtMostSeven(pcs: seq<Pc>)
    ensures Sum(pcs, Left) <= 7 * |pcs|
  {
    if pcs != [] {
      AtMostSeven(pcs[1..]);
    }
  }

  // ---------- the lock as its users see it ----------

  /** The node through which the lock is held, if any. */
  function Holder(s: State): Ref
  {
    if HeadOwns(s) then At(s.h.log[s.h.head]) else Null
  }

  lemma HolderOwns(s: State, x: Node)
    requires Inv(s)
    ensures Holder(s) == At(x) <==> x < |s.pcs| && Owns(s.pcs[x])
  {
    assert NodeOk(s, x);
  }

  /**
   Refinement. Seen through the holder alone, every step is a step of the plain lock that
   the layers above assume: nothing happens, or the free lock is granted to the node whose
   acquire returns, or the holder frees it, or the holder hands it to its transfer target.
   */
  lemma StepRefinesLock(s: State, n: Node, a: Action)
    requires Reachable(s) && Sized(s) && Enabled(s, n, a)
    ensures var before, after := Holder(s), Holder(Apply(s, n, a));
      || after == before
      || (before == Null && after == At(n) && a.Acquire?)
      || (before == At(n) && after == Null && a.Release?)
      || (before == At(n) && a.Transfer? && after == At(TransferTarget(s, n, a.m)))
  {
    ReachableInv(s);
    StepKeepsInv(s, n, a);
    var s' := Apply(s, n, a);
    HolderOwns(s, n);
    HolderOwns(s', n);
    if Holder(s).At? {
      HolderOwns(s, Holder(s).node);
      HolderOwns(s', Holder(s).node);
    }
    if Holder(s').At? {
      HolderOwns(s, Holder(s').node);
    }
    OthersKeepOwnership(s, n, a);
  }

  function TransferTarget(s: State, n: Node, a: TransferStep): Node
    requires n < |s.pcs|
  {
    if a.Replace? then a.target else if s.pcs[n].Spinning? || s.pcs[n].Moving? then s.pcs[n].target else n
  }

  /** A step of `n` changes who owns the lock only for `n` and for its transfer target. */
  lemma OthersKeepOwnership(s: State, n: Node, a: Action)
    requires Sized(s) && Enabled(s, n, a)
    ensures var s' := Apply(s, n, a);
      && |s'.pcs| == |s.pcs|
      && (forall x: Node :: x < |s.pcs| && x != n && !(a.Transfer? && x == TransferTarget(s, n, a.m)) ==>
        s'.pcs[x] == s.pcs[x])
      && (a.Await? ==> Owns(s'.pcs[n]) == Owns(s.pcs[n]))
      && (a.Acquire? ==> !Owns(s.pcs[n]))
      && (a.Release? && !Owns(s.pcs[n]) ==> !Owns(s'.pcs[n]))
  {
    match a
    case Acquire(b) => AcquireMovesOne(s, n, b);
    case Release(b) =>
    case Await(b) =>
    case Transfer(b) =>
  }

  lemma AcquireMovesOne(s: State, n: Node, a: AcquireStep)
    requires Sized(s) && n < |s.pcs| && AcquireEnabled(s, n, a)
    ensures var s' := AcquireApply(s, n, a); |s'.pcs| == |s.pcs| && s'.pcs == s.pcs[n := s'.pcs[n]] && !Owns(s.pcs[n])
  {
  }
}
