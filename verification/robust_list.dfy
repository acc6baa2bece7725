/**
 The per-thread lists of held robust mutexes: ptw32_robust_mutex_add and
 ptw32_robust_mutex_remove of pthread_mutex_consistent.c, and the drain of a list when
 its thread ends in pthread_win32_attach_detach_np.c. A mutex and its robust node, which
 point at each other for good, are one object here.
 */
module RobustList {
  import opened Sequences

  class Thread {
    var robustMxList: Mutex?

    constructor ()
      ensures robustMxList == null
    {
      robustMxList := null;
    }
  }

  /** The word stateInconsistent; OwnerDead is the -1 that a terminating thread writes. */
  datatype Recovery = Consistent | Inconsistent | NotRecoverable | OwnerDead

  class Mutex {
    var ownerThread: Thread?
    var prev: Mutex?
    var next: Mutex?
    var stateInconsistent: Recovery
    var event: bool

    constructor ()
      ensures ownerThread == null && stateInconsistent == Consistent && !event
    {
      ownerThread, prev, next, stateInconsistent, event := null, null, null, Consistent, false;
    }
  }

  /** `xs` is the doubly linked list that starts at `t`. */
  ghost predicate IsLinked(t: Thread, xs: seq<Mutex>)
    reads t, xs`next, xs`prev
  {
    && t.robustMxList == (if xs == [] then null else xs[0])
    && (forall i {:trigger xs[i].next} :: 0 <= i < |xs| ==>
          xs[i].next == (if i + 1 < |xs| then xs[i + 1] else null))
    && (forall i {:trigger xs[i].prev} :: 0 <= i < |xs| ==>
          xs[i].prev == (if i > 0 then xs[i - 1] else null))
    && (forall i, j :: 0 <= i < j < |xs| ==> xs[i] != xs[j])
  }

  /** `xs` is the doubly linked list of `t`, and `t` owns its members. */
  ghost predicate IsList(t: Thread, xs: seq<Mutex>)
    reads t, xs
  {
    IsLinked(t, xs) && forall i {:trigger xs[i].ownerThread} :: 0 <= i < |xs| ==> xs[i].ownerThread == t
  }

  /** Lines 121-143 of pthread_mutex_consistent.c. */
  method Add(mutex: Mutex, self: Thread, ghost xs: seq<Mutex>)
    requires IsList(self, xs) && mutex !in xs
    modifies self, mutex, xs
    ensures IsList(self, [mutex] + xs)
    ensures unchanged(mutex`stateInconsistent) && unchanged(mutex`event)
    ensures forall m :: m in xs ==>
              m.ownerThread == old(m.ownerThread) && m.stateInconsistent == old(m.stateInconsistent)
              && m.event == old(m.event)
  {
    mutex.ownerThread := self;
    if self.robustMxList == null {
      mutex.prev := null;
      mutex.next := null;
      self.robustMxList := mutex;
    } else {
      mutex.prev := null;
      mutex.next := self.robustMxList;
      self.robustMxList.prev := mutex;
      self.robustMxList := mutex;
    }
  }

  /** Lines 155-166: the links around a mutex at any position. */
  method Unlink(mutex: Mutex, list: Thread, ghost xs: seq<Mutex>, ghost k: nat)
    requires k < |xs| && xs[k] == mutex && IsLinked(list, xs)
    modifies list, xs`next, xs`prev
    ensures IsLinked(list, Cut(xs, k))
  {
    assert (k > 0 ==> mutex.prev == xs[k - 1]) && (k + 1 < |xs| ==> mutex.next == xs[k + 1]);
    if mutex.next != null {
      mutex.next.prev := mutex.prev;
    }
    if mutex.prev != null {
      mutex.prev.next := mutex.next;
    }
    if list.robustMxList == mutex {
      list.robustMxList := mutex.next;
    }
  }

  /** Lines 147-167: removal from any position, the owner field left at `heir`. */
  method Remove(mutex: Mutex, heir: Thread?, ghost xs: seq<Mutex>, ghost k: nat)
    requires k < |xs| && xs[k] == mutex && mutex.ownerThread != null && IsList(mutex.ownerThread, xs)
    modifies mutex.ownerThread, xs
    ensures IsList(old(mutex.ownerThread), Cut(xs, k))
    ensures mutex.ownerThread == heir
    ensures forall m :: m in xs ==>
              (m == mutex || m.ownerThread == old(m.ownerThread))
              && m.stateInconsistent == old(m.stateInconsistent) && m.event == old(m.event)
  {
    var list := mutex.ownerThread;
    mutex.ownerThread := heir;
    Unlink(mutex, list, xs, k);
  }

  /** Lines 237-250 of pthread_win32_attach_detach_np.c: the thread `sp` ends. */
  method Drain(sp: Thread, ghost xs: seq<Mutex>)
    requires IsList(sp, xs)
    modifies sp, xs
    ensures IsList(sp, [])
    ensures forall i :: 0 <= i < |xs| ==> Abandoned(xs[i], sp)
  {
    ghost var done := 0;
    assert forall i, j :: 0 <= i < j < |xs| ==> xs[i] != xs[j];
    while sp.robustMxList != null
      invariant 0 <= done <= |xs|
      invariant IsList(sp, xs[done..])
      invariant forall i :: 0 <= i < done ==> Abandoned(xs[i], sp)
      decreases |xs| - done
    {
      ghost var rest := xs[done..];
      assert forall i :: 0 <= i < done ==> xs[i] !in rest;
      DrainHead(sp, rest);
      assert rest[0] == xs[done] && rest[1..] == xs[done + 1..];
      done := done + 1;
    }
  }

  /** What a dying thread leaves of a mutex that it held. */
  ghost predicate Abandoned(m: Mutex, sp: Thread)
    reads m
  {
    m.stateInconsistent == OwnerDead && m.event && m.ownerThread == sp
  }

  /** One turn of the loop: lines 239-249. */
  method DrainHead(sp: Thread, ghost rest: seq<Mutex>)
    requires IsList(sp, rest) && rest != []
    modifies sp, rest
    ensures IsList(sp, rest[1..])
    ensures Abandoned(rest[0], sp)
  {
    var mx := sp.robustMxList;
    Remove(mx, sp, rest, 0);
    mx.stateInconsistent := OwnerDead;
    mx.event := true;
    assert Cut(rest, 0) == rest[1..];
  }

  /**
   Every thread's list at once. Lists of different threads share no mutex because a mutex
   has one owner, so adding, removing and draining on one list leave the others alone.
   */
  class System {
    ghost var lists: map<Thread, seq<Mutex>>
    ghost var mutexes: set<Mutex>

    ghost function Footprint(): set<object>
      reads this
    {
      lists.Keys + mutexes
    }

    /** Every live thread's list holds exactly the mutexes that the thread owns. */
    ghost predicate Valid()
      reads this, Footprint()
    {
      && (forall t, m :: t in lists && m in lists[t] ==> m in mutexes)
      && (forall t :: t in lists ==> IsList(t, lists[t]))
      && (forall m :: m in mutexes && m.ownerThread != null && m.ownerThread in lists ==> m in lists[m.ownerThread])
    }

    /** The members of a list are owned by its thread, and by no other. */
    lemma Owned(t: Thread, m: Mutex)
      requires Valid() && t in lists && m in lists[t]
      ensures m.ownerThread == t
    {
      var i :| 0 <= i < |lists[t]| && lists[t][i] == m;
      assert lists[t][i].ownerThread == t;
    }

    lemma Disjoint()
      requires Valid()
      ensures forall t, u, m :: t in lists && u in lists && m in lists[t] && m in lists[u] ==> t == u
      ensures forall t, m :: t in lists && m in lists[t] ==> m.ownerThread == t
    {
      forall t, m | t in lists && m in lists[t] ensures m.ownerThread == t {
        Owned(t, m);
      }
      forall t, u, m | t in lists && u in lists && m in lists[t] && m in lists[u] ensures t == u {
        Owned(t, m);
        Owned(u, m);
      }
    }

    /** Adds to one list; the others are not affected. */
    method AddTo(mutex: Mutex, self: Thread)
      requires Valid() && self in lists && mutex in mutexes
      requires mutex.ownerThread == null || mutex.ownerThread !in lists
      modifies self, mutex, lists[self]
      ensures mutex.ownerThread == self && IsList(self, [mutex] + lists[self])
      ensures forall t :: t in lists && t != self ==> IsList(t, lists[t])
      ensures forall m :: m in mutexes && m != mutex ==> m.ownerThread == old(m.ownerThread)
    {
      Disjoint();
      Add(mutex, self, lists[self]);
      forall t | t in lists && t != self ensures IsList(t, lists[t]) {
        assert old(IsList(t, lists[t]));
        assert forall i :: 0 <= i < |lists[t]| ==> lists[t][i] in lists[t];
      }
    }

    /** `self` has acquired `mutex`, which no live thread owns. */
    method Acquired(mutex: Mutex, self: Thread)
      requires Valid() && self in lists && mutex in mutexes
      requires mutex.ownerThread == null || mutex.ownerThread !in lists
      modifies this, Footprint()
      ensures Valid() && mutex.ownerThread == self
      ensures lists == old(lists)[self := [mutex] + old(lists[self])] && mutexes == old(mutexes)
      ensures forall m :: m in mutexes && m != mutex ==> m.ownerThread == old(m.ownerThread)
    {
      AddTo(mutex, self);
      lists := lists[self := [mutex] + lists[self]];
    }

    /** Removes from one list; the others are not affected. */
    method RemoveFrom(mutex: Mutex, ghost k: nat)
      requires Valid() && mutex in mutexes && mutex.ownerThread != null && mutex.ownerThread in lists
      requires k < |lists[mutex.ownerThread]| && lists[mutex.ownerThread][k] == mutex
      modifies mutex.ownerThread, lists[mutex.ownerThread]
      ensures mutex.ownerThread == null && IsList(old(mutex.ownerThread), Cut(lists[old(mutex.ownerThread)], k))
      ensures forall t :: t in lists && t != old(mutex.ownerThread) ==> IsList(t, lists[t])
      ensures forall m :: m in mutexes && m != mutex ==> m.ownerThread == old(m.ownerThread)
    {
      Disjoint();
      ghost var self := mutex.ownerThread;
      Remove(mutex, null, lists[self], k);
      forall t | t in lists && t != self ensures IsList(t, lists[t]) {
        assert old(IsList(t, lists[t]));
        assert forall i :: 0 <= i < |lists[t]| ==> lists[t][i] in lists[t];
      }
    }

    /** The owner releases `mutex`, wherever in its list it stands. */
    method Released(mutex: Mutex, ghost k: nat)
      requires Valid() && mutex in mutexes && mutex.ownerThread != null && mutex.ownerThread in lists
      requires k < |lists[mutex.ownerThread]| && lists[mutex.ownerThread][k] == mutex
      modifies this, Footprint()
      ensures Valid() && mutex.ownerThread == null && mutexes == old(mutexes)
      ensures lists == old(lists)[old(mutex.ownerThread) := Cut(old(lists[mutex.ownerThread]), k)]
      ensures forall m :: m in mutexes && m != mutex ==> m.ownerThread == old(m.ownerThread)
    {
      ghost var self := mutex.ownerThread;
      Disjoint();
      RemoveFrom(mutex, k);
      lists := lists[self := Cut(lists[self], k)];
    }

    /** The thread `sp` ends: its mutexes are abandoned, those of other threads untouched. */
    method Exit(sp: Thread)
      requires Valid() && sp in lists
      modifies this, Footprint()
      ensures Valid() && lists == old(lists) - {sp} && mutexes == old(mutexes)
      ensures forall m :: m in old(lists[sp]) ==> Abandoned(m, sp)
      ensures forall m :: m in mutexes && m !in old(lists[sp]) ==>
                m.ownerThread == old(m.ownerThread) && m.stateInconsistent == old(m.stateInconsistent)
    {
      Disjoint();
      ghost var was := lists;
      Drain(sp, was[sp]);
      forall t | t in was && t != sp ensures IsList(t, was[t]) {
        assert old(IsList(t, was[t]));
        assert forall i :: 0 <= i < |was[t]| ==> was[t][i] in was[t];
      }
      forall m | m in old(lists[sp]) ensures Abandoned(m, sp) {
        var i :| 0 <= i < |was[sp]| && was[sp][i] == m;
      }
      lists := was - {sp};
    }
  }
}
