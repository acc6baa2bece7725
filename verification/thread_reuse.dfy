/**
 Thread handles: the list of reusable thread structs of ptw32_reuse.c and the issuing of
 handles by ptw32_new.c. A handle is the address of a struct and a 32-bit counter that
 grows by one each time the struct is put on the list. Push and pop run under
 ptw32_thread_reuse_lock, so each is one step. The rest of ptw32_new runs outside the lock:
 Reuse.New states one uninterrupted call, Threads.NewAmongOthers one among those of others.
 */
module ThreadReuse {

  const WORD: nat := 0x1_0000_0000

  /** The field prevReuse: NULL, the sentinel PTW32_THREAD_REUSE_EMPTY, or a struct. */
  datatype Link = Null | ReuseEmpty | To(tp: ThreadStruct)

  class ThreadStruct {
    var x: nat            // ptHandle.x; ptHandle.p is the struct itself
    var prevReuse: Link
    var seqNumber: nat

    constructor ()
      ensures x == 0 && prevReuse == Null
    {
      x, prevReuse, seqNumber := 0, Null, 0;
    }
  }

  /** What a 32-bit counter shows after `n` increments. */
  function Wrapped(n: nat): nat
  {
    n % WORD
  }

  lemma Advance(n: nat)
    ensures Wrapped(Wrapped(n) + 1) == Wrapped(n + 1)
    ensures n + 1 < WORD ==> Wrapped(n + 1) == n + 1
  {
    var q, r := n / WORD, n % WORD;
    assert n == q * WORD + r;
    if r + 1 < WORD {
      Remainder(q, r + 1);
      Remainder(0, r + 1);
    } else {
      Remainder(q + 1, 0);
    }
  }

  lemma Remainder(q: nat, r: nat)
    requires r < WORD
    ensures Wrapped(q * WORD + r) == r
  {
    var x := q * WORD + r;
    assert x - x % WORD == x / WORD * WORD;
  }

  datatype Handle = Handle(p: ThreadStruct, x: nat)

  datatype Maybe = Nil | Some(t: Handle)

  class Reuse {
    var top: Link
    var bottom: Link
    var threadSeqNumber: nat

    ghost var structs: set<ThreadStruct>              // every struct ever allocated
    ghost var waiting: seq<ThreadStruct>              // those on the reuse list, oldest first
    ghost var recycled: map<ThreadStruct, nat>        // how often each was put on the list
    ghost var issued: seq<Handle>                     // every handle returned, in order

    ghost predicate Linked()
      reads this, waiting
    {
      && top == (if waiting == [] then ReuseEmpty else To(waiting[0]))
      && bottom == (if waiting == [] then ReuseEmpty else To(waiting[|waiting| - 1]))
      && (forall i {:trigger waiting[i].prevReuse} :: 0 <= i < |waiting| ==>
            waiting[i].prevReuse == (if i + 1 < |waiting| then To(waiting[i + 1]) else ReuseEmpty))
      && (forall i, j :: 0 <= i < j < |waiting| ==> waiting[i] != waiting[j])
    }

    ghost predicate Counted()
      reads this, structs
    {
      && recycled.Keys == structs
      && (forall p :: p in structs ==> p.x == Wrapped(recycled[p]))
    }

    /** The generation of a handle is not later than its struct's, and earlier while the struct waits. */
    ghost predicate Past(h: Handle)
      reads this
    {
      && h.p in recycled
      && (recycled[h.p] < WORD ==> h.x <= recycled[h.p])
      && (recycled[h.p] < WORD && h.p in waiting ==> h.x < recycled[h.p])
    }

    ghost predicate Valid()
      reads this, waiting, structs
    {
      && (forall p :: p in waiting ==> p in structs)
      && Linked() && Counted()
      && (forall i :: 0 <= i < |issued| ==> Past(issued[i]))
      && (forall i, j :: 0 <= i < j < |issued| && issued[i] == issued[j] ==> recycled[issued[i].p] >= WORD)
    }

    constructor ()
      ensures Valid() && issued == [] && waiting == [] && structs == {}
    {
      top, bottom, threadSeqNumber := ReuseEmpty, ReuseEmpty, 0;
      structs, waiting, recycled, issued := {}, [], map[], [];
    }

    /** Lines 90-106 of ptw32_reuse.c: the links alone. */
    method Detach() returns (t: Maybe)
      requires Linked()
      modifies this`top, this`bottom, this`waiting, waiting`prevReuse
      ensures Linked()
      ensures old(waiting) == [] ==> t == Nil && waiting == []
      ensures old(waiting) != [] ==>
                var p := old(waiting)[0];
                t == Some(Handle(p, p.x)) && waiting == old(waiting)[1..] && p.prevReuse == Null
    {
      t := Nil;
      if top != ReuseEmpty {
        var tp := top.tp;
        top := tp.prevReuse;
        if top == ReuseEmpty {
          bottom := ReuseEmpty;
        }
        tp.prevReuse := Null;
        t := Some(Handle(tp, tp.x));
        waiting := waiting[1..];
      }
    }

    /** ptw32_threadReusePop: the oldest struct on the list, with its handle as it stands. */
    method Pop() returns (t: Maybe)
      requires Valid()
      modifies this`top, this`bottom, this`waiting, waiting`prevReuse
      ensures Valid()
      ensures old(waiting) == [] ==> t == Nil && waiting == []
      ensures old(waiting) != [] ==>
                var p := old(waiting)[0];
                t == Some(Handle(p, p.x)) && waiting == old(waiting)[1..] && p.prevReuse == Null && Unissued(p)
    {
      ghost var was := waiting;
      t := Detach();
      forall i | 0 <= i < |issued| ensures Past(issued[i]) {
        assert old(Past(issued[i]));
      }
      if t.Some? {
        forall i | 0 <= i < |issued| && issued[i].p == was[0] && recycled[was[0]] < WORD
          ensures issued[i].x < was[0].x
        {
          assert old(Past(issued[i]));
        }
      }
    }

    /** Lines 144-155 of ptw32_reuse.c: the links alone. */
    method Append(tp: ThreadStruct)
      requires Linked() && tp !in waiting
      modifies this`top, this`bottom, this`waiting, tp`prevReuse, waiting`prevReuse
      ensures Linked() && waiting == old(waiting) + [tp]
    {
      tp.prevReuse := ReuseEmpty;
      if bottom != ReuseEmpty {
        bottom.tp.prevReuse := To(tp);
      } else {
        top := To(tp);
      }
      bottom := To(tp);
      waiting := waiting + [tp];
    }

    /** Lines 129-140: the counter advances, wrapping at 32 bits. */
    method Advances(tp: ThreadStruct)
      requires Counted() && tp in structs
      modifies this`recycled, tp`x, tp`seqNumber
      ensures Counted() && recycled == old(recycled)[tp := old(recycled)[tp] + 1]
      ensures tp.x == Wrapped(old(tp.x) + 1) == Wrapped(recycled[tp])
    {
      tp.seqNumber := 0;
      tp.x := Wrapped(tp.x + 1);
      recycled := recycled[tp := recycled[tp] + 1];
      Advance(old(recycled[tp]));
    }

    /** Lines 129-142: the struct is wiped and its counter advanced. */
    method Retire(tp: ThreadStruct)
      requires Valid() && tp in structs && tp !in waiting
      modifies this`recycled, tp`x, tp`seqNumber
      ensures Valid() && Unissued(tp)
      ensures recycled == old(recycled)[tp := old(recycled)[tp] + 1] && tp.x == Wrapped(old(tp.x) + 1)
    {
      Advances(tp);
      Advance(old(recycled[tp]));
      forall i | 0 <= i < |issued|
        ensures Past(issued[i]) && (issued[i].p == tp && recycled[tp] < WORD ==> issued[i].x < tp.x)
      {
        assert old(Past(issued[i]));
      }
    }

    /** ptw32_threadReusePush: `tp` is no longer in use and joins the list as its newest member. */
    method Push(tp: ThreadStruct)
      requires Valid() && tp in structs && tp !in waiting
      modifies this, structs
      ensures Valid() && structs == old(structs) && issued == old(issued)
      ensures waiting == old(waiting) + [tp]
      ensures recycled == old(recycled)[tp := old(recycled)[tp] + 1]
      ensures tp.x == Wrapped(old(tp.x) + 1) && forall p :: p in structs && p != tp ==> p.x == old(p.x)
      ensures threadSeqNumber == old(threadSeqNumber)
    {
      Retire(tp);
      label retired:
      Append(tp);
      forall i | 0 <= i < |issued| ensures Past(issued[i]) {
        assert old@retired(Past(issued[i]));
      }
    }

    /** No handle with the present counter of `p` has been issued. */
    ghost predicate Unissued(p: ThreadStruct)
      reads this, p
    {
      forall i :: 0 <= i < |issued| && issued[i].p == p && p in recycled && recycled[p] < WORD ==> issued[i].x < p.x
    }

    /** Lines 64-74 of ptw32_new.c: a struct that was never used, with counter 0. */
    method Fresh() returns (tp: ThreadStruct)
      requires Valid()
      modifies this`structs, this`recycled
      ensures Valid() && fresh(tp) && structs == old(structs) + {tp} && recycled == old(recycled)[tp := 0]
      ensures tp !in waiting && Unissued(tp) && tp.x == 0
    {
      tp := new ThreadStruct();
      structs := structs + {tp};
      recycled := recycled[tp := 0];
      forall i | 0 <= i < |issued| ensures Past(issued[i]) {
        assert old(Past(issued[i]));
      }
    }

    /** Lines 53-75 of ptw32_new.c: the oldest struct on the list, or a fresh one. */
    method Obtain() returns (tp: ThreadStruct)
      requires Valid()
      modifies this, structs
      ensures Valid() && tp in structs && tp !in waiting && Unissued(tp)
      ensures structs == old(structs) + {tp} && (tp in old(structs) || fresh(tp))
      ensures recycled == if tp in old(structs) then old(recycled) else old(recycled)[tp := 0]
      ensures forall p :: p in old(structs) ==> p.x == old(p.x)
      ensures issued == old(issued) && threadSeqNumber == old(threadSeqNumber)
      ensures old(waiting) != [] ==> tp == old(waiting)[0] && waiting == old(waiting)[1..]
      ensures old(waiting) == [] ==> fresh(tp) && tp.x == 0 && waiting == []
    {
      var popped := Pop();
      if popped.Some? {
        tp := popped.t.p;
      } else {
        tp := Fresh();
      }
    }

    /** Line 78: the struct gets the next sequence number, without the lock. */
    method Number(tp: ThreadStruct)
      requires Valid() && tp in structs
      modifies this`threadSeqNumber, tp`seqNumber
      ensures Valid() && threadSeqNumber == old(threadSeqNumber) + 1 == tp.seqNumber
    {
      threadSeqNumber := threadSeqNumber + 1;
      tp.seqNumber := threadSeqNumber;
      forall i | 0 <= i < |issued| ensures Past(issued[i]) {
        assert old(Past(issued[i]));
      }
    }

    /** The handle of `tp` goes to the caller. */
    ghost method Issue(tp: ThreadStruct)
      requires Valid() && tp in structs && tp !in waiting && Unissued(tp)
      modifies this`issued
      ensures Valid() && issued == old(issued) + [Handle(tp, tp.x)]
      ensures recycled[tp] < WORD ==> Handle(tp, tp.x) !in old(issued)
    {
      issued := issued + [Handle(tp, tp.x)];
    }

    /**
     ptw32_new, when nobody intervenes. `eventMade` is the outcome of CreateEvent; when it
     fails the struct goes back on the list.
     */
    method New(eventMade: bool) returns (t: Maybe)
      requires Valid()
      modifies this, structs
      ensures Valid()
      ensures t == Nil <==> !eventMade
      ensures t == Nil ==> issued == old(issued)
      ensures t.Some? ==> issued == old(issued) + [t.t] && t.t.p in structs && t.t.p !in waiting && t.t.x == t.t.p.x
      // first in, first out
      ensures t.Some? && old(waiting) != [] ==> t.t.p == old(waiting)[0] && waiting == old(waiting)[1..]
      ensures t.Some? && old(waiting) == [] ==> fresh(t.t.p) && t.t.x == 0
      // a handle never seen before, until its struct has been recycled 2^32 times
      ensures t.Some? && recycled[t.t.p] < WORD ==> t.t !in old(issued)
      ensures threadSeqNumber == old(threadSeqNumber) + 1
    {
      var tp := Obtain();
      Number(tp);
      if eventMade {
        t := Some(Handle(tp, tp.x));
        Issue(tp);
      } else {
        Push(tp);
        t := Nil;
      }
    }
  }

  /**
   The calls of ptw32_new and of thread ends by any number of threads, step by step. Each
   struct that is not on the reuse list is in the hands of one call of ptw32_new or belongs
   to a thread.
   */
  class Threads {
    const reuse: Reuse
    var inHand: set<ThreadStruct>   // obtained by a call that has not returned
    var inUse: set<ThreadStruct>    // issued, and the thread has not ended

    ghost predicate Valid()
      reads this, reuse, reuse.waiting, reuse.structs
    {
      && reuse.Valid()
      && inHand + inUse <= reuse.structs && inHand !! inUse
      && (forall p :: p in inHand + inUse ==> p !in reuse.waiting)
      && (forall p :: p in inHand ==> reuse.Unissued(p))
    }

    constructor ()
      ensures Valid() && fresh(reuse) && inHand == {} && inUse == {} && reuse.issued == []
    {
      reuse := new Reuse();
      inHand, inUse := {}, {};
    }

    /** What the other calls leave alone. */
    twostate predicate Continues()
      reads this, reuse
    {
      old(reuse.issued) <= reuse.issued && old(reuse.structs) <= reuse.structs
      && fresh(reuse.structs - old(reuse.structs))
    }

    method Begin() returns (tp: ThreadStruct)
      requires Valid()
      modifies this, reuse, reuse.structs
      ensures Valid() && Continues() && tp !in old(inHand) && inHand == old(inHand) + {tp} && inUse == old(inUse)
      ensures reuse.issued == old(reuse.issued)
    {
      tp := reuse.Obtain();
      inHand := inHand + {tp};
    }

    /** The call returns, and the handle is issued. */
    method Finish(tp: ThreadStruct) returns (h: Handle)
      requires Valid() && tp in inHand
      modifies this, reuse`issued
      ensures Valid() && Continues() && inHand == old(inHand) - {tp} && inUse == old(inUse) + {tp}
      ensures h == Handle(tp, tp.x) && reuse.issued == old(reuse.issued) + [h]
      ensures reuse.recycled[tp] < WORD ==> h !in old(reuse.issued)
    {
      h := Handle(tp, tp.x);
      reuse.Issue(tp);
      inHand, inUse := inHand - {tp}, inUse + {tp};
    }

    /** The call fails, and the struct goes back. */
    method Abandon(tp: ThreadStruct)
      requires Valid() && tp in inHand
      modifies this, reuse, reuse.structs
      ensures Valid() && Continues() && inHand == old(inHand) - {tp} && inUse == old(inUse)
      ensures reuse.issued == old(reuse.issued)
    {
      inHand := inHand - {tp};
      reuse.Push(tp);
    }

    /** The thread has ended, and its struct is recycled. */
    method End(tp: ThreadStruct)
      requires Valid() && tp in inUse
      modifies this, reuse, reuse.structs
      ensures Valid() && Continues() && inHand == old(inHand) && inUse == old(inUse) - {tp}
      ensures reuse.issued == old(reuse.issued)
    {
      inUse := inUse - {tp};
      reuse.Push(tp);
    }

    /** Any number of steps of other calls, while one call has `mine` in hand. */
    method Others(mine: ThreadStruct)
      requires Valid() && mine in inHand
      modifies this, reuse, reuse.structs
      ensures Valid() && Continues() && mine in inHand
    {
      var steps: nat := *;
      while steps > 0
        invariant Valid() && Continues() && mine in inHand
      {
        Other(mine);
        steps := steps - 1;
      }
    }

    method Other(mine: ThreadStruct)
      requires Valid() && mine in inHand
      modifies this, reuse, reuse.structs
      ensures Valid() && Continues() && mine in inHand
    {
      var begin: bool, made: bool := *, *;
      var p: ThreadStruct? := *;
      if begin {
        var _ := Begin();
      } else if p in inUse {
        End(p);
      } else if p in inHand && p != mine && made {
        var _ := Finish(p);
      } else if p in inHand && p != mine {
        Abandon(p);
      }
    }

    method BeginAmongOthers() returns (tp: ThreadStruct)
      requires Valid()
      modifies this, reuse, reuse.structs
      ensures Valid() && Continues() && tp in inHand
    {
      tp := Begin();
      Others(tp);
    }

    /**
     ptw32_new among the calls of others: a handle that it returns was never issued before,
     by anybody, until its struct has been recycled 2^32 times.
     */
    method NewAmongOthers(eventMade: bool) returns (t: Maybe)
      requires Valid()
      modifies this, reuse, reuse.structs
      ensures Valid() && Continues()
      ensures t == Nil <==> !eventMade
      ensures t.Some? ==>
                var n := |reuse.issued| - 1;
                n >= |old(reuse.issued)| && reuse.issued[n] == t.t && t.t.p in reuse.recycled &&
                (reuse.recycled[t.t.p] < WORD ==> t.t !in reuse.issued[..n])
    {
      var tp := BeginAmongOthers();
      if eventMade {
        var h := Finish(tp);
        t := Some(h);
      } else {
        Abandon(tp);
        t := Nil;
      }
    }
  }

  /**
   While no struct has been recycled 2^32 times, a handle whose struct is waiting for
   reuse, or has been issued again since, is told apart from the struct's own handle, and
   from every later handle to the same struct, by its counter alone.
   */
  lemma StaleHandleIsDetected(r: Reuse, i: nat)
    requires r.Valid() && i < |r.issued|
    requires var p := r.issued[i].p;
             p in r.recycled && r.recycled[p] < WORD &&
             (p in r.waiting || exists j :: i < j < |r.issued| && r.issued[j].p == p && r.issued[j].x == p.x)
    ensures r.issued[i].x != r.issued[i].p.x
    ensures forall j :: i < j < |r.issued| && r.issued[j].p == r.issued[i].p ==> r.issued[j].x != r.issued[i].x
  {
    var h := r.issued[i];
    assert r.Past(h);
    if h.p !in r.waiting {
      var j :| i < j < |r.issued| && r.issued[j].p == h.p && r.issued[j].x == h.p.x;
      assert r.issued[i] != r.issued[j];
    }
  }

  /** While no struct has been recycled 2^32 times, all handles ever issued are pairwise different. */
  lemma HandlesAreDifferent(r: Reuse, i: nat, j: nat)
    requires r.Valid() && i < |r.issued| && j < |r.issued| && i != j
    requires forall p :: p in r.structs ==> r.recycled[p] < WORD
    ensures r.issued[i] != r.issued[j]
  {
    assert r.Past(r.issued[i]);
    assert r.issued[i].p in r.structs;
  }
}
