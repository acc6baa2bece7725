/**
 The global list of condition variables: pthread_cond_init appends, pthread_cond_destroy
 unlinks from any position. Both hold ptw32_cond_list_lock (McsLock), so one call is one
 step.
 */
module CondList {
  import opened Sequences

  class Cond {
    var next: Cond?
    var prev: Cond?

    constructor ()
    {
      next, prev := null, null;
    }
  }

  class List {
    var head: Cond?   // ptw32_cond_list_head
    var tail: Cond?   // ptw32_cond_list_tail
    ghost var conds: seq<Cond>

    ghost predicate Valid()
      reads this, conds
    {
      StandsFor(conds)
    }

    /** The links stand for `xs`, read in either direction. */
    ghost predicate StandsFor(xs: seq<Cond>)
      reads this`head, this`tail, xs
    {
      && head == (if xs == [] then null else xs[0])
      && tail == (if xs == [] then null else xs[|xs| - 1])
      && (forall i {:trigger xs[i].next} :: 0 <= i < |xs| ==>
            xs[i].next == (if i + 1 < |xs| then xs[i + 1] else null))
      && (forall i {:trigger xs[i].prev} :: 0 <= i < |xs| ==>
            xs[i].prev == (if i > 0 then xs[i - 1] else null))
      && (forall i, j :: 0 <= i < j < |xs| ==> xs[i] != xs[j])
    }

    constructor ()
      ensures Valid() && conds == []
    {
      head, tail, conds := null, null, [];
    }

    /** Lines 144-165 of pthread_cond_init.c. */
    method Append(cv: Cond)
      requires Valid() && cv !in conds
      modifies this, cv, conds
      ensures Valid() && conds == old(conds) + [cv]
    {
      cv.next := null;
      cv.prev := tail;
      if tail != null {
        tail.next := cv;
      }
      tail := cv;
      if head == null {
        head := cv;
      }
      conds := conds + [cv];
    }

    /**
     Lines 199-217 of pthread_cond_destroy.c. No null pointer is followed: a condition
     variable that is not the head has a predecessor, one that is not the tail a successor.
     */
    method UnlinkAt(cv: Cond, ghost k: nat)
      requires Valid() && k < |conds| && conds[k] == cv
      modifies this`head, this`tail, conds
      ensures StandsFor(Cut(conds, k))
    {
      assert (k == 0 || cv.prev == conds[k - 1]) && (k == |conds| - 1 || cv.next == conds[k + 1]);
      if head == cv {
        head := cv.next;
      } else {
        cv.prev.next := cv.next;
      }
      if tail == cv {
        tail := cv.prev;
      } else {
        cv.next.prev := cv.prev;
      }
    }

    /** Removal from any position leaves a well-formed list of the others, in order. */
    method Unlink(cv: Cond)
      requires Valid() && cv in conds
      modifies this, conds
      ensures Valid() && cv !in conds
      ensures exists k :: 0 <= k < |old(conds)| && old(conds)[k] == cv
                && conds == Cut(old(conds), k)
    {
      ghost var k :| 0 <= k < |conds| && conds[k] == cv;
      UnlinkAt(cv, k);
      conds := Cut(conds, k);
    }
  }
}
