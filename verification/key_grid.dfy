/**
 Thread-specific data: keys with destructors, and the associations at the crossings of a
 thread's chain and a key's chain (drawing in implement.h). Creation and destruction of
 associations, pthread_setspecific, pthread_key_delete, and the traversal that runs the
 destructors when a thread ends. Each procedure runs inside the locks that the code takes
 for it (McsLock), so one call is one step; what other threads and destructors do between
 two such steps is left open.
 */
module KeyGrid {
  import opened Sequences

  const PTHREAD_DESTRUCTOR_ITERATIONS: nat := 4

  class Key {
    const destructor: bool       // a destructor was given
    var threads: Assoc?
    ghost var row: seq<Assoc>    // the chain that starts at `threads`

    constructor (destructor: bool)
      ensures this.destructor == destructor && threads == null && row == []
    {
      this.destructor := destructor;
      threads, row := null, [];
    }
  }

  class Thread {
    var keys: Assoc?
    var nextAssoc: Assoc?
    ghost var column: seq<Assoc> // the chain that starts at `keys`

    constructor ()
      ensures keys == null && nextAssoc == null && column == []
    {
      keys, nextAssoc, column := null, null, [];
    }
  }

  class Assoc {
    const thread: Thread
    const key: Key
    var nextKey: Assoc?
    var prevKey: Assoc?
    var nextThread: Assoc?
    var prevThread: Assoc?

    constructor (thread: Thread, key: Key)
      ensures this.thread == thread && this.key == key
    {
      this.thread, this.key := thread, key;
      nextKey, prevKey, nextThread, prevThread := null, null, null, null;
    }
  }

  // ---------- chains as sequences ----------

  ghost predicate Distinct(xs: seq<Assoc>)
  {
    forall i, j :: 0 <= i < j < |xs| ==> xs[i] != xs[j]
  }

  /** `xs` is the chain of thread `t`, along nextKey and prevKey. */
  ghost predicate Column(t: Thread, xs: seq<Assoc>)
    reads t`keys, xs`nextKey, xs`prevKey
  {
    && Distinct(xs)
    && t.keys == (if xs == [] then null else xs[0])
    && (forall i {:trigger xs[i].nextKey} :: 0 <= i < |xs| ==>
          xs[i].nextKey == (if i + 1 < |xs| then xs[i + 1] else null))
    && (forall i {:trigger xs[i].prevKey} :: 0 <= i < |xs| ==>
          xs[i].prevKey == (if i > 0 then xs[i - 1] else null))
  }

  /** `xs` is the chain of key `k`, along nextThread and prevThread. */
  ghost predicate Row(k: Key, xs: seq<Assoc>)
    reads k`threads, xs`nextThread, xs`prevThread
  {
    && Distinct(xs)
    && k.threads == (if xs == [] then null else xs[0])
    && (forall i {:trigger xs[i].nextThread} :: 0 <= i < |xs| ==>
          xs[i].nextThread == (if i + 1 < |xs| then xs[i + 1] else null))
    && (forall i {:trigger xs[i].prevThread} :: 0 <= i < |xs| ==>
          xs[i].prevThread == (if i > 0 then xs[i - 1] else null))
  }

  ghost function Without(xs: seq<Assoc>, a: Assoc): seq<Assoc>
  {
    if xs == [] then [] else if xs[0] == a then xs[1..] else [xs[0]] + Without(xs[1..], a)
  }

  lemma {:induction false} WithoutAt(xs: seq<Assoc>, i: nat)
    requires i < |xs| && Distinct(xs)
    ensures Without(xs, xs[i]) == Cut(xs, i)
  {
    if i > 0 {
      WithoutAt(xs[1..], i - 1);
      assert xs[0] != xs[i];
      assert [xs[0]] + Cut(xs[1..], i - 1) == Cut(xs, i);
    } else {
      assert Cut(xs, 0) == xs[1..];
    }
  }

  lemma {:induction false} WithoutMembers(xs: seq<Assoc>, a: Assoc)
    requires Distinct(xs)
    ensures Distinct(Without(xs, a))
    ensures forall b :: b in Without(xs, a) <==> b in xs && b != a
    ensures a !in xs ==> Without(xs, a) == xs
  {
    if xs != [] {
      WithoutMembers(xs[1..], a);
      assert forall b :: b in xs <==> b == xs[0] || b in xs[1..];
      assert xs[0] !in xs[1..];
    }
  }

  // ---------- unlinking and linking ----------

  /** Lines 72-87 of ptw32_tkAssocDestroy.c. */
  method UnlinkColumn(assoc: Assoc, ghost xs: seq<Assoc>, ghost i: nat)
    requires Column(assoc.thread, xs) && i < |xs| && xs[i] == assoc
    modifies assoc.thread`keys, xs`nextKey, xs`prevKey
    ensures Column(assoc.thread, Cut(xs, i))
    ensures assoc.nextKey == old(assoc.nextKey)
  {
    var prev, next := assoc.prevKey, assoc.nextKey;
    assert (i > 0 ==> prev == xs[i - 1]) && (i + 1 < |xs| ==> next == xs[i + 1]);
    if prev != null {
      prev.nextKey := next;
    }
    if next != null {
      next.prevKey := prev;
    }
    if assoc.thread.keys == assoc {
      assoc.thread.keys := next;
    }
  }

  /** Lines 98-114 of ptw32_tkAssocDestroy.c. */
  method UnlinkRow(assoc: Assoc, ghost xs: seq<Assoc>, ghost i: nat)
    requires Row(assoc.key, xs) && i < |xs| && xs[i] == assoc
    modifies assoc.key`threads, xs`nextThread, xs`prevThread
    ensures Row(assoc.key, Cut(xs, i))
  {
    var prev, next := assoc.prevThread, assoc.nextThread;
    assert (i > 0 ==> prev == xs[i - 1]) && (i + 1 < |xs| ==> next == xs[i + 1]);
    if prev != null {
      prev.nextThread := next;
    }
    if next != null {
      next.prevThread := prev;
    }
    if assoc.key.threads == assoc {
      assoc.key.threads := next;
    }
  }

  /** Lines 99-108 of ptw32_tkAssocCreate.c. */
  method LinkRow(assoc: Assoc, ghost xs: seq<Assoc>)
    requires Row(assoc.key, xs) && assoc !in xs
    modifies assoc.key`threads, assoc`nextThread, assoc`prevThread, xs`prevThread
    ensures Row(assoc.key, [assoc] + xs)
  {
    assoc.prevThread := null;
    assoc.nextThread := assoc.key.threads;
    if assoc.nextThread != null {
      assoc.nextThread.prevThread := assoc;
    }
    assoc.key.threads := assoc;
  }

  /** Lines 110-119 of ptw32_tkAssocCreate.c. */
  method LinkColumn(assoc: Assoc, ghost xs: seq<Assoc>)
    requires Column(assoc.thread, xs) && assoc !in xs
    modifies assoc.thread`keys, assoc`nextKey, assoc`prevKey, xs`prevKey
    ensures Column(assoc.thread, [assoc] + xs)
  {
    assoc.prevKey := null;
    assoc.nextKey := assoc.thread.keys;
    if assoc.nextKey != null {
      assoc.nextKey.prevKey := assoc;
    }
    assoc.thread.keys := assoc;
  }

  // ---------- the part of a chain that a traversal has still to visit ----------

  ghost function From(xs: seq<Assoc>, a: Assoc?): seq<Assoc>
  {
    if xs == [] || a == null then [] else if xs[0] == a then xs else From(xs[1..], a)
  }

  lemma {:induction false} FromAt(xs: seq<Assoc>, i: nat)
    requires i < |xs| && Distinct(xs)
    ensures From(xs, xs[i]) == xs[i..]
  {
    if i > 0 {
      assert xs[0] != xs[i];
      FromAt(xs[1..], i - 1);
    }
  }

  lemma {:induction false} FromMembers(xs: seq<Assoc>, a: Assoc?)
    requires Distinct(xs)
    ensures Distinct(From(xs, a))
    ensures forall b :: b in From(xs, a) ==> b in xs
    ensures a != null && a in xs ==> From(xs, a) != [] && From(xs, a)[0] == a
  {
    if xs != [] && a != null && xs[0] != a {
      FromMembers(xs[1..], a);
    }
  }

  lemma CutAt<T>(xs: seq<T>, i: nat, m: nat)
    requires i < |xs| && m < |xs| - 1
    ensures |Cut(xs, i)| == |xs| - 1 && Cut(xs, i)[m] == xs[if m < i then m else m + 1]
  {
  }

  lemma CutIsDistinct(xs: seq<Assoc>, i: nat)
    requires i < |xs| && Distinct(xs)
    ensures Distinct(Cut(xs, i))
  {
    var ys := Cut(xs, i);
    forall k, m | 0 <= k < m < |ys| ensures ys[k] != ys[m] {
      CutAt(xs, i, k);
      CutAt(xs, i, m);
    }
  }

  lemma CutSuffix<T>(xs: seq<T>, i: nat, j: nat)
    requires i < |xs| && j < |xs|
    ensures |Cut(xs, i)| == |xs| - 1
    ensures if j <= i then Cut(xs[j..], i - j) == Cut(xs, i)[j..] else xs[j..] == Cut(xs, i)[j - 1..]
  {
  }

  /** What is before the cut may go; what is after it loses one member. */
  lemma WithoutSuffix(xs: seq<Assoc>, i: nat, j: nat)
    requires i < |xs| && j < |xs| && Distinct(xs)
    ensures |Cut(xs, i)| == |xs| - 1
    ensures Without(xs[j..], xs[i]) == if j <= i then Cut(xs, i)[j..] else Cut(xs, i)[j - 1..]
  {
    CutSuffix(xs, i, j);
    if j <= i {
      WithoutAt(xs[j..], i - j);
    } else {
      WithoutMembers(xs[j..], xs[i]);
    }
  }

  /** The repair of nextAssoc: unlinking takes the association out of the rest as well. */
  lemma FromWithout(xs: seq<Assoc>, i: nat, n: Assoc?)
    requires i < |xs| && Distinct(xs) && (n == null || n in xs)
    ensures Without(From(xs, n), xs[i]) ==
      From(Without(xs, xs[i]), if n == xs[i] then (if i + 1 < |xs| then xs[i + 1] else null) else n)
  {
    if n != null {
      var j :| 0 <= j < |xs| && xs[j] == n;
      FromAt(xs, j);
      WithoutAt(xs, i);
      WithoutSuffix(xs, i, j);
      FromCut(xs, i, j);
    }
  }

  lemma FromCut(xs: seq<Assoc>, i: nat, j: nat)
    requires i < |xs| && j < |xs| && Distinct(xs)
    ensures |Cut(xs, i)| == |xs| - 1
    ensures From(Cut(xs, i), if i == j then (if i + 1 < |xs| then xs[i + 1] else null) else xs[j])
      == if j <= i then Cut(xs, i)[j..] else Cut(xs, i)[j - 1..]
  {
    CutIsDistinct(xs, i);
    var m := if i < j then j - 1 else j;
    if m < |xs| - 1 {
      CutAt(xs, i, m);
      FromAt(Cut(xs, i), m);
    }
  }

  // ---------- the grid ----------

  /** The associations that a traversal of the chain of `t` has still to visit. */
  ghost function Rest(t: Thread): seq<Assoc>
    reads t`nextAssoc, t`column
  {
    From(t.column, t.nextAssoc)
  }

  /** The associations of a chain that belong to other keys. */
  ghost function Others(xs: seq<Assoc>, k: Key): seq<Assoc>
  {
    if xs == [] then [] else (if xs[0].key == k then [] else [xs[0]]) + Others(xs[1..], k)
  }

  lemma {:induction false} OthersWithout(xs: seq<Assoc>, a: Assoc)
    ensures Others(Without(xs, a), a.key) == Others(xs, a.key)
  {
    if xs != [] && xs[0] != a {
      OthersWithout(xs[1..], a);
    }
  }

  lemma {:induction false} OthersAll(xs: seq<Assoc>, k: Key)
    requires forall i :: 0 <= i < |xs| ==> xs[i].key != k
    ensures Others(xs, k) == xs
  {
    if xs != [] {
      OthersAll(xs[1..], k);
    }
  }

  lemma {:induction false} WithoutThins(xs: seq<Assoc>, a: Assoc)
    ensures Thinned(xs, Without(xs, a))
  {
    if xs != [] && xs[0] != a {
      WithoutThins(xs[1..], a);
    }
  }

  /** `ys` has no members but those of `xs`, and is not longer. */
  ghost predicate Thinned(xs: seq<Assoc>, ys: seq<Assoc>)
  {
    |ys| <= |xs| && forall a :: a in ys ==> a in xs
  }

  // ---------- what has happened ----------

  /** A thread stores a value for a key, or calls the key's destructor with one. */
  datatype Event =
    | Stored(thread: Thread, key: Key, value: nat)
    | Called(thread: Thread, key: Key, argument: nat)

  /** The destructor calls of thread `t`, by key. */
  ghost function CallsOf(log: seq<Event>, t: Thread): multiset<Key>
  {
    if log == [] then multiset{}
    else (if log[0].Called? && log[0].thread == t then multiset{log[0].key} else multiset{}) + CallsOf(log[1..], t)
  }

  /** What thread `t` has called the destructor of `k` with, in order. */
  ghost function Arguments(log: seq<Event>, t: Thread, k: Key): seq<nat>
  {
    if log == [] then []
    else (if log[0].Called? && log[0].thread == t && log[0].key == k then [log[0].argument] else [])
         + Arguments(log[1..], t, k)
  }

  /** Thread `t` has stored a value for `k`. */
  ghost predicate Stores(log: seq<Event>, t: Thread, k: Key)
  {
    exists i :: 0 <= i < |log| && log[i].Stored? && log[i].thread == t && log[i].key == k
  }

  /** Thread `t` has called no destructor. */
  ghost predicate NoCalls(log: seq<Event>, t: Thread)
  {
    forall i :: 0 <= i < |log| && log[i].thread == t ==> log[i].Stored?
  }

  ghost predicate NoEvents(log: seq<Event>, t: Thread)
  {
    forall i :: 0 <= i < |log| ==> log[i].thread != t
  }

  lemma {:induction false} CallsAppend(one: seq<Event>, two: seq<Event>, t: Thread)
    ensures CallsOf(one + two, t) == CallsOf(one, t) + CallsOf(two, t)
  {
    if one == [] {
      assert one + two == two;
    } else {
      assert (one + two)[1..] == one[1..] + two;
      CallsAppend(one[1..], two, t);
    }
  }

  lemma {:induction false} ArgumentsAppend(one: seq<Event>, two: seq<Event>, t: Thread, k: Key)
    ensures Arguments(one + two, t, k) == Arguments(one, t, k) + Arguments(two, t, k)
  {
    if one == [] {
      assert one + two == two;
    } else {
      assert (one + two)[1..] == one[1..] + two;
      ArgumentsAppend(one[1..], two, t, k);
    }
  }

  lemma StoresAppend(one: seq<Event>, two: seq<Event>, t: Thread, k: Key)
    ensures Stores(one + two, t, k) <==> Stores(one, t, k) || Stores(two, t, k)
  {
    if i :| 0 <= i < |one| && one[i].Stored? && one[i].thread == t && one[i].key == k {
      assert (one + two)[i] == one[i];
    }
    if i :| 0 <= i < |two| && two[i].Stored? && two[i].thread == t && two[i].key == k {
      assert (one + two)[|one| + i] == two[i];
    }
  }

  lemma {:induction false} NoCallsNoArguments(log: seq<Event>, t: Thread, k: Key)
    requires NoCalls(log, t)
    ensures Arguments(log, t, k) == []
  {
    if log != [] {
      NoCallsNoArguments(log[1..], t, k);
    }
  }

  lemma {:induction false} NoCallsCounted(log: seq<Event>, t: Thread)
    requires NoCalls(log, t)
    ensures CallsOf(log, t) == multiset{}
  {
    if log != [] {
      NoCallsCounted(log[1..], t);
    }
  }

  /** One call, and then none. */
  lemma OneCall(log: seq<Event>, t: Thread, k: Key, argument: nat, q: Key)
    requires log != [] && log[0] == Called(t, k, argument) && NoCalls(log[1..], t)
    ensures CallsOf(log, t) == multiset{k}
    ensures Arguments(log, t, q) == if q == k then [argument] else []
  {
    NoCallsNoArguments(log[1..], t, q);
    NoCallsCounted(log[1..], t);
  }

  ghost predicate AtMost(calls: multiset<Key>, n: nat)
  {
    forall k :: k in calls ==> calls[k] <= n
  }

  lemma OneMorePass(one: seq<Event>, two: seq<Event>, t: Thread, n: nat)
    requires AtMost(CallsOf(one, t), n) && AtMost(CallsOf(two, t), 1)
    ensures AtMost(CallsOf(one + two, t), if |CallsOf(two, t)| == 0 then n else n + 1)
  {
    CallsAppend(one, two, t);
  }

  /** In one pass: at most one call a key, and none yet for what is still to be visited. */
  ghost predicate Tally(calls: multiset<Key>, rest: seq<Assoc>)
  {
    && AtMost(calls, 1)
    && (forall a :: a in rest ==> a.key !in calls)
  }

  lemma TallyOne(calls: multiset<Key>, rest: seq<Assoc>, k: Key, rest': seq<Assoc>)
    requires Tally(calls, rest) && Thinned(rest, rest')
    requires (exists a :: a in rest && a.key == k) && forall a :: a in rest' ==> a.key != k
    ensures Tally(calls, rest') && Tally(calls + multiset{k}, rest')
  {
  }

  class Grid {
    var threads: set<Thread>
    var keys: set<Key>              // allocated
    var live: set<Key>              // not yet given to pthread_key_delete
    var tls: map<(Thread, Key), nat>  // values set; 0 is NULL
    ghost var assocs: set<Assoc>
    ghost var log: seq<Event>       // what has happened, for the statements only

    ghost predicate ThreadOk(t: Thread)
      reads this`assocs, t, assocs
    {
      && (forall i :: 0 <= i < |t.column| ==> t.column[i] in assocs && t.column[i].thread == t)
      && Column(t, t.column)
      && (t.nextAssoc != null ==> t.nextAssoc in t.column)
    }

    ghost predicate KeyOk(k: Key)
      reads this`assocs, k, assocs
    {
      && (forall i :: 0 <= i < |k.row| ==> k.row[i] in assocs && k.row[i].key == k)
      && Row(k, k.row)
    }

    /** The association `a` is in its thread's chain and in its key's chain. */
    ghost predicate AssocOk(a: Assoc)
      reads this`threads, this`keys, threads`column, keys`row
    {
      && a.thread in threads && a.key in keys && a.key.destructor
      && a in a.thread.column && a in a.key.row
    }

    ghost predicate Differ(a: Assoc, b: Assoc)
    {
      a.thread == b.thread && a.key == b.key ==> a == b
    }

    ghost predicate ThreadsOk()
      reads this`threads, this`assocs, threads, assocs
    {
      forall t {:trigger ThreadOk(t)} :: t in threads ==> ThreadOk(t)
    }

    ghost predicate KeysOk()
      reads this`keys, this`assocs, keys, assocs
    {
      forall k {:trigger KeyOk(k)} :: k in keys ==> KeyOk(k)
    }

    ghost predicate AssocsOk()
      reads this`threads, this`keys, this`assocs, threads`column, keys`row
    {
      forall a {:trigger AssocOk(a)} :: a in assocs ==> AssocOk(a)
    }

    /** At most one association for a thread and a key. */
    ghost predicate Unique()
      reads this`assocs
    {
      forall a, b {:trigger Differ(a, b)} :: a in assocs && b in assocs ==> Differ(a, b)
    }

    ghost predicate Shape()
      reads this`threads, this`keys, this`live, this`assocs, threads, keys, assocs
    {
      live <= keys && ThreadsOk() && KeysOk() && AssocsOk() && Unique()
    }

    constructor ()
      ensures Shape() && ValuesOk() && threads == {} && keys == {}
    {
      threads, keys, live, tls, assocs, log := {}, {}, {}, map[], {}, [];
    }

    /** A new thread has no associations and, for every key, the value NULL. */
    method ThreadStart() returns (t: Thread)
      requires Shape() && ValuesOk()
      modifies this`threads
      ensures Shape() && ValuesOk() && fresh(t) && threads == old(threads) + {t} && t.column == []
    {
      t := new Thread();
      threads := threads + {t};
      forall u | u in threads ensures ThreadOk(u) {
        assert u != t ==> old(ThreadOk(u));
      }
      forall a | a in assocs ensures AssocOk(a) {
        assert old(AssocOk(a));
      }
      forall u, q | u in threads && q in live && q.destructor && Value(u, q) != 0 ensures HasAssoc(u, q) {
        assert (t, q) !in tls;
        assert old(Value(u, q)) != 0;
      }
    }

    /**
     The two families of chains cross as drawn in implement.h: the chain of `t` and the
     chain of `k` meet in the same association, if any, and in one at most.
     */
    lemma ChainsCross(t: Thread, k: Key, a: Assoc, b: Assoc)
      requires Shape() && t in threads && k in keys
      ensures a in t.column && a.key == k <==> a in k.row && a.thread == t
      ensures a in t.column && b in t.column && a.key == b.key ==> a == b
      ensures a in k.row && b in k.row && a.thread == b.thread ==> a == b
    {
      assert ThreadOk(t) && KeyOk(k);
      assert a in assocs ==> AssocOk(a);
      assert a in assocs && b in assocs ==> Differ(a, b);
    }

    /** Back links agree, and nextAssoc stays in its own thread's chain. */
    lemma LinksAgree(t: Thread, a: Assoc)
      requires Shape() && t in threads && a in t.column
      ensures a.thread == t && a.key in keys && a.key.destructor
      ensures a.nextKey != null ==> a.nextKey.prevKey == a && a.nextKey.thread == t
      ensures a.prevKey != null ==> a.prevKey.nextKey == a && a.prevKey.thread == t
      ensures a.nextThread != null ==> a.nextThread.prevThread == a && a.nextThread.key == a.key
      ensures a.prevThread != null ==> a.prevThread.nextThread == a && a.prevThread.key == a.key
      ensures t.nextAssoc != null ==> t.nextAssoc.thread == t
    {
      assert ThreadOk(t) && AssocOk(a) && KeyOk(a.key);
      var i :| 0 <= i < |t.column| && t.column[i] == a;
      var j :| 0 <= j < |a.key.row| && a.key.row[j] == a;
    }

    // ---------- ptw32_tkAssocDestroy ----------

    method LeaveColumnAt(assoc: Assoc, ghost i: nat)
      requires Column(assoc.thread, assoc.thread.column)
      requires i < |assoc.thread.column| && assoc.thread.column[i] == assoc
      modifies assoc.thread, assoc.thread.column`nextKey, assoc.thread.column`prevKey
      ensures Column(assoc.thread, assoc.thread.column) && assoc.thread.column == Cut(old(assoc.thread.column), i)
      ensures assoc.thread.nextAssoc ==
        if old(assoc.thread.nextAssoc) == assoc then old(assoc.nextKey) else old(assoc.thread.nextAssoc)
    {
      var t := assoc.thread;
      UnlinkColumn(assoc, t.column, i);
      if t.nextAssoc == assoc {
        t.nextAssoc := assoc.nextKey;
      }
      t.column := Cut(t.column, i);
    }

    method LeaveColumn(assoc: Assoc)
      requires Column(assoc.thread, assoc.thread.column) && assoc in assoc.thread.column
      requires assoc.thread.nextAssoc != null ==> assoc.thread.nextAssoc in assoc.thread.column
      modifies assoc.thread, assoc.thread.column`nextKey, assoc.thread.column`prevKey
      ensures Column(assoc.thread, assoc.thread.column)
      ensures assoc.thread.column == Without(old(assoc.thread.column), assoc)
      ensures Rest(assoc.thread) == Without(old(Rest(assoc.thread)), assoc)
      ensures assoc.thread.nextAssoc != null ==> assoc.thread.nextAssoc in assoc.thread.column
    {
      ghost var xs := assoc.thread.column;
      ghost var i :| 0 <= i < |xs| && xs[i] == assoc;
      FromWithout(xs, i, assoc.thread.nextAssoc);
      WithoutMembers(xs, assoc);
      WithoutAt(xs, i);
      LeaveColumnAt(assoc, i);
    }

    method LeaveRowAt(assoc: Assoc, ghost j: nat)
      requires Row(assoc.key, assoc.key.row) && j < |assoc.key.row| && assoc.key.row[j] == assoc
      modifies assoc.key, assoc.key.row`nextThread, assoc.key.row`prevThread
      ensures Row(assoc.key, assoc.key.row) && assoc.key.row == Cut(old(assoc.key.row), j)
    {
      UnlinkRow(assoc, assoc.key.row, j);
      assoc.key.row := Cut(assoc.key.row, j);
    }

    method LeaveRow(assoc: Assoc)
      requires Row(assoc.key, assoc.key.row) && assoc in assoc.key.row
      modifies assoc.key, assoc.key.row`nextThread, assoc.key.row`prevThread
      ensures Row(assoc.key, assoc.key.row)
      ensures assoc.key.row == Without(old(assoc.key.row), assoc)
    {
      ghost var j :| 0 <= j < |assoc.key.row| && assoc.key.row[j] == assoc;
      WithoutAt(assoc.key.row, j);
      LeaveRowAt(assoc, j);
    }

    /** Takes `assoc` out of its two chains. */
    method Detach(assoc: Assoc)
      requires Column(assoc.thread, assoc.thread.column) && assoc in assoc.thread.column
      requires Row(assoc.key, assoc.key.row) && assoc in assoc.key.row
      requires assoc.thread.nextAssoc != null ==> assoc.thread.nextAssoc in assoc.thread.column
      modifies assoc.thread, assoc.thread.column`nextKey, assoc.thread.column`prevKey
      modifies assoc.key, assoc.key.row`nextThread, assoc.key.row`prevThread
      ensures Column(assoc.thread, assoc.thread.column) && Row(assoc.key, assoc.key.row)
      ensures assoc.thread.column == Without(old(assoc.thread.column), assoc)
      ensures assoc.key.row == Without(old(assoc.key.row), assoc)
      ensures Rest(assoc.thread) == Without(old(Rest(assoc.thread)), assoc)
      ensures assoc.thread.nextAssoc != null ==> assoc.thread.nextAssoc in assoc.thread.column
    {
      LeaveColumn(assoc);
      LeaveRow(assoc);
    }

    twostate lemma ThreadsStay(assoc: Assoc)
      requires assocs == old(assocs) - {assoc} && assoc.thread in threads && threads == old(threads)
      requires old(ThreadsOk())
      requires Column(assoc.thread, assoc.thread.column)
      requires assoc.thread.column == Without(old(assoc.thread.column), assoc)
      requires assoc.thread.nextAssoc != null ==> assoc.thread.nextAssoc in assoc.thread.column
      requires forall t :: t in threads && t != assoc.thread ==> unchanged(t)
      requires forall a :: a in old(assocs) && a.thread != assoc.thread ==>
        a.nextKey == old(a.nextKey) && a.prevKey == old(a.prevKey)
      ensures ThreadsOk()
    {
      assert old(ThreadOk(assoc.thread));
      WithoutMembers(old(assoc.thread.column), assoc);
      forall t | t in threads ensures ThreadOk(t) {
        assert old(ThreadOk(t));
        forall i | 0 <= i < |t.column| ensures t.column[i] in assocs && t.column[i].thread == t {
          assert t.column[i] in t.column && t.column[i] in old(t.column);
        }
      }
    }

    twostate lemma KeysStay(assoc: Assoc)
      requires assocs == old(assocs) - {assoc} && assoc.key in keys && keys == old(keys)
      requires old(KeysOk())
      requires Row(assoc.key, assoc.key.row)
      requires assoc.key.row == Without(old(assoc.key.row), assoc)
      requires forall k :: k in keys && k != assoc.key ==> unchanged(k)
      requires forall a :: a in old(assocs) && a.key != assoc.key ==>
        a.nextThread == old(a.nextThread) && a.prevThread == old(a.prevThread)
      ensures KeysOk()
    {
      assert old(KeyOk(assoc.key));
      WithoutMembers(old(assoc.key.row), assoc);
      forall k | k in keys ensures KeyOk(k) {
        assert old(KeyOk(k));
        forall i | 0 <= i < |k.row| ensures k.row[i] in assocs && k.row[i].key == k {
          assert k.row[i] in k.row && k.row[i] in old(k.row);
        }
      }
    }

    twostate lemma AssocsStay(assoc: Assoc)
      requires assocs == old(assocs) - {assoc} && keys == old(keys) && threads == old(threads)
      requires old(AssocsOk())
      requires old(Distinct(assoc.thread.column) && Distinct(assoc.key.row))
      requires assoc.thread.column == Without(old(assoc.thread.column), assoc)
      requires assoc.key.row == Without(old(assoc.key.row), assoc)
      requires forall t :: t in threads && t != assoc.thread ==> unchanged(t)
      requires forall k :: k in keys && k != assoc.key ==> unchanged(k)
      ensures AssocsOk()
    {
      WithoutMembers(old(assoc.thread.column), assoc);
      WithoutMembers(old(assoc.key.row), assoc);
      forall a | a in assocs ensures AssocOk(a) {
        assert old(AssocOk(a));
      }
    }

    method TkAssocDestroy(assoc: Assoc)
      requires Shape() && assoc in assocs
      modifies this`assocs, assoc.thread, assoc.key, assoc.thread.column, assoc.key.row
      ensures Shape() && assocs == old(assocs) - {assoc}
      ensures assoc.thread.column == Without(old(assoc.thread.column), assoc)
      ensures assoc.key.row == Without(old(assoc.key.row), assoc)
      ensures Rest(assoc.thread) == Without(old(Rest(assoc.thread)), assoc)
    {
      assert AssocOk(assoc) && ThreadOk(assoc.thread) && KeyOk(assoc.key);
      Detach(assoc);
      assert forall a :: a in assocs && a.thread != assoc.thread ==>
        a.nextKey == old(a.nextKey) && a.prevKey == old(a.prevKey);
      assert forall a :: a in assocs && a.key != assoc.key ==>
        a.nextThread == old(a.nextThread) && a.prevThread == old(a.prevThread);
      assocs := assocs - {assoc};
      ThreadsStay(assoc);
      KeysStay(assoc);
      AssocsStay(assoc);
    }

    // ---------- ptw32_tkAssocCreate ----------

    method JoinRow(assoc: Assoc)
      requires Row(assoc.key, assoc.key.row) && assoc !in assoc.key.row
      modifies assoc.key, assoc`nextThread, assoc`prevThread, assoc.key.row`prevThread
      ensures Row(assoc.key, assoc.key.row) && assoc.key.row == [assoc] + old(assoc.key.row)
    {
      LinkRow(assoc, assoc.key.row);
      assoc.key.row := [assoc] + assoc.key.row;
    }

    method JoinColumn(assoc: Assoc)
      requires Column(assoc.thread, assoc.thread.column) && assoc !in assoc.thread.column
      modifies assoc.thread`keys, assoc.thread`column, assoc`nextKey, assoc`prevKey, assoc.thread.column`prevKey
      ensures Column(assoc.thread, assoc.thread.column) && assoc.thread.column == [assoc] + old(assoc.thread.column)
    {
      LinkColumn(assoc, assoc.thread.column);
      assoc.thread.column := [assoc] + assoc.thread.column;
    }

    /** Links a new association into its two chains, in front. */
    method Attach(assoc: Assoc)
      requires Column(assoc.thread, assoc.thread.column) && assoc !in assoc.thread.column
      requires Row(assoc.key, assoc.key.row) && assoc !in assoc.key.row
      modifies assoc.key, assoc`nextThread, assoc`prevThread, assoc.key.row`prevThread
      modifies assoc.thread`keys, assoc.thread`column, assoc`nextKey, assoc`prevKey, assoc.thread.column`prevKey
      ensures Column(assoc.thread, assoc.thread.column) && Row(assoc.key, assoc.key.row)
      ensures assoc.thread.column == [assoc] + old(assoc.thread.column)
      ensures assoc.key.row == [assoc] + old(assoc.key.row)
    {
      JoinRow(assoc);
      JoinColumn(assoc);
    }

    twostate lemma ThreadsGain(assoc: Assoc)
      requires assocs == old(assocs) + {assoc} && assoc.thread in threads && threads == old(threads)
      requires old(ThreadsOk())
      requires Column(assoc.thread, assoc.thread.column)
      requires assoc.thread.column == [assoc] + old(assoc.thread.column) && unchanged(assoc.thread`nextAssoc)
      requires forall t :: t in threads && t != assoc.thread ==> unchanged(t)
      requires forall a :: a in old(assocs) && a.thread != assoc.thread ==>
        a.nextKey == old(a.nextKey) && a.prevKey == old(a.prevKey)
      ensures ThreadsOk()
    {
      forall t | t in threads ensures ThreadOk(t) {
        assert old(ThreadOk(t));
      }
    }

    twostate lemma KeysGain(assoc: Assoc)
      requires assocs == old(assocs) + {assoc} && assoc.key in keys && keys == old(keys)
      requires old(KeysOk())
      requires Row(assoc.key, assoc.key.row)
      requires assoc.key.row == [assoc] + old(assoc.key.row)
      requires forall k :: k in keys && k != assoc.key ==> unchanged(k)
      requires forall a :: a in old(assocs) && a.key != assoc.key ==>
        a.nextThread == old(a.nextThread) && a.prevThread == old(a.prevThread)
      ensures KeysOk()
    {
      forall k | k in keys ensures KeyOk(k) {
        assert old(KeyOk(k));
      }
    }

    twostate lemma AssocsGain(assoc: Assoc)
      requires assocs == old(assocs) + {assoc} && keys == old(keys) && threads == old(threads)
      requires old(AssocsOk()) && assoc.thread in threads && assoc.key in keys && assoc.key.destructor
      requires assoc.thread.column == [assoc] + old(assoc.thread.column)
      requires assoc.key.row == [assoc] + old(assoc.key.row)
      requires forall t :: t in threads && t != assoc.thread ==> unchanged(t)
      requires forall k :: k in keys && k != assoc.key ==> unchanged(k)
      ensures AssocsOk()
    {
      forall a | a in assocs ensures AssocOk(a) {
        assert a != assoc ==> old(AssocOk(a));
      }
    }

    twostate lemma UniqueGains(assoc: Assoc)
      requires assocs == old(assocs) + {assoc} && old(Unique())
      requires forall a :: a in old(assocs) && a.thread == assoc.thread ==> a.key != assoc.key
      ensures Unique()
    {
      forall a, b | a in assocs && b in assocs ensures Differ(a, b) {
        assert a != assoc && b != assoc ==> Differ(a, b);
      }
    }

    /** A new association enters the grid. */
    method Enter(assoc: Assoc)
      requires Shape() && assoc.thread in threads && assoc.key in keys && assoc.key.destructor && assoc !in assocs
      requires forall a :: a in assocs && a.thread == assoc.thread ==> a.key != assoc.key
      modifies this`assocs, assoc.key, assoc`nextThread, assoc`prevThread, assoc.key.row`prevThread
      modifies assoc.thread`keys, assoc.thread`column, assoc`nextKey, assoc`prevKey, assoc.thread.column`prevKey
      ensures Shape() && assocs == old(assocs) + {assoc}
      ensures assoc.thread.column == [assoc] + old(assoc.thread.column) && assoc.key.row == [assoc] + old(assoc.key.row)
    {
      assert ThreadOk(assoc.thread) && KeyOk(assoc.key);
      Attach(assoc);
      assert forall a :: a in assocs && a.thread != assoc.thread ==>
        a.nextKey == old(a.nextKey) && a.prevKey == old(a.prevKey);
      assert forall a :: a in assocs && a.key != assoc.key ==>
        a.nextThread == old(a.nextThread) && a.prevThread == old(a.prevThread);
      assocs := assocs + {assoc};
      ThreadsGain(assoc);
      KeysGain(assoc);
      AssocsGain(assoc);
      UniqueGains(assoc);
    }

    method TkAssocCreate(t: Thread, k: Key) returns (assoc: Assoc)
      requires Shape() && t in threads && k in keys && k.destructor
      requires forall a :: a in assocs && a.thread == t ==> a.key != k
      modifies this`assocs, t`keys, t`column, k, t.column`prevKey, k.row`prevThread
      ensures Shape() && fresh(assoc) && assocs == old(assocs) + {assoc}
      ensures assoc.thread == t && assoc.key == k
      ensures t.column == [assoc] + old(t.column) && k.row == [assoc] + old(k.row)
      ensures Rest(t) == old(Rest(t))
    {
      assoc := new Assoc(t, k);
      assert ThreadOk(t);
      Enter(assoc);
    }

    // ---------- values ----------

    function Value(t: Thread, k: Key): nat
      reads this`tls
    {
      if (t, k) in tls then tls[(t, k)] else 0
    }

    ghost predicate HasAssoc(t: Thread, k: Key)
      reads this`assocs
    {
      exists a :: a in assocs && a.thread == t && a.key == k
    }

    /** A value that a destructor must still see has an association that leads to it. */
    ghost predicate ValuesOk()
      reads this`threads, this`live, this`tls, this`assocs
    {
      forall t, k {:trigger Value(t, k)} ::
        t in threads && k in live && k.destructor && Value(t, k) != 0 ==> HasAssoc(t, k)
    }

    /** The locked part of pthread_setspecific (lines 113-161): an association, if one is needed and missing. */
    method Associate(t: Thread, k: Key, value: nat)
      requires Shape() && ValuesOk() && t in threads && k in live
      modifies this`assocs, t`keys, t`column, k, t.column`prevKey, k.row`prevThread
      ensures Shape() && ValuesOk()
      ensures k.destructor && value != 0 ==> HasAssoc(t, k)
      ensures Rest(t) == old(Rest(t)) && fresh(assocs - old(assocs))
      ensures if k.destructor && value != 0 && !old(HasAssoc(t, k))
        then |t.column| > 0 && |k.row| > 0 && t.column[0] == k.row[0] && assocs == old(assocs) + {t.column[0]}
          && t.column[1..] == old(t.column) && k.row[1..] == old(k.row)
        else assocs == old(assocs) && t.column == old(t.column) && k.row == old(k.row)
    {
      if k.destructor && value != 0 {
        var assoc := t.keys;
        ghost var i := 0;
        assert ThreadOk(t);
        while assoc != null && assoc.key != k
          invariant 0 <= i <= |t.column| && assoc == (if i < |t.column| then t.column[i] else null)
          invariant forall j :: 0 <= j < i ==> t.column[j].key != k
          decreases |t.column| - i
        {
          assoc := assoc.nextKey;
          i := i + 1;
        }
        if assoc == null {
          forall a | a in assocs && a.thread == t ensures a.key != k {
            assert AssocOk(a);
          }
          assoc := TkAssocCreate(t, k);
        }
        assert HasAssoc(t, k);
      }
      forall u, q | u in threads && q in live && q.destructor && Value(u, q) != 0 ensures HasAssoc(u, q) {
        assert old(Value(u, q)) != 0;
        assert old(HasAssoc(u, q));
      }
    }

    /** TlsSetValue (line 164), after the locks have been released. */
    method Store(t: Thread, k: Key, value: nat)
      requires ValuesOk() && (k in live && k.destructor && value != 0 ==> HasAssoc(t, k))
      modifies this`tls, this`log
      ensures ValuesOk() && tls == old(tls)[(t, k) := value] && log == old(log) + [Stored(t, k, value)]
    {
      tls := tls[(t, k) := value];
      log := log + [Stored(t, k, value)];
      forall u, q | u in threads && q in live && q.destructor && Value(u, q) != 0 ensures HasAssoc(u, q) {
        assert !(u == t && q == k) ==> old(Value(u, q)) != 0;
      }
    }

    /** pthread_setspecific for a live key, when nobody intervenes. */
    method SetSpecific(t: Thread, k: Key, value: nat)
      requires Shape() && ValuesOk() && t in threads && k in live
      modifies this`assocs, this`tls, this`log, t`keys, t`column, k, t.column`prevKey, k.row`prevThread
      ensures Shape() && ValuesOk() && tls == old(tls)[(t, k) := value] && log == old(log) + [Stored(t, k, value)]
      ensures Rest(t) == old(Rest(t)) && fresh(assocs - old(assocs))
      ensures if k.destructor && value != 0 && !old(HasAssoc(t, k))
        then |t.column| > 0 && |k.row| > 0 && t.column[0] == k.row[0] && assocs == old(assocs) + {t.column[0]}
          && t.column[1..] == old(t.column) && k.row[1..] == old(k.row)
        else assocs == old(assocs) && t.column == old(t.column) && k.row == old(k.row)
    {
      Associate(t, k, value);
      Store(t, k, value);
    }

    // ---------- pthread_key_delete ----------

    /** The storage of a key is released once its chain is empty (lines 115-126). */
    method FreeKey(k: Key)
      requires Shape() && ValuesOk() && k in keys && k !in live && k.row == []
      modifies this`keys
      ensures Shape() && ValuesOk() && keys == old(keys) - {k}
    {
      keys := keys - {k};
      forall q | q in keys ensures KeyOk(q) {
        assert old(KeyOk(q));
      }
      forall a | a in assocs ensures AssocOk(a) {
        assert old(AssocOk(a));
      }
      forall u, q | u in threads && q in live && q.destructor && Value(u, q) != 0 ensures HasAssoc(u, q) {
        assert old(Value(u, q)) != 0;
      }
    }

    /** Destroying an association that leads to no value: ptw32_tkAssocDestroy and what it means for every chain. */
    method Drop(assoc: Assoc)
      requires Shape() && ValuesOk() && assoc in assocs
      requires assoc.key in live ==> Value(assoc.thread, assoc.key) == 0
      modifies this`assocs, threads, assoc.key, assocs
      ensures Shape() && ValuesOk() && assocs == old(assocs) - {assoc}
      ensures assoc.key.row == Without(old(assoc.key.row), assoc)
      ensures forall t :: t in threads ==> t.column == Without(old(t.column), assoc)
      ensures forall t :: t in threads ==> Rest(t) == Without(old(Rest(t)), assoc)
      ensures forall t :: t in threads && t != assoc.thread ==> t.column == old(t.column)
    {
      assert AssocOk(assoc) && ThreadOk(assoc.thread) && KeyOk(assoc.key);
      forall t | t in threads && t != assoc.thread
        ensures Without(t.column, assoc) == t.column && Without(Rest(t), assoc) == Rest(t)
      {
        assert ThreadOk(t);
        WithoutMembers(t.column, assoc);
        FromMembers(t.column, t.nextAssoc);
        WithoutMembers(Rest(t), assoc);
      }
      TkAssocDestroy(assoc);
      forall u, q | u in threads && q in live && q.destructor && Value(u, q) != 0 ensures HasAssoc(u, q) {
        assert old(Value(u, q)) != 0;
        assert old(HasAssoc(u, q));
      }
    }

    /** When the chain of `k` is empty, no chain of a thread has an association of `k`. */
    lemma OnlyOthers(k: Key)
      requires Shape() && k in keys && k.row == []
      ensures forall a :: a in assocs ==> a.key != k
      ensures forall t :: t in threads ==> Others(t.column, k) == t.column && Others(Rest(t), k) == Rest(t)
    {
      forall a | a in assocs ensures a.key != k {
        assert AssocOk(a);
      }
      forall t | t in threads ensures Others(t.column, k) == t.column && Others(Rest(t), k) == Rest(t) {
        assert ThreadOk(t);
        OthersAll(t.column, k);
        FromMembers(t.column, t.nextAssoc);
        forall i | 0 <= i < |Rest(t)| ensures Rest(t)[i].key != k {
          assert Rest(t)[i] in Rest(t);
        }
        OthersAll(Rest(t), k);
      }
    }

    method KeyDelete(k: Key)
      requires Shape() && ValuesOk() && k in live
      modifies this`assocs, this`keys, this`live, threads, k, assocs
      ensures Shape() && ValuesOk() && live == old(live) - {k} && keys == old(keys) - {k}
      ensures assocs == set a | a in old(assocs) && a.key != k
      ensures forall t :: t in threads ==> t.column == Others(old(t.column), k) && Rest(t) == Others(old(Rest(t)), k)
    {
      live := live - {k};
      assert old(ValuesOk());
      assert KeyOk(k);
      while k.threads != null
        invariant Shape() && ValuesOk() && k in keys && live == old(live) - {k} && keys == old(keys)
        invariant assocs <= old(assocs) && forall a :: a in old(assocs) && a.key != k ==> a in assocs
        invariant forall t :: t in threads ==> Others(t.column, k) == Others(old(t.column), k)
        invariant forall t :: t in threads ==> Others(Rest(t), k) == Others(old(Rest(t)), k)
        decreases |k.row|
      {
        label before:
        assert KeyOk(k);
        var assoc := k.threads;
        assert assoc == k.row[0];
        Drop(assoc);
        forall t | t in threads
          ensures Others(t.column, k) == Others(old@before(t.column), k)
          ensures Others(Rest(t), k) == Others(old@before(Rest(t)), k)
        {
          OthersWithout(old@before(t.column), assoc);
          OthersWithout(old@before(Rest(t)), assoc);
        }
      }
      assert KeyOk(k);
      OnlyOthers(k);
      FreeKey(k);
    }

    // ---------- the steps of a traversal ----------

    /** Moves the cursor of `t`, under the lock of `t`. */
    method SetNextAssoc(t: Thread, a: Assoc?)
      requires Shape() && ValuesOk() && t in threads && (a != null ==> a in t.column)
      modifies t`nextAssoc
      ensures Shape() && ValuesOk() && t.nextAssoc == a
    {
      t.nextAssoc := a;
      forall u | u in threads ensures ThreadOk(u) {
        assert old(ThreadOk(u));
      }
    }

    /** Line 112: the next association to visit is the first. */
    method StartPass(t: Thread)
      requires Shape() && ValuesOk() && t in threads
      modifies t`nextAssoc
      ensures Shape() && ValuesOk() && Rest(t) == t.column
    {
      assert ThreadOk(t);
      SetNextAssoc(t, t.keys);
    }

    /** What follows the first member of the rest is the rest from its nextKey. */
    lemma RestAfter(t: Thread)
      requires ThreadOk(t) && t.nextAssoc != null
      ensures Rest(t) != [] && Rest(t)[0] == t.nextAssoc && Distinct(Rest(t))
      ensures From(t.column, t.nextAssoc.nextKey) == Rest(t)[1..]
      ensures t.nextAssoc.nextKey != null ==> t.nextAssoc.nextKey in t.column
      ensures forall a :: a in Rest(t) ==> a in t.column
    {
      var i :| 0 <= i < |t.column| && t.column[i] == t.nextAssoc;
      FromAt(t.column, i);
      FromMembers(t.column, t.nextAssoc);
      if i + 1 < |t.column| {
        FromAt(t.column, i + 1);
      }
    }

    /** An association differs from the others of its thread in its key. */
    lemma KeysDiffer(t: Thread, a: Assoc, b: Assoc)
      requires Unique() && ThreadOk(t) && a in t.column && b in t.column && a != b
      ensures a.key != b.key
    {
      assert Differ(a, b);
    }

    /** Takes the next association to visit (lines 128-161). */
    method Advance(t: Thread) returns (assoc: Assoc)
      requires Shape() && ValuesOk() && t in threads && t.nextAssoc != null
      modifies t`nextAssoc
      ensures Shape() && ValuesOk() && assoc == old(t.nextAssoc) && assoc in assocs && assoc.thread == t
      ensures old(Rest(t)) != [] && assoc == old(Rest(t))[0] && Rest(t) == old(Rest(t))[1..]
      ensures forall a :: a in Rest(t) ==> a.key != assoc.key
    {
      assert ThreadOk(t);
      assoc := t.nextAssoc;
      RestAfter(t);
      forall a | a in Rest(t)[1..] ensures a.key != assoc.key {
        KeysDiffer(t, a, assoc);
      }
      SetNextAssoc(t, assoc.nextKey);
    }

    /** TlsSetValue (k->key, NULL) */
    method SetNull(t: Thread, k: Key)
      requires ValuesOk()
      modifies this`tls
      ensures ValuesOk() && tls == old(tls)[(t, k) := 0]
    {
      tls := tls[(t, k) := 0];
      forall u, q | u in threads && q in live && q.destructor && Value(u, q) != 0 ensures HasAssoc(u, q) {
        assert old(Value(u, q)) != 0;
      }
    }

    /** Both locks are held: takes the next association and clears its value (lines 128-170). */
    method Clear(t: Thread) returns (assoc: Assoc, value: nat)
      requires Shape() && ValuesOk() && t in threads && t.nextAssoc != null
      modifies t`nextAssoc, this`tls
      ensures Shape() && ValuesOk()
      ensures assoc == old(t.nextAssoc) && assoc in assocs && assoc.thread == t && AssocOk(assoc)
      ensures old(Rest(t)) != [] && assoc == old(Rest(t))[0] && Rest(t) == old(Rest(t))[1..]
      ensures forall a :: a in Rest(t) ==> a.key != assoc.key
      ensures value == old(Value(t, assoc.key)) && tls == old(tls)[(t, assoc.key) := 0]
    {
      assoc := Advance(t);
      assert AssocOk(assoc);
      value := Value(t, assoc.key);
      SetNull(t, assoc.key);
    }

    /** Removes an association that has been taken off the rest. */
    method DropVisited(t: Thread, assoc: Assoc)
      requires Shape() && ValuesOk() && t in threads && assoc in assocs && assoc.thread == t
      requires assoc !in Rest(t) && Value(t, assoc.key) == 0
      modifies this`assocs, threads, assoc.key, assocs
      ensures Shape() && ValuesOk() && assocs == old(assocs) - {assoc}
      ensures assoc.key.row == Without(old(assoc.key.row), assoc)
      ensures t.column == Without(old(t.column), assoc)
      ensures forall u :: u in threads && u != t ==> u.column == old(u.column)
      ensures forall u :: u in threads ==> Rest(u) == old(Rest(u))
    {
      forall u | u in threads ensures Without(Rest(u), assoc) == Rest(u) {
        assert ThreadOk(u);
        RestWithout(u, assoc);
      }
      Drop(assoc);
    }

    /** What is not on the rest does not shorten it. */
    lemma RestWithout(t: Thread, assoc: Assoc)
      requires ThreadOk(t) && (assoc.thread == t ==> assoc !in Rest(t))
      ensures Without(Rest(t), assoc) == Rest(t)
    {
      FromMembers(t.column, t.nextAssoc);
      WithoutMembers(Rest(t), assoc);
    }

    // ---------- what else may happen ----------

    method KeyCreate(destructor: bool) returns (k: Key)
      requires Shape() && ValuesOk()
      modifies this`keys, this`live
      ensures Shape() && ValuesOk() && fresh(k) && k.destructor == destructor
      ensures keys == old(keys) + {k} && live == old(live) + {k}
    {
      k := new Key(destructor);
      keys, live := keys + {k}, live + {k};
      forall q | q in keys ensures KeyOk(q) {
        assert q != k ==> old(KeyOk(q));
      }
      forall a | a in assocs ensures AssocOk(a) {
        assert old(AssocOk(a));
      }
      forall u, q | u in threads && q in live && q.destructor && Value(u, q) != 0 ensures HasAssoc(u, q) {
        assert (u, k) !in tls;
        assert old(Value(u, q)) != 0;
      }
    }

    /** No thread is forgotten, what is known or live now and was not before is new, and the log goes on. */
    twostate predicate Grown()
      reads this
    {
      && old(threads) <= threads && fresh(threads - old(threads))
      && fresh(keys - old(keys)) && fresh(live - old(live)) && fresh(assocs - old(assocs))
      && old(log) <= log
    }

    /** What the log has gained. */
    twostate function News(): seq<Event>
      reads this
    {
      if old(|log|) <= |log| then log[old(|log|)..] else []
    }

    /**
     What others can have done while thread `t` was between two critical sections. They call
     no destructors for `t`. Its chain and the rest of it have lost members only of keys that
     are being deleted, and the rest has gained none. Its values are what they were, but for
     those that it has stored itself; `own` says that a destructor of `t` was running and may
     have done so.
     */
    twostate predicate Disturbed(t: Thread, own: bool)
      reads this, t
    {
      && Grown() && NoCalls(News(), t) && (!own ==> NoEvents(News(), t))
      && Thinned(old(Rest(t)), Rest(t))
      && (!own && old(t.column == Rest(t)) ==> t.column == Rest(t))
      && (forall a :: a in old(Rest(t)) && a.key in live ==> a in Rest(t))
      && (forall a :: a in old(t.column) && a.key in live ==> a in t.column)
      && (forall k {:trigger Value(t, k)} :: k in old(live) && k in live && !Stores(News(), t, k) ==>
            Value(t, k) == old(Value(t, k)))
    }

    /**
     One atomic step of somebody else while thread `t` is between two critical sections: a
     new key, a new thread, a pthread_setspecific or its locked part alone, the start of a
     pthread_key_delete or one turn of its loop, a step of another thread's own destructor
     traversal. When `own` is set a destructor of `t` is running and may set values and delete
     keys too. When `t` holds the lock of a key that it is deleting, nobody touches that
     key's chain.
     */
    method Interfere(t: Thread, own: bool, held: Key?)
      requires Shape() && ValuesOk() && t in threads
      requires held != null ==> held in keys && held !in live
      modifies this`assocs, this`keys, this`live, this`tls, this`threads, this`log, threads, keys, assocs
      ensures Shape() && ValuesOk() && Disturbed(t, own)
      ensures held != null ==> held in keys && held !in live && held.row == old(held.row)
    {
      var traversal: bool := *;
      if traversal {
        OtherTraversal(t, own, held);
      } else {
        OtherUse(t, own, held);
      }
    }

    method OtherUse(t: Thread, own: bool, held: Key?)
      requires Shape() && ValuesOk() && t in threads
      requires held != null ==> held in keys && held !in live
      modifies this`assocs, this`keys, this`live, this`tls, this`threads, this`log, threads, keys, assocs
      ensures Shape() && ValuesOk() && Disturbed(t, own)
      ensures held != null ==> held in keys && held !in live && held.row == old(held.row)
    {
      var createKey: bool, startThread: bool, destructor: bool, store: bool := *, *, *, *;
      var u: Thread?, k: Key?, value: nat := *, *, *;
      if createKey {
        var _ := KeyCreate(destructor);
      } else if startThread {
        var _ := ThreadStart();
      } else if k in live && u in threads && (own || u != t) {
        if store {
          OtherSet(t, u, k, value, own);
        } else {
          OtherAssociate(t, u, k, value, own);
        }
      } else if k in live {
        assert old(ValuesOk());
        live := live - {k};
      } else if k in keys && k != held {
        DeleteTurn(t, k);
      }
    }

    method OtherAssociate(t: Thread, u: Thread, k: Key, value: nat, own: bool)
      requires Shape() && ValuesOk() && t in threads && u in threads && k in live && (own || u != t)
      modifies this`assocs, threads, k, assocs
      ensures Shape() && ValuesOk() && Disturbed(t, own)
    {
      assert ThreadOk(u) && KeyOk(k);
      Associate(u, k, value);
    }

    method OtherSet(t: Thread, u: Thread, k: Key, value: nat, own: bool)
      requires Shape() && ValuesOk() && t in threads && u in threads && k in live && (own || u != t)
      modifies this`assocs, this`tls, this`log, threads, k, assocs
      ensures Shape() && ValuesOk() && Disturbed(t, own)
    {
      assert ThreadOk(u) && KeyOk(k);
      SetSpecific(u, k, value);
      assert News()[0] == Stored(u, k, value) && Stores(News(), u, k);
    }

    /** One turn of the loop of pthread_key_delete, or its end. */
    method DeleteTurn(t: Thread, k: Key)
      requires Shape() && ValuesOk() && t in threads && k in keys && k !in live
      modifies this`assocs, this`keys, threads, k, assocs
      ensures Shape() && ValuesOk() && Disturbed(t, false) && keys >= old(keys) - {k}
    {
      assert KeyOk(k);
      if k.threads != null {
        assert ThreadOk(t) && AssocOk(k.threads);
        WithoutThins(Rest(t), k.threads);
        FromMembers(t.column, t.nextAssoc);
        WithoutMembers(Rest(t), k.threads);
        WithoutMembers(t.column, k.threads);
        Drop(k.threads);
      } else {
        FreeKey(k);
      }
    }

    /** A step of the traversal of a thread other than `t`. */
    method OtherTraversal(t: Thread, own: bool, held: Key?)
      requires Shape() && ValuesOk() && t in threads
      modifies this`assocs, this`tls, this`log, threads, keys, assocs
      ensures Shape() && ValuesOk() && Disturbed(t, own)
      ensures held != null ==> held.row == old(held.row)
    {
      var u: Thread?, start: bool, remove: bool := *, *, *;
      if u in threads && u != t {
        if start {
          StartPass(u);
        } else if u.nextAssoc != null && u.nextAssoc.key != held {
          assert ThreadOk(u) && AssocOk(u.nextAssoc);
          if remove {
            OtherRemove(t, u, own);
          } else {
            OtherCall(t, u, own);
          }
        }
      }
    }

    /** A visit by another thread that calls the destructor if there is a value. */
    method OtherCall(t: Thread, u: Thread, own: bool)
      requires Shape() && ValuesOk() && t in threads && u in threads && u != t && u.nextAssoc != null
      modifies this`tls, this`log, u`nextAssoc
      ensures Shape() && ValuesOk() && Disturbed(t, own)
    {
      var assoc, value := Clear(u);
      log := log + (if value != 0 then [Called(u, assoc.key, value)] else []);
    }

    /** A visit by another thread that removes the association. */
    method OtherRemove(t: Thread, u: Thread, own: bool)
      requires Shape() && ValuesOk() && t in threads && u in threads && u != t && u.nextAssoc != null
      modifies this`assocs, this`tls, threads, u.nextAssoc.key, assocs
      ensures Shape() && ValuesOk() && Disturbed(t, own)
    {
      assert ThreadOk(u) && AssocOk(u.nextAssoc);
      var assoc, value := Clear(u);
      assert AssocOk(assoc);
      DropVisited(u, assoc);
    }

    lemma KeysAreKnown(t: Thread)
      requires Shape() && t in threads
      ensures forall a :: a in t.column ==> a.key in keys
      ensures forall a :: a in Rest(t) ==> a in t.column
    {
      assert ThreadOk(t);
      FromMembers(t.column, t.nextAssoc);
      forall a | a in t.column ensures a.key in keys {
        assert AssocOk(a);
      }
    }

    /** Any number of such steps. */
    method InterfereLong(t: Thread, own: bool, held: Key?)
      requires Shape() && ValuesOk() && t in threads
      requires held != null ==> held in keys && held !in live
      modifies this`assocs, this`keys, this`live, this`tls, this`threads, this`log, threads, keys, assocs
      ensures Shape() && ValuesOk() && Disturbed(t, own)
      ensures held != null ==> held in keys && held !in live && held.row == old(held.row)
    {
      var steps: nat := *;
      KeysAreKnown(t);
      while steps > 0
        invariant Shape() && ValuesOk() && Disturbed(t, own)
        invariant held != null ==> held in keys && held !in live && held.row == old(held.row)
      {
        ghost var before := News();
        label step:
        Interfere(t, own, held);
        assert News() == before + News@step();
        assert forall k :: k in old(keys) && k in live ==> k in old@step(live);
        forall k ensures Stores(News(), t, k) <==> Stores(before, t, k) || Stores(News@step(), t, k) {
          StoresAppend(before, News@step(), t, k);
        }
        steps := steps - 1;
      }
    }

    /**
     One turn of the loop of pthread_key_delete by thread `self`. Between reading the head of
     the key's chain and locking that association's thread, others do as they like.
     */
    method DestroyHead(self: Thread, k: Key)
      requires Shape() && ValuesOk() && self in threads && k in keys && k !in live && k.threads != null
      modifies this`assocs, this`keys, this`live, this`tls, this`threads, this`log, threads, keys, assocs
      ensures Shape() && ValuesOk() && Grown() && k in keys && k !in live
      ensures old(k.row) != [] && k.row == old(k.row)[1..]
    {
      var assoc := k.threads;
      assert KeyOk(k);
      assert assoc == k.row[0];
      InterfereLong(self, false, k);
      assert KeyOk(k);
      Drop(assoc);
    }

    /**
     pthread_key_delete by thread `self` among the steps of other threads. The loop still
     ends, and no association of the key is left in any chain when its storage is released.
     */
    method KeyDeleteInterleaved(self: Thread, k: Key)
      requires Shape() && ValuesOk() && self in threads && k in live
      modifies this`assocs, this`keys, this`live, this`tls, this`threads, this`log, threads, keys, assocs
      ensures Shape() && ValuesOk() && Grown()
      ensures k !in live && k !in keys
      ensures forall a :: a in assocs ==> a.key != k
    {
      live := live - {k};
      assert old(ValuesOk());
      while k.threads != null
        invariant Shape() && ValuesOk() && Grown() && k in keys && k !in live
        decreases |k.row|
      {
        DestroyHead(self, k);
      }
      assert KeyOk(k);
      OnlyOthers(k);
      FreeKey(k);
    }

    /** The association of a thread and a key is in the thread's chain, and the other way round. */
    lemma AssocInColumn(t: Thread, k: Key)
      requires Shape() && t in threads && HasAssoc(t, k)
      ensures exists a :: a in t.column && a.key == k
    {
      var a :| a in assocs && a.thread == t && a.key == k;
      assert AssocOk(a);
    }

    lemma ColumnHasAssoc(t: Thread, k: Key)
      requires Shape() && t in threads && exists a :: a in t.column && a.key == k
      ensures HasAssoc(t, k)
    {
      assert ThreadOk(t);
    }

    /** Others leave the association of `self` and a live key alone. */
    method Interleave(self: Thread, k: Key)
      requires Shape() && ValuesOk() && self in threads
      modifies this`assocs, this`keys, this`live, this`tls, this`threads, this`log, threads, keys, assocs
      ensures Shape() && ValuesOk() && Grown()
      ensures old(HasAssoc(self, k)) && k in live ==> HasAssoc(self, k)
    {
      if HasAssoc(self, k) {
        AssocInColumn(self, k);
      }
      InterfereLong(self, false, null);
      if old(HasAssoc(self, k)) && k in live {
        ColumnHasAssoc(self, k);
      }
    }

    /** pthread_setspecific by thread `self`, with whatever others do between its locked part and the store. */
    method SetSpecificInterleaved(self: Thread, k: Key, value: nat)
      requires Shape() && ValuesOk() && self in threads && k in live
      modifies this`assocs, this`keys, this`live, this`tls, this`threads, this`log, threads, keys, assocs
      ensures Shape() && ValuesOk() && Grown()
      ensures Value(self, k) == value
      ensures k in live && k.destructor && value != 0 ==> HasAssoc(self, k)
    {
      assert ThreadOk(self) && KeyOk(k);
      Associate(self, k, value);
      Interleave(self, k);
      Store(self, k, value);
    }

    // ---------- ptw32_callUserDestroyRoutines ----------

    /** Line 197 or 218: the destructor runs, and may do what a destructor may. */
    method Call(t: Thread, k: Key, argument: nat)
      requires Shape() && ValuesOk() && t in threads
      modifies this`assocs, this`keys, this`live, this`tls, this`threads, this`log, threads, keys, assocs
      ensures Shape() && ValuesOk() && Grown()
      ensures News() != [] && News()[0] == Called(t, k, argument) && NoCalls(News()[1..], t)
      ensures Thinned(old(Rest(t)), Rest(t))
      ensures forall a :: a in old(Rest(t)) && a.key in live ==> a in Rest(t)
      ensures forall q {:trigger Value(t, q)} :: q in old(live) && q in live && !Stores(News(), t, q) ==>
                Value(t, q) == old(Value(t, q))
    {
      log := log + [Called(t, k, argument)];
      label called:
      InterfereLong(t, true, null);
      assert News() == [Called(t, k, argument)] + News@called();
      forall q ensures Stores(News(), t, q) <==> Stores(News@called(), t, q) {
        StoresAppend([Called(t, k, argument)], News@called(), t, q);
      }
    }

    /**
     Both locks are held: clears the value, then calls the destructor once with what it was
     or, if it was NULL or after too many passes, removes the association.
     */
    method Visit(t: Thread, iterations: nat) returns (k: Key, argument: nat)
      requires Shape() && ValuesOk() && t in threads && t.nextAssoc != null
      modifies this`assocs, this`keys, this`live, this`tls, this`threads, this`log, threads, keys, assocs
      ensures Shape() && ValuesOk() && Grown()
      ensures k == old(t.nextAssoc.key) && old(t.nextAssoc in Rest(t)) && forall a :: a in Rest(t) ==> a.key != k
      ensures |Rest(t)| < |old(Rest(t))| && Thinned(old(Rest(t)), Rest(t))
      ensures argument == if iterations <= PTHREAD_DESTRUCTOR_ITERATIONS then old(Value(t, t.nextAssoc.key)) else 0
      ensures argument != 0 ==> News() != [] && News()[0] == Called(t, k, argument) && NoCalls(News()[1..], t)
      ensures argument == 0 ==> News() == [] && assocs == old(assocs) - {old(t.nextAssoc)}
                                && t.column == Without(old(t.column), old(t.nextAssoc))
                                && k.row == Without(old(t.nextAssoc.key.row), old(t.nextAssoc))
      ensures argument == 0 && old(t.column == Rest(t)) ==> t.column == Rest(t)
      ensures forall a :: a in old(Rest(t)) && a.key in live && a.key != k ==> a in Rest(t)
      ensures forall q {:trigger Value(t, q)} :: q in old(live) && q in live && !Stores(News(), t, q) ==>
                Value(t, q) == if q == k then 0 else old(Value(t, q))
    {
      var assoc, value := Clear(t);
      k := assoc.key;
      if value != 0 && iterations <= PTHREAD_DESTRUCTOR_ITERATIONS {
        argument := value;
        Call(t, k, value);
      } else {
        argument := 0;
        DropVisited(t, assoc);
      }
    }

    /** The value that a destructor call for `k` is due with, if any. */
    ghost function Owed(t: Thread, k: Key): seq<nat>
      reads this`tls
    {
      if Value(t, k) != 0 then [Value(t, k)] else []
    }

    /**
     How far the traversal has served key `k`, which had the value `due` when it began, if
     the thread has not stored for it since: the calls made and the one owed make one call
     with that value if there was one, and the association that will lead to the one owed is
     still to be visited.
     */
    ghost predicate Served(t: Thread, k: Key, due: nat, rest: seq<Assoc>, iterations: nat, news: seq<Event>)
      reads this`live, this`tls
    {
      k in live && k.destructor && !Stores(news, t, k) ==>
        && Arguments(news, t, k) + Owed(t, k) == (if due != 0 then [due] else [])
        && (Value(t, k) != 0 ==> iterations <= PTHREAD_DESTRUCTOR_ITERATIONS && exists a :: a in rest && a.key == k)
    }

    ghost predicate Serving(t: Thread, due: map<Key, nat>, rest: seq<Assoc>, iterations: nat, news: seq<Event>)
      reads this`live, this`tls
    {
      forall k {:trigger Served(t, k, due[k], rest, iterations, news)} :: k in due ==>
        Served(t, k, due[k], rest, iterations, news)
    }

    /** A pass begins with the whole chain to visit, where what is owed is found. */
    lemma ServingStarts(t: Thread, due: map<Key, nat>, iterations: nat, news: seq<Event>)
      requires Shape() && ValuesOk() && t in threads
      requires Begun(t, due, iterations, news)
      ensures Serving(t, due, t.column, iterations + 1, news)
    {
      forall k | k in due ensures Served(t, k, due[k], t.column, iterations + 1, news) {
        if iterations > 0 {
          assert Served(t, k, due[k], [], iterations, news);
        }
        if k in live && k.destructor && Value(t, k) != 0 {
          AssocInColumn(t, k);
        }
      }
    }

    /** Others may interfere: they make no calls for `t` and store nothing for it. */
    method Wait(t: Thread, ghost base: nat, ghost from: nat)
      requires Shape() && ValuesOk() && t in threads && base <= from <= |log|
      modifies this`assocs, this`keys, this`live, this`tls, this`threads, this`log, threads, keys, assocs
      ensures Shape() && ValuesOk() && Disturbed(t, false)
      ensures CallsOf(log[from..], t) == old(CallsOf(log[from..], t))
      ensures forall k :: k in old(keys) ==> Arguments(log[base..], t, k) == old(Arguments(log[base..], t, k))
      ensures forall k :: k in old(keys) ==> (Stores(log[base..], t, k) <==> old(Stores(log[base..], t, k)))
    {
      InterfereLong(t, false, null);
      assert log[from..] == old(log[from..]) + News() && log[base..] == old(log[base..]) + News();
      CallsAppend(old(log[from..]), News(), t);
      NoCallsCounted(News(), t);
      forall k | k in old(keys)
        ensures Arguments(log[base..], t, k) == old(Arguments(log[base..], t, k))
        ensures Stores(log[base..], t, k) <==> old(Stores(log[base..], t, k))
      {
        ArgumentsAppend(old(log[base..]), News(), t, k);
        StoresAppend(old(log[base..]), News(), t, k);
        NoCallsNoArguments(News(), t, k);
      }
    }

    /** What is owed stays owed. */
    method Await(t: Thread, iterations: nat, ghost due: map<Key, nat>, ghost base: nat, ghost from: nat)
      requires Shape() && ValuesOk() && t in threads && base <= from <= |log|
      requires Tally(CallsOf(log[from..], t), Rest(t))
      modifies this`assocs, this`keys, this`live, this`tls, this`threads, this`log, threads, keys, assocs
      ensures Shape() && ValuesOk() && Grown()
      ensures |Rest(t)| <= |old(Rest(t))| && (old(t.column == Rest(t)) ==> t.column == Rest(t))
      ensures CallsOf(log[from..], t) == old(CallsOf(log[from..], t)) && Tally(CallsOf(log[from..], t), Rest(t))
      ensures old(Serving(t, due, Rest(t), iterations, log[base..])) ==>
                Serving(t, due, Rest(t), iterations, log[base..])
    {
      Wait(t, base, from);
      if old(Serving(t, due, Rest(t), iterations, log[base..])) {
        forall k | k in due ensures Served(t, k, due[k], Rest(t), iterations, log[base..]) {
          assert old(Served(t, k, due[k], Rest(t), iterations, log[base..]));
          assert k in live ==> k in old(live);
        }
      }
    }

    /** The next visit, and what it adds to the log. */
    method VisitLogged(t: Thread, iterations: nat, ghost base: nat, ghost from: nat) returns (k: Key, argument: nat)
      requires Shape() && ValuesOk() && t in threads && t.nextAssoc != null && base <= from <= |log|
      modifies this`assocs, this`keys, this`live, this`tls, this`threads, this`log, threads, keys, assocs
      ensures Shape() && ValuesOk() && Grown()
      ensures old(t.nextAssoc in Rest(t)) && k == old(t.nextAssoc.key) && forall a :: a in Rest(t) ==> a.key != k
      ensures |Rest(t)| < |old(Rest(t))| && Thinned(old(Rest(t)), Rest(t))
      ensures argument == if iterations <= PTHREAD_DESTRUCTOR_ITERATIONS then old(Value(t, t.nextAssoc.key)) else 0
      ensures argument == 0 && old(t.column == Rest(t)) ==> t.column == Rest(t)
      ensures forall a :: a in old(Rest(t)) && a.key in live && a.key != k ==> a in Rest(t)
      ensures CallsOf(log[from..], t) ==
                old(CallsOf(log[from..], t)) + (if argument != 0 then multiset{k} else multiset{})
      ensures forall q :: q in old(live) && q in live ==> LoggedFor(t, k, argument, q, old(log[base..]), log[base..],
                old(Value(t, q)), Value(t, q))
    {
      k, argument := Visit(t, iterations);
      ghost var news := News();
      assert log[from..] == old(log[from..]) + news && log[base..] == old(log[base..]) + news;
      CallsAppend(old(log[from..]), news, t);
      if argument != 0 {
        OneCall(news, t, k, argument, k);
      }
      forall q | q in old(live) && q in live
        ensures LoggedFor(t, k, argument, q, old(log[base..]), log[base..], old(Value(t, q)), Value(t, q))
      {
        ArgumentsAppend(old(log[base..]), news, t, q);
        StoresAppend(old(log[base..]), news, t, q);
        if argument != 0 {
          OneCall(news, t, k, argument, q);
        }
      }
    }

    /** The part of a visit to key `k` that concerns key `q`: its calls and, unless stored since, its value. */
    ghost predicate LoggedFor(t: Thread, k: Key, argument: nat, q: Key, before: seq<Event>, after: seq<Event>,
                              was: nat, value: nat)
    {
      && Arguments(after, t, q) == Arguments(before, t, q) + (if argument != 0 && q == k then [argument] else [])
      && (Stores(before, t, q) ==> Stores(after, t, q))
      && (!Stores(after, t, q) ==> value == if q == k then 0 else was)
    }

    /** The next visit, counted. */
    method VisitNext(t: Thread, iterations: nat, ghost due: map<Key, nat>, ghost base: nat, ghost from: nat)
      returns (argument: nat)
      requires Shape() && ValuesOk() && t in threads && t.nextAssoc != null && base <= from <= |log|
      requires Tally(CallsOf(log[from..], t), Rest(t))
      modifies this`assocs, this`keys, this`live, this`tls, this`threads, this`log, threads, keys, assocs
      ensures Shape() && ValuesOk() && Grown()
      ensures |Rest(t)| < |old(Rest(t))| && (argument == 0 && old(t.column == Rest(t)) ==> t.column == Rest(t))
      ensures argument != 0 ==> iterations <= PTHREAD_DESTRUCTOR_ITERATIONS
      ensures |CallsOf(log[from..], t)| == old(|CallsOf(log[from..], t)|) + (if argument != 0 then 1 else 0)
      ensures Tally(CallsOf(log[from..], t), Rest(t))
      ensures old(Serving(t, due, Rest(t), iterations, log[base..])) ==>
                Serving(t, due, Rest(t), iterations, log[base..])
    {
      var k;
      k, argument := VisitLogged(t, iterations, base, from);
      TallyOne(old(CallsOf(log[from..], t)), old(Rest(t)), k, Rest(t));
      if old(Serving(t, due, Rest(t), iterations, log[base..])) {
        forall q | q in due ensures Served(t, q, due[q], Rest(t), iterations, log[base..]) {
          assert old(Served(t, q, due[q], Rest(t), iterations, log[base..]));
          assert q in live ==> q in old(live);
        }
      }
    }

    /**
     One turn of the inner loop. First others may interfere; then the key may turn out to be
     locked, which happens `failures` times at most; then the next association is visited.
     */
    method Turn(t: Thread, iterations: nat, failures: nat, ghost due: map<Key, nat>, ghost base: nat, ghost from: nat)
      returns (finished: bool, argument: nat, left: nat)
      requires Shape() && ValuesOk() && t in threads && base <= from <= |log|
      requires Tally(CallsOf(log[from..], t), Rest(t))
      modifies this`assocs, this`keys, this`live, this`tls, this`threads, this`log, threads, keys, assocs
      ensures Shape() && ValuesOk() && Grown()
      ensures if finished then t.nextAssoc == null
        else |Rest(t)| < |old(Rest(t))| || (|Rest(t)| <= |old(Rest(t))| && left < failures)
      ensures argument == 0 && old(t.column == Rest(t)) ==> t.column == Rest(t)
      ensures argument != 0 ==> iterations <= PTHREAD_DESTRUCTOR_ITERATIONS && !finished
      ensures |CallsOf(log[from..], t)| == old(|CallsOf(log[from..], t)|) + (if argument != 0 then 1 else 0)
      ensures Tally(CallsOf(log[from..], t), Rest(t))
      ensures old(Serving(t, due, Rest(t), iterations, log[base..])) ==>
                Serving(t, due, Rest(t), iterations, log[base..])
    {
      finished, argument, left := false, 0, failures;
      Await(t, iterations, due, base, from);
      var busy: bool := *;
      if t.nextAssoc == null {
        finished := true;
      } else if busy && left > 0 {
        left := left - 1;
      } else {
        argument := VisitNext(t, iterations, due, base, from);
      }
    }

    /** The inner loop of one pass, from the first association. */
    method Turns(t: Thread, iterations: nat, failures: nat, ghost due: map<Key, nat>, ghost base: nat)
      returns (assocsRemaining: nat, left: nat)
      requires Shape() && ValuesOk() && t in threads && t.column == Rest(t) && base <= |log|
      modifies this`assocs, this`keys, this`live, this`tls, this`threads, this`log, threads, keys, assocs
      ensures Shape() && ValuesOk() && Grown() && t.nextAssoc == null
      ensures assocsRemaining == 0 ==> t.column == []
      ensures assocsRemaining == |CallsOf(News(), t)| && Tally(CallsOf(News(), t), [])
      ensures iterations > PTHREAD_DESTRUCTOR_ITERATIONS ==> assocsRemaining == 0
      ensures old(Serving(t, due, Rest(t), iterations, log[base..])) ==> Serving(t, due, [], iterations, log[base..])
    {
      assocsRemaining, left := 0, failures;
      ghost var from := |log|;
      var finished := false;
      while !finished
        invariant Shape() && ValuesOk() && Grown()
        invariant finished ==> t.nextAssoc == null
        invariant assocsRemaining == 0 ==> t.column == Rest(t)
        invariant iterations > PTHREAD_DESTRUCTOR_ITERATIONS ==> assocsRemaining == 0
        invariant assocsRemaining == |CallsOf(log[from..], t)| && Tally(CallsOf(log[from..], t), Rest(t))
        invariant old(Serving(t, due, Rest(t), iterations, log[base..])) ==>
          Serving(t, due, Rest(t), iterations, log[base..])
        decreases !finished, |Rest(t)|, left
      {
        var argument;
        finished, argument, left := Turn(t, iterations, left, due, base, from);
        if argument != 0 {
          assocsRemaining := assocsRemaining + 1;
        }
      }
    }

    /** One pass over the chain: at most one call for each key; assocsRemaining counts the calls. */
    method Pass(t: Thread, iterations: nat, failures: nat, ghost due: map<Key, nat>, ghost base: nat)
      returns (assocsRemaining: nat, left: nat)
      requires Shape() && ValuesOk() && t in threads && base <= |log|
      modifies this`assocs, this`keys, this`live, this`tls, this`threads, this`log, threads, keys, assocs
      ensures Shape() && ValuesOk() && Grown()
      ensures assocsRemaining == 0 ==> t.column == []
      ensures assocsRemaining == |CallsOf(News(), t)| && AtMost(CallsOf(News(), t), 1)
      ensures iterations > PTHREAD_DESTRUCTOR_ITERATIONS ==> assocsRemaining == 0
      ensures old(Serving(t, due, t.column, iterations, log[base..])) ==> Serving(t, due, [], iterations, log[base..])
    {
      StartPass(t);
      assocsRemaining, left := Turns(t, iterations, failures, due, base);
    }

    /** Another pass, counted with those before it. */
    method NextPass(t: Thread, iterations: nat, failures: nat, ghost due: map<Key, nat>, ghost base: nat)
      returns (assocsRemaining: nat, left: nat)
      requires Shape() && ValuesOk() && t in threads && base <= |log| && iterations <= PTHREAD_DESTRUCTOR_ITERATIONS
      requires AtMost(CallsOf(log[base..], t), iterations) && Begun(t, due, iterations, log[base..])
      modifies this`assocs, this`keys, this`live, this`tls, this`threads, this`log, threads, keys, assocs
      ensures Shape() && ValuesOk() && Grown()
      ensures assocsRemaining == 0 ==> t.column == []
      ensures iterations == PTHREAD_DESTRUCTOR_ITERATIONS ==> assocsRemaining == 0
      ensures AtMost(CallsOf(log[base..], t), if assocsRemaining == 0 then iterations else iterations + 1)
      ensures Begun(t, due, iterations + 1, log[base..])
    {
      ServingStarts(t, due, iterations, log[base..]);
      assocsRemaining, left := Pass(t, iterations + 1, failures, due, base);
      assert log[base..] == old(log[base..]) + News();
      OneMorePass(old(log[base..]), News(), t, iterations);
    }

    /** Before the first pass, and after each. */
    ghost predicate Begun(t: Thread, due: map<Key, nat>, iterations: nat, news: seq<Event>)
      reads this`live, this`tls
    {
      if iterations == 0 then news == [] && forall k :: k in due ==> due[k] == Value(t, k)
      else Serving(t, due, [], iterations, news)
    }

    /** When the traversal has ended: every key has been served. */
    lemma ServingEnds(t: Thread, due: map<Key, nat>, iterations: nat, news: seq<Event>, k: Key)
      requires iterations > 0 && Begun(t, due, iterations, news)
      requires k in due && k in live && k.destructor && !Stores(news, t, k)
      ensures Arguments(news, t, k) == if due[k] != 0 then [due[k]] else []
    {
      assert Served(t, k, due[k], [], iterations, news);
    }

    /** An empty chain leads to no value. */
    lemma NothingLeft(t: Thread)
      requires Shape() && ValuesOk() && t in threads && t.column == []
      ensures t.keys == null && forall a :: a in assocs ==> a.thread != t
      ensures forall k :: k in live && k.destructor ==> Value(t, k) == 0
    {
      assert ThreadOk(t);
      forall a | a in assocs ensures a.thread != t {
        assert AssocOk(a);
      }
    }

    /** The outer loop. */
    method Passes(t: Thread, failures: nat, ghost due: map<Key, nat>, ghost base: nat) returns (iterations: nat)
      requires Shape() && ValuesOk() && t in threads && base <= |log|
      requires CallsOf(log[base..], t) == multiset{} && Begun(t, due, 0, log[base..])
      modifies this`assocs, this`keys, this`live, this`tls, this`threads, this`log, threads, keys, assocs
      ensures Shape() && ValuesOk() && Grown() && t.column == []
      ensures 0 < iterations <= PTHREAD_DESTRUCTOR_ITERATIONS + 1
      ensures AtMost(CallsOf(log[base..], t), PTHREAD_DESTRUCTOR_ITERATIONS) && Begun(t, due, iterations, log[base..])
    {
      iterations := 0;
      var left := failures;
      var again := true;
      while again
        invariant Shape() && ValuesOk() && Grown()
        invariant iterations <= PTHREAD_DESTRUCTOR_ITERATIONS + (if again then 0 else 1)
        invariant !again ==> iterations > 0 && t.column == []
        invariant AtMost(CallsOf(log[base..], t), if again then iterations else iterations - 1)
        invariant Begun(t, due, iterations, log[base..])
        decreases PTHREAD_DESTRUCTOR_ITERATIONS + 1 - iterations, again
      {
        var assocsRemaining;
        assocsRemaining, left := NextPass(t, iterations, left, due, base);
        iterations := iterations + 1;
        again := assocsRemaining != 0;
      }
    }

    /**
     The destructor traversal at the end of thread `t`, whatever the destructors do with values
     and keys and whatever other threads do meanwhile. It ends within
     PTHREAD_DESTRUCTOR_ITERATIONS + 1 passes, with an empty chain and without values for live
     keys that have a destructor. It calls the destructor of each key at most
     PTHREAD_DESTRUCTOR_ITERATIONS times. And of a key that is not deleted and for which no
     destructor has stored a value, it has called the destructor once, with the value that
     was there when it began, or never if there was none.
     */
    method CallUserDestroyRoutines(t: Thread, failures: nat) returns (iterations: nat)
      requires Shape() && ValuesOk() && t in threads
      modifies this`assocs, this`keys, this`live, this`tls, this`threads, this`log, threads, keys, assocs
      ensures Shape() && ValuesOk() && Grown()
      ensures iterations <= PTHREAD_DESTRUCTOR_ITERATIONS + 1
      ensures t.keys == null && forall a :: a in assocs ==> a.thread != t
      ensures forall k :: k in live && k.destructor ==> Value(t, k) == 0
      ensures AtMost(CallsOf(News(), t), PTHREAD_DESTRUCTOR_ITERATIONS)
      ensures forall k :: k in old(live) && k in live && k.destructor && !Stores(News(), t, k) ==>
                Arguments(News(), t, k) == if old(Value(t, k)) != 0 then [old(Value(t, k))] else []
    {
      ghost var due := map k | k in live :: Value(t, k);
      iterations := Passes(t, failures, due, |log|);
      NothingLeft(t);
      forall k | k in old(live) && k in live && k.destructor && !Stores(News(), t, k)
        ensures Arguments(News(), t, k) == if old(Value(t, k)) != 0 then [old(Value(t, k))] else []
      {
        ServingEnds(t, due, iterations, News(), k);
      }
    }
  }
}
