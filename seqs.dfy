/** Small collection helpers shared by the graph model.

    A JavaScript `Set` iterates in insertion order, and the layout code feeds one
    set into the next algorithm's queue, so an ordered set is modelled as a
    duplicate-free sequence. */
module Seqs {

  datatype Option<+T> = None | Some(value: T)

  predicate NoDup<T(==)>(s: seq<T>) {
    forall i, j :: 0 <= i < j < |s| ==> s[i] != s[j]
  }

  /** `set.add(x)`: appends x unless it is already present. */
  function Insert<T(==,!new)>(s: seq<T>, x: T): (r: seq<T>)
    ensures NoDup(s) ==> NoDup(r)
    ensures x in r && (forall y :: y in r <==> y in s || y == x)
    ensures x in s ==> r == s
    ensures x !in s ==> r == s + [x]
  {
    if x in s then s else s + [x]
  }

  /** The elements of a sequence as a set. */
  function Elems<T(==,!new)>(s: seq<T>): (r: set<T>)
    ensures forall x :: x in r <==> x in s
  {
    set x | x in s
  }

  /** A duplicate-free sequence has as many elements as its set. */
  lemma {:induction false} NoDupCard<T(!new)>(s: seq<T>)
    requires NoDup(s)
    ensures |Elems(s)| == |s|
  {
    if s != [] {
      var t := s[..|s| - 1];
      var x := s[|s| - 1];
      assert s == t + [x];
      assert NoDup(t);
      NoDupCard(t);
      assert x !in t;
      assert Elems(s) == Elems(t) + {x};
    }
  }

  /** A duplicate-free sequence drawn from a finite set is no longer than the set. */
  lemma NoDupBound<T(!new)>(s: seq<T>, u: set<T>)
    requires NoDup(s) && Elems(s) <= u
    ensures |s| <= |u|
  {
    NoDupCard(s);
    SubsetCard(Elems(s), u);
  }

  lemma {:induction false} SubsetCard<T>(a: set<T>, b: set<T>)
    requires a <= b
    ensures |a| <= |b|
    decreases |a|
  {
    if a != {} {
      var x :| x in a;
      SubsetCard(a - {x}, b - {x});
    }
  }

  /** A union has at most as many elements as its two parts together. */
  lemma UnionCard<T>(a: set<T>, b: set<T>)
    ensures |a + b| <= |a| + |b|
  {
    assert |a + b| + |a * b| == |a| + |b|;
  }

  /** Adding one element grows a set by at most one. */
  lemma CardAddOne<T>(s: set<T>, x: T)
    ensures |s + {x}| <= |s| + 1
  {
    if x in s {
      assert s + {x} == s;
    }
  }

  lemma NoDupAppend<T>(a: seq<T>, b: seq<T>)
    requires NoDup(a) && NoDup(b) && forall x :: x in b ==> x !in a
    ensures NoDup(a + b)
  {
    forall i, j | 0 <= i < j < |a + b| ensures (a + b)[i] != (a + b)[j] {
      if j < |a| {
        assert (a + b)[i] == a[i] && (a + b)[j] == a[j];
      } else if i < |a| {
        assert (a + b)[j] == b[j - |a|] && (a + b)[i] == a[i];
        assert b[j - |a|] in b;
      } else {
        assert (a + b)[j] == b[j - |a|] && (a + b)[i] == b[i - |a|];
      }
    }
  }

  /** A breadth-first worklist: the ids already taken off the queue followed by the queue
      hold every seen id exactly once. */
  predicate Worklist<T(==,!new)>(done: seq<T>, q: seq<T>, seen: set<T>) {
    NoDup(done + q) && Elems(done + q) == seen
  }

  /** `if (!seen.has(x)) { queue.push(x); seen.add(x); }` */
  function Enqueue<T(==,!new)>(q: seq<T>, seen: set<T>, x: T): (seq<T>, set<T>) {
    if x in seen then (q, seen) else (q + [x], seen + {x})
  }

  lemma WorklistEnqueue<T(!new)>(done: seq<T>, q: seq<T>, seen: set<T>, x: T)
    requires Worklist(done, q, seen)
    ensures Worklist(done, Enqueue(q, seen, x).0, Enqueue(q, seen, x).1)
    ensures Enqueue(q, seen, x).1 == seen + {x}
  {
    if x !in seen {
      assert done + (q + [x]) == (done + q) + [x];
      NoDupAppend(done + q, [x]);
    }
  }

  /** Enqueuing an element of u keeps the seen-set within base + u. */
  lemma EnqueueWithin<T(!new)>(q: seq<T>, seen: set<T>, x: T, base: set<T>, u: set<T>)
    requires seen <= base + u && x in u
    ensures Enqueue(q, seen, x).1 <= base + u
  {
  }

  /** `queue.shift()` moves the head over to the dequeued ids. */
  lemma WorklistDequeue<T(!new)>(done: seq<T>, q: seq<T>, seen: set<T>)
    requires Worklist(done, q, seen) && q != []
    ensures Worklist(done + [q[0]], q[1..], seen)
  {
    assert (done + [q[0]]) + q[1..] == done + q;
  }

  /** The head of the queue has not been dequeued before. */
  lemma WorklistHeadFresh<T(!new)>(done: seq<T>, q: seq<T>, seen: set<T>)
    requires Worklist(done, q, seen) && q != []
    ensures q[0] !in done
  {
    assert (done + q)[|done|] == q[0];
    forall i | 0 <= i < |done| ensures done[i] != q[0] {
      assert (done + q)[i] == done[i];
    }
  }

  /** A worklist drawn from a finite universe is no longer than the universe. */
  lemma WorklistBound<T(!new)>(done: seq<T>, q: seq<T>, seen: set<T>, u: set<T>)
    requires Worklist(done, q, seen) && seen <= u
    ensures |done| + |q| <= |u|
  {
    NoDupBound(done + q, u);
  }

  /** a is obtained from b by deleting elements, keeping the order of the rest. */
  predicate IsSubseq<T(==)>(a: seq<T>, b: seq<T>)
    decreases |b|
  {
    if a == [] then true
    else if b == [] then false
    else if a[0] == b[0] then IsSubseq(a[1..], b[1..])
    else IsSubseq(a, b[1..])
  }

  /** How many times x occurs in s. */
  function Count<T(==)>(s: seq<T>, x: T): nat {
    if s == [] then 0 else Count(s[..|s| - 1], x) + (if s[|s| - 1] == x then 1 else 0)
  }

  lemma {:induction false} CountAppend<T>(a: seq<T>, b: seq<T>, x: T)
    ensures Count(a + b, x) == Count(a, x) + Count(b, x)
  {
    if b != [] {
      var init := b[..|b| - 1];
      assert (a + b)[..|a + b| - 1] == a + init;
      CountAppend(a, init, x);
    } else {
      assert a + b == a;
    }
  }
}
