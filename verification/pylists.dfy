/**
 Python list behaviour the game relies on.

 The game's passes all use the shape `for x in xs: ... xs.remove(x)`: the loop
 walks an index over a list that its own body shrinks. Python's list iterator
 keeps a position; after `remove` of the current element every later element
 moves one place to the front, so the next fetch skips one of them. `ForEach`
 is that index walk, `Scan` describes the same loop in terms of the ORIGINAL
 list (an explicit "skip the next element" flag), and `ForEachIsScan` proves
 the two agree. The generic lemmas about `Scan` are then used by every pass.
 */
module PyLists {

  datatype Option<T> = None | Some(value: T)

  /** What one loop iteration does with the current element: keep it
      (possibly updated in place) or remove it, plus the new loop state. */
  datatype Visit<T, S> = Visit(keep: Option<T>, acc: S)

  /** The list after the loop, and the loop state. */
  datatype Outcome<T, S> = Outcome(items: seq<T>, acc: S)

  /** The reference scan's result: also the original elements the loop removed. */
  datatype Scanned<T, S> = Scanned(items: seq<T>, acc: S, dropped: seq<T>)

  /** `xs.remove(xs[i])` for objects compared by identity: drops position `i`. */
  function RemoveAt<T>(s: seq<T>, i: nat): (r: seq<T>)
    requires i < |s|
    ensures |r| == |s| - 1
    ensures forall k :: 0 <= k < i ==> r[k] == s[k]
    ensures forall k :: i <= k < |r| ==> r[k] == s[k + 1]
    ensures multiset(r) + multiset{s[i]} == multiset(s)
  {
    assert s == s[..i] + [s[i]] + s[i + 1..];
    s[..i] + s[i + 1..]
  }

  /** `for x in s: body` from position `i`, where the body may remove `x`.
      The iterator's position advances by one after every element, whether
      or not the element was removed. */
  function ForEach<T, S>(s: seq<T>, i: nat, acc: S, body: (T, S) -> Visit<T, S>): Outcome<T, S>
    decreases |s| - i
  {
    if i >= |s| then Outcome(s, acc)
    else
      var v := body(s[i], acc);
      match v.keep
      case None => ForEach(RemoveAt(s, i), i + 1, v.acc, body)
      case Some(t) => ForEach(s[i := t], i + 1, v.acc, body)
  }

  /** The same loop described over the original list: when `skip` holds the
      head is passed over unvisited (it slid into the slot just visited). */
  function Scan<T, S>(s: seq<T>, skip: bool, acc: S, body: (T, S) -> Visit<T, S>): (r: Scanned<T, S>)
    ensures |r.items| + |r.dropped| == |s|
    decreases |s|
  {
    if |s| == 0 then Scanned([], acc, [])
    else if skip then
      var rest := Scan(s[1..], false, acc, body);
      assert s == [s[0]] + s[1..];
      rest.(items := [s[0]] + rest.items)
    else
      var v := body(s[0], acc);
      match v.keep
      case None =>
        var rest := Scan(s[1..], true, v.acc, body);
        assert s == [s[0]] + s[1..];
        rest.(dropped := [s[0]] + rest.dropped)
      case Some(t) =>
        var rest := Scan(s[1..], false, v.acc, body);
        assert s == [s[0]] + s[1..];
        rest.(items := [t] + rest.items)
  }

  /** The index walk over the shrinking list is the skip-after-removal scan of
      the original list (with the already visited prefix `p` left in front). */
  lemma {:induction false} ForEachIsScan<T, S>(p: seq<T>, s: seq<T>, skip: bool, acc: S, body: (T, S) -> Visit<T, S>)
    ensures ForEach(p + s, |p| + (if skip then 1 else 0), acc, body)
         == Outcome(p + Scan(s, skip, acc, body).items, Scan(s, skip, acc, body).acc)
    decreases |s|, 1
  {
    if |s| == 0 {
      assert p + s == p;
    } else if skip {
      SkippedHead(p, s, acc, body);
    } else {
      VisitedHead(p, s, acc, body);
    }
  }

  /** The element that slid into the slot just visited is passed over. */
  lemma {:induction false} SkippedHead<T, S>(p: seq<T>, s: seq<T>, acc: S, body: (T, S) -> Visit<T, S>)
    requires |s| > 0
    ensures ForEach(p + s, |p| + 1, acc, body)
         == Outcome(p + Scan(s, true, acc, body).items, Scan(s, true, acc, body).acc)
    decreases |s|, 0
  {
    var p' := p + [s[0]];
    var rest := Scan(s[1..], false, acc, body);
    assert Scan(s, true, acc, body) == rest.(items := [s[0]] + rest.items);
    assert p + s == p' + s[1..];
    ForEachIsScan(p', s[1..], false, acc, body);
    assert p' + rest.items == p + ([s[0]] + rest.items);
  }

  /** The head is visited, then kept or removed. */
  lemma {:induction false} VisitedHead<T, S>(p: seq<T>, s: seq<T>, acc: S, body: (T, S) -> Visit<T, S>)
    requires |s| > 0
    ensures ForEach(p + s, |p|, acc, body)
         == Outcome(p + Scan(s, false, acc, body).items, Scan(s, false, acc, body).acc)
    decreases |s|, 0
  {
    var v := body(s[0], acc);
    ForEachStep(p, s, acc, body);
    match v.keep
    case None =>
      var rest := Scan(s[1..], true, v.acc, body);
      assert Scan(s, false, acc, body) == rest.(dropped := [s[0]] + rest.dropped);
      ForEachIsScan(p, s[1..], true, v.acc, body);
    case Some(t) =>
      var p' := p + [t];
      var rest := Scan(s[1..], false, v.acc, body);
      assert Scan(s, false, acc, body) == rest.(items := [t] + rest.items);
      ForEachIsScan(p', s[1..], false, v.acc, body);
      assert p' + rest.items == p + ([t] + rest.items);
  }

  /** One visit of the loop at the end of the prefix `p`, in terms of `s`. */
  lemma ForEachStep<T, S>(p: seq<T>, s: seq<T>, acc: S, body: (T, S) -> Visit<T, S>)
    requires |s| > 0
    ensures body(s[0], acc).keep.None? ==>
      ForEach(p + s, |p|, acc, body) == ForEach(p + s[1..], |p| + 1, body(s[0], acc).acc, body)
    ensures body(s[0], acc).keep.Some? ==>
      ForEach(p + s, |p|, acc, body)
        == ForEach((p + [body(s[0], acc).keep.value]) + s[1..], |p| + 1, body(s[0], acc).acc, body)
  {
    assert (p + s)[|p|] == s[0];
    var v := body(s[0], acc);
    match v.keep
    case None =>
      assert RemoveAt(p + s, |p|) == p + s[1..];
    case Some(t) =>
      assert (p + s)[|p| := t] == (p + [t]) + s[1..];
  }

  /** A whole loop, started at the front of the list, is the reference scan. */
  lemma LoopIsScan<T, S>(s: seq<T>, acc: S, body: (T, S) -> Visit<T, S>)
    ensures ForEach(s, 0, acc, body).items == Scan(s, false, acc, body).items
    ensures ForEach(s, 0, acc, body).acc == Scan(s, false, acc, body).acc
  {
    ForEachIsScan([], s, false, acc, body);
    assert [] + s == s;
  }

  /** `f` applied `n` times. */
  function Iterate<S>(f: S -> S, a: S, n: nat): S
    decreases n
  {
    if n == 0 then a else Iterate(f, f(a), n - 1)
  }

  /** `f` applied to every element, in order. */
  function MapAll<T>(f: T -> T, s: seq<T>): seq<T>
  {
    seq(|s|, i requires 0 <= i < |s| => f(s[i]))
  }

  /** `a` is `b` with some elements left out, order kept. */
  predicate Subseq<T(==)>(a: seq<T>, b: seq<T>)
    decreases |b|
  {
    if |a| == 0 then true
    else if |b| == 0 then false
    else (a[0] == b[0] && Subseq(a[1..], b[1..])) || Subseq(a, b[1..])
  }

  lemma {:induction false} SubseqRefl<T>(a: seq<T>)
    ensures Subseq(a, a)
    decreases |a|
  {
    if |a| > 0 {
      SubseqRefl(a[1..]);
    }
  }

  lemma {:induction false} SubseqTrans<T>(a: seq<T>, b: seq<T>, c: seq<T>)
    requires Subseq(a, b) && Subseq(b, c)
    ensures Subseq(a, c)
    decreases |c|
  {
    if |a| == 0 {
    } else if a[0] == b[0] && Subseq(a[1..], b[1..]) {
      if b[0] == c[0] && Subseq(b[1..], c[1..]) {
        SubseqTrans(a[1..], b[1..], c[1..]);
      } else {
        SubseqTrans(a, b, c[1..]);
      }
    } else {
      if b[0] == c[0] && Subseq(b[1..], c[1..]) {
        SubseqTrans(a, b[1..], c[1..]);
      } else {
        SubseqTrans(a, b, c[1..]);
      }
    }
  }

  /** Every element of a subsequence is an element of the whole. */
  lemma {:induction false} SubseqMembers<T>(a: seq<T>, b: seq<T>)
    requires Subseq(a, b)
    ensures forall x :: x in a ==> x in b
    decreases |b|
  {
    if |a| > 0 {
      if a[0] == b[0] && Subseq(a[1..], b[1..]) {
        SubseqMembers(a[1..], b[1..]);
        assert forall x :: x in a ==> x == a[0] || x in a[1..];
      } else {
        SubseqMembers(a, b[1..]);
      }
    }
  }

  lemma {:induction false} SubseqRemoveAt<T>(s: seq<T>, i: nat)
    requires i < |s|
    ensures Subseq(RemoveAt(s, i), s)
    decreases i
  {
    if i == 0 {
      assert RemoveAt(s, 0) == s[1..];
      SubseqRefl(s[1..]);
    } else {
      assert RemoveAt(s, i)[1..] == RemoveAt(s[1..], i - 1);
      SubseqRemoveAt(s[1..], i - 1);
    }
  }

  /** A property of the loop state that every iteration keeps holds at the end. */
  lemma {:induction false} ScanKeepsState<T, S>(s: seq<T>, skip: bool, acc: S, body: (T, S) -> Visit<T, S>, P: S -> bool)
    requires P(acc)
    requires forall t, a :: P(a) ==> P(body(t, a).acc)
    ensures P(Scan(s, skip, acc, body).acc)
    decreases |s|
  {
    if |s| > 0 {
      if skip {
        ScanKeepsState(s[1..], false, acc, body, P);
      } else {
        var v := body(s[0], acc);
        ScanKeepsState(s[1..], v.keep.None?, v.acc, body, P);
      }
    }
  }

  /** A state property kept by every visit of an element with `Q`, when
      every element of the list has `Q`, holds at the end. */
  lemma {:induction false} ScanKeepsStateIn<T, S>(s: seq<T>, skip: bool, acc: S, body: (T, S) -> Visit<T, S>,
                                                   Q: T -> bool, P: S -> bool)
    requires forall x :: x in s ==> Q(x)
    requires P(acc)
    requires forall t, a :: Q(t) && P(a) ==> P(body(t, a).acc)
    ensures P(Scan(s, skip, acc, body).acc)
    decreases |s|
  {
    if |s| > 0 {
      assert s[0] in s;
      assert forall x :: x in s[1..] ==> x in s;
      if skip {
        ScanKeepsStateIn(s[1..], false, acc, body, Q, P);
      } else {
        var v := body(s[0], acc);
        ScanKeepsStateIn(s[1..], v.keep.None?, v.acc, body, Q, P);
      }
    }
  }

  /** A measure of the state that a kept element leaves alone and a removal
      moves by `c` ends up moved by `c` per removed element. */
  lemma {:induction false} ScanCounts<T, S>(s: seq<T>, skip: bool, acc: S, body: (T, S) -> Visit<T, S>, F: S -> int, c: int)
    requires forall t, a :: body(t, a).keep.Some? ==> F(body(t, a).acc) == F(a)
    requires forall t, a :: body(t, a).keep.None? ==> F(body(t, a).acc) == F(a) + c
    ensures F(Scan(s, skip, acc, body).acc) == F(acc) + c * |Scan(s, skip, acc, body).dropped|
    decreases |s|
  {
    if |s| > 0 {
      if skip {
        ScanCounts(s[1..], false, acc, body, F, c);
      } else {
        var v := body(s[0], acc);
        var rest := Scan(s[1..], v.keep.None?, v.acc, body);
        ScanCounts(s[1..], v.keep.None?, v.acc, body, F, c);
        if v.keep.None? {
          assert |Scan(s, skip, acc, body).dropped| == |rest.dropped| + 1;
          assert c * (|rest.dropped| + 1) == c * |rest.dropped| + c;
        }
      }
    }
  }

  /** When only removals touch the state, each through `f`, the final state
      is `f` applied once per removed element. */
  lemma {:induction false} ScanIterates<T, S>(s: seq<T>, skip: bool, acc: S, body: (T, S) -> Visit<T, S>, f: S -> S)
    requires forall t, a :: body(t, a).keep.Some? ==> body(t, a).acc == a
    requires forall t, a :: body(t, a).keep.None? ==> body(t, a).acc == f(a)
    ensures Scan(s, skip, acc, body).acc == Iterate(f, acc, |Scan(s, skip, acc, body).dropped|)
    decreases |s|
  {
    if |s| > 0 {
      if skip {
        ScanIterates(s[1..], false, acc, body, f);
      } else {
        var v := body(s[0], acc);
        ScanIterates(s[1..], v.keep.None?, v.acc, body, f);
      }
    }
  }

  /** An element property that every visit keeps holds of every survivor. */
  lemma {:induction false} ScanKeepsItems<T, S>(s: seq<T>, skip: bool, acc: S, body: (T, S) -> Visit<T, S>, Q: T -> bool)
    requires forall x :: x in s ==> Q(x)
    requires forall t, a :: Q(t) && body(t, a).keep.Some? ==> Q(body(t, a).keep.value)
    ensures forall x :: x in Scan(s, skip, acc, body).items ==> Q(x)
    decreases |s|
  {
    if |s| > 0 {
      assert s[0] in s;
      assert forall x :: x in s[1..] ==> x in s;
      if skip {
        ScanKeepsItems(s[1..], false, acc, body, Q);
      } else {
        var v := body(s[0], acc);
        ScanKeepsItems(s[1..], v.keep.None?, v.acc, body, Q);
      }
    }
  }

  /** Only elements whose visit decides to remove them are removed: when a
      state property `P` is kept by every visit, and a visit from a state
      with `P` removes only elements with `D`, every removed element has `D`. */
  lemma {:induction false} ScanDropsOnly<T, S>(s: seq<T>, skip: bool, acc: S, body: (T, S) -> Visit<T, S>,
                                               P: S -> bool, D: T -> bool)
    requires P(acc)
    requires forall t, a :: P(a) ==> P(body(t, a).acc)
    requires forall t, a :: P(a) && body(t, a).keep.None? ==> D(t)
    ensures forall x :: x in Scan(s, skip, acc, body).dropped ==> D(x)
    decreases |s|
  {
    if |s| > 0 {
      if skip {
        ScanDropsOnly(s[1..], false, acc, body, P, D);
      } else {
        var v := body(s[0], acc);
        ScanDropsOnly(s[1..], v.keep.None?, v.acc, body, P, D);
      }
    }
  }

  /** When visits never change an element, the survivors are the original
      list with the removed elements taken out, order kept. */
  lemma ScanInPlace<T, S>(s: seq<T>, skip: bool, acc: S, body: (T, S) -> Visit<T, S>)
    requires forall t, a :: body(t, a).keep.Some? ==> body(t, a).keep.value == t
    ensures Subseq(Scan(s, skip, acc, body).items, s)
    ensures multiset(Scan(s, skip, acc, body).items) + multiset(Scan(s, skip, acc, body).dropped) == multiset(s)
  {
    ScanKeepsOrder(s, skip, acc, body);
    ScanSplits(s, skip, acc, body);
  }

  lemma {:induction false} ScanKeepsOrder<T, S>(s: seq<T>, skip: bool, acc: S, body: (T, S) -> Visit<T, S>)
    requires forall t, a :: body(t, a).keep.Some? ==> body(t, a).keep.value == t
    ensures Subseq(Scan(s, skip, acc, body).items, s)
    decreases |s|
  {
    if |s| > 0 {
      var r := Scan(s, skip, acc, body);
      if skip {
        var rest := Scan(s[1..], false, acc, body);
        ScanKeepsOrder(s[1..], false, acc, body);
        assert r.items == [s[0]] + rest.items;
        assert r.items[1..] == rest.items;
      } else {
        var v := body(s[0], acc);
        var rest := Scan(s[1..], v.keep.None?, v.acc, body);
        ScanKeepsOrder(s[1..], v.keep.None?, v.acc, body);
        if v.keep.None? {
          assert r.items == rest.items;
          SubseqDropHead(rest.items, s);
        } else {
          assert r.items == [s[0]] + rest.items;
          assert r.items[1..] == rest.items;
        }
      }
    }
  }

  lemma {:induction false} ScanSplits<T, S>(s: seq<T>, skip: bool, acc: S, body: (T, S) -> Visit<T, S>)
    requires forall t, a :: body(t, a).keep.Some? ==> body(t, a).keep.value == t
    ensures multiset(Scan(s, skip, acc, body).items) + multiset(Scan(s, skip, acc, body).dropped) == multiset(s)
    decreases |s|
  {
    if |s| > 0 {
      var r := Scan(s, skip, acc, body);
      assert s == [s[0]] + s[1..];
      assert multiset(s) == multiset{s[0]} + multiset(s[1..]);
      var v := body(s[0], acc);
      var rest := Scan(s[1..], !skip && v.keep.None?, if skip then acc else v.acc, body);
      ScanSplits(s[1..], !skip && v.keep.None?, if skip then acc else v.acc, body);
      if !skip && v.keep.None? {
        assert r.items == rest.items && r.dropped == [s[0]] + rest.dropped;
        assert multiset(r.dropped) == multiset{s[0]} + multiset(rest.dropped);
      } else {
        assert r.items == [s[0]] + rest.items && r.dropped == rest.dropped;
        assert multiset(r.items) == multiset{s[0]} + multiset(rest.items);
      }
    }
  }

  lemma SubseqDropHead<T>(a: seq<T>, b: seq<T>)
    requires |b| > 0 && Subseq(a, b[1..])
    ensures Subseq(a, b)
  {
  }

  /** When no visit removes anything, the loop updates every element in place. */
  lemma {:induction false} ScanTotal<T, S>(s: seq<T>, acc: S, body: (T, S) -> Visit<T, S>, f: T -> T)
    requires forall t, a :: body(t, a) == Visit(Some(f(t)), a)
    ensures Scan(s, false, acc, body) == Scanned(MapAll(f, s), acc, [])
    decreases |s|
  {
    if |s| > 0 {
      ScanTotal(s[1..], acc, body, f);
      assert MapAll(f, s) == [f(s[0])] + MapAll(f, s[1..]);
    }
  }

  /** The elements of `s` that satisfy `keep`, in order. */
  function Filter<T>(s: seq<T>, keep: T -> bool): (r: seq<T>)
    ensures |r| <= |s|
    ensures forall x :: x in r ==> x in s && keep(x)
    decreases |s|
  {
    if |s| == 0 then []
    else if keep(s[0]) then [s[0]] + Filter(s[1..], keep)
    else Filter(s[1..], keep)
  }

  /** The negation of a test. */
  function Not<T>(D: T -> bool): T -> bool
  {
    x => !D(x)
  }

  /** Filters with pointwise equal tests agree. */
  lemma {:induction false} FilterExt<T>(s: seq<T>, f: T -> bool, g: T -> bool)
    requires forall x :: f(x) == g(x)
    ensures Filter(s, f) == Filter(s, g)
    decreases |s|
  {
    if |s| > 0 {
      FilterExt(s[1..], f, g);
    }
  }

  /** No two neighbours in `s` both satisfy `D`. */
  ghost predicate Apart<T>(s: seq<T>, D: T -> bool)
  {
    forall i, j :: 0 <= i < j < |s| && j == i + 1 ==> !(D(s[i]) && D(s[j]))
  }

  /** When a visit removes exactly the elements with `D` and changes no
      element, and no two neighbours both have `D`, no removal causes a skip
      that matters: the loop leaves exactly the elements without `D`. */
  lemma {:induction false} ScanFilters<T, S>(s: seq<T>, acc: S, body: (T, S) -> Visit<T, S>, P: S -> bool, D: T -> bool)
    requires P(acc)
    requires forall t, a :: P(a) ==> P(body(t, a).acc)
    requires forall t, a :: P(a) ==> (body(t, a).keep.None? <==> D(t))
    requires forall t, a :: P(a) && body(t, a).keep.Some? ==> body(t, a).keep.value == t
    requires Apart(s, D)
    ensures Scan(s, false, acc, body).items == Filter(s, Not(D))
    decreases |s|
  {
    if |s| > 0 {
      var v := body(s[0], acc);
      assert Apart(s[1..], D) by {
        forall i, j | 0 <= i < j < |s[1..]| && j == i + 1
          ensures !(D(s[1..][i]) && D(s[1..][j]))
        {
          assert s[1..][i] == s[i + 1] && s[1..][j] == s[j + 1];
        }
      }
      if D(s[0]) {
        if |s| > 1 {
          assert !D(s[1]);
          assert Apart(s[2..], D) by {
            forall i, j | 0 <= i < j < |s[2..]| && j == i + 1
              ensures !(D(s[2..][i]) && D(s[2..][j]))
            {
              assert s[2..][i] == s[i + 2] && s[2..][j] == s[j + 2];
            }
          }
          ScanFilters(s[2..], v.acc, body, P, D);
          assert s[1..][1..] == s[2..];
          assert s[1..][0] == s[1];
        }
      } else {
        ScanFilters(s[1..], v.acc, body, P, D);
      }
    }
  }

  /** Python's `range(start, stop, step)` for a positive step. */
  function Range(start: int, stop: int, step: int): (r: seq<int>)
    requires step > 0
    ensures forall i :: 0 <= i < |r| ==> r[i] == start + i * step
    ensures forall i :: 0 <= i < |r| ==> r[i] < stop
    ensures start < stop ==> stop <= start + |r| * step
    ensures start >= stop ==> r == []
    decreases stop - start
  {
    if start >= stop then []
    else
      var rest := Range(start + step, stop, step);
      var r := [start] + rest;
      assert forall i :: 0 < i < |r| ==> r[i] == start + i * step by {
        forall i | 0 < i < |r|
          ensures r[i] == start + i * step
        {
          StepMul(i - 1, step);
        }
      }
      StepMul(|rest|, step);
      r
  }

  lemma StepMul(i: int, step: int)
    ensures step + i * step == (i + 1) * step
  {
  }

  /** `range(a, b)` has `b - a` elements. */
  lemma RangeLength(a: int, b: int)
    requires a <= b
    ensures |Range(a, b, 1)| == b - a
  {
    var r := Range(a, b, 1);
    if |r| > 0 {
      assert r[|r| - 1] < b;
    }
  }
}
