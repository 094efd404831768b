/** The A* search for a path between two board fields (virtualhost board/Pathfinder.java).
    The search starts at the goal field and walks links until it pops the start field;
    every link costs one; the path is read off by following `next` pointers from the
    start back to the goal. The heuristic is left abstract. */
module Pathfinding {
  import opened Common
  import opened Board

  /** `FieldWrapper`: the search state of one field. `None` stands for a length of
      positive infinity. */
  datatype Wrapper = Wrapper(
    investigated: bool,
    known: Option<nat>,
    heuristic: real,
    full: Option<real>,
    next: Option<int>)

  /** A wrapper as first created: not investigated, infinitely far, without successor. */
  function Fresh(y: int, h: int -> real): (w: Wrapper)
    ensures !w.investigated && w.known.None? && w.full.None? && w.next.None? && w.heuristic == h(y)
  {
    Wrapper(false, None, h(y), None, None)
  }

  /** `a < b` on lengths where `None` is positive infinity. */
  predicate Less(a: Option<real>, b: Option<real>)
  {
    a.Some? && (b.None? || a.value < b.value)
  }

  /** `newDist < knownPathLengthToGoal`, with `None` as positive infinity. */
  predicate Improves(newDist: nat, known: Option<nat>)
  {
    known.None? || newDist < known.value
  }

  // ---------------------------------------------------------------- graph

  /** The field `y` is reached from `x` through one of the links of `x`. */
  ghost predicate Step(b: map<int, FieldData>, x: int, y: int)
  {
    x in b && exists i :: 0 <= i < |b[x].links| && OtherEnd(b[x].links[i], x) == y
  }

  /** A route read backwards: each field is reached from the one after it. */
  ghost predicate BackRoute(b: map<int, FieldData>, r: seq<int>)
  {
    forall i :: 0 <= i < |r| - 1 ==> Step(b, r[i + 1], r[i])
  }

  /** The field `from` can be reached by walking links outward from `to`. */
  ghost predicate Reachable(b: map<int, FieldData>, to: int, from: int)
  {
    exists r :: |r| > 0 && r[0] == from && r[|r| - 1] == to && BackRoute(b, r)
  }

  /** The locations of the fields along a route. */
  function Locations(b: map<int, FieldData>, r: seq<int>): (locs: seq<Location>)
    requires forall i :: 0 <= i < |r| ==> r[i] in b
    ensures |locs| == |r| && forall i :: 0 <= i < |r| ==> locs[i] == b[r[i]].location
  {
    if r == [] then [] else Locations(b, r[..|r| - 1]) + [b[r[|r| - 1]].location]
  }

  /** A set that contains the goal and every field reached from one of its members
      contains every field a backward route to the goal passes. */
  lemma {:induction false} ClosedSetHoldsRoute(b: map<int, FieldData>, s: set<int>, r: seq<int>)
    requires forall y, n :: y in s && Step(b, y, n) ==> n in s
    requires |r| > 0 && r[|r| - 1] in s && BackRoute(b, r)
    ensures r[0] in s
    decreases |r|
  {
    if |r| > 1 {
      var r' := r[1..];
      assert BackRoute(b, r') by {
        forall i | 0 <= i < |r'| - 1 ensures Step(b, r'[i + 1], r'[i]) {
          assert Step(b, r[i + 2], r[i + 1]);
        }
      }
      ClosedSetHoldsRoute(b, s, r');
      assert Step(b, r[1], r[0]);
    }
  }

  // ---------------------------------------------------------------- search state

  /** The successor of `y` is an investigated field one link closer to the goal,
      from which `y` is reached. */
  ghost predicate NextOk(b: map<int, FieldData>, w: map<int, Wrapper>, y: int)
    requires y in w && w[y].next.Some?
  {
    var x := w[y].next.value;
    x in w && w[x].investigated && w[x].known.Some? && w[y].known == Some(w[x].known.value + 1) && Step(b, x, y)
  }

  /** What holds of each wrapper throughout: it belongs to a board field and carries
      that field's heuristic; its total is finite exactly when its length is known,
      and then total = length + heuristic; an investigated field has a known length;
      the goal has length 0 and no successor, every other field with a known length
      has a successor one link closer. */
  ghost predicate WrapperOk(b: map<int, FieldData>, h: int -> real, to: int, w: map<int, Wrapper>, y: int)
    requires y in w
  {
    var v := w[y];
    && y in b && v.heuristic == h(y)
    && (v.full.Some? <==> v.known.Some?)
    && (v.full.Some? ==> v.full.value == v.known.value as real + v.heuristic)
    && (v.investigated ==> v.known.Some?)
    && (y == to ==> v.known == Some(0) && v.next.None?)
    && (y != to && v.known.Some? ==> v.next.Some?)
    && (v.next.Some? ==> NextOk(b, w, y))
  }

  ghost predicate Sound(b: map<int, FieldData>, h: int -> real, to: int, w: map<int, Wrapper>)
  {
    to in w && forall y :: y in w ==> WrapperOk(b, h, to, w, y)
  }

  /** The pool holds, once each, exactly the fields with a finite total that are not
      investigated yet. */
  ghost predicate PoolOk(w: map<int, Wrapper>, pool: seq<int>)
  {
    && NoRepeats(pool)
    && (forall i :: 0 <= i < |pool| ==> pool[i] in w && w[pool[i]].full.Some? && !w[pool[i]].investigated)
    && (forall y :: y in w && w[y].full.Some? && !w[y].investigated ==> y in pool)
  }

  /** Every field reached from an investigated field other than `except` has a known
      length. */
  ghost predicate ClosedBut(b: map<int, FieldData>, w: map<int, Wrapper>, except: Option<int>)
  {
    forall y, n :: y in w && w[y].investigated && Some(y) != except && Step(b, y, n) ==>
      n in w && w[n].known.Some?
  }

  /** The fields of the board whose total is still infinite. */
  ghost function NotFull(b: map<int, FieldData>, w: map<int, Wrapper>): set<int>
  {
    set y | y in b && !(y in w && w[y].full.Some?)
  }

  /** The pool position chosen by `removeMin`: the first element whose total is
      smallest, all totals before it being larger. */
  ghost predicate IsFirstMinimum(pool: seq<int>, w: map<int, Wrapper>, i: int)
    requires forall j :: 0 <= j < |pool| ==> pool[j] in w
  {
    && 0 <= i < |pool| && w[pool[i]].full.Some?
    && (forall j :: 0 <= j < i ==> Less(w[pool[i]].full, w[pool[j]].full))
    && (forall j :: i < j < |pool| ==> !Less(w[pool[j]].full, w[pool[i]].full))
  }

  /** The scan of `removeMin`: the running minimum starts at positive infinity and is
      replaced by every strictly smaller total. */
  method FirstMinimum(pool: seq<int>, w: map<int, Wrapper>) returns (idx: Option<nat>)
    requires forall j :: 0 <= j < |pool| ==> pool[j] in w
    ensures idx.None? <==> forall j :: 0 <= j < |pool| ==> w[pool[j]].full.None?
    ensures idx.Some? ==> IsFirstMinimum(pool, w, idx.value)
  {
    var length: Option<real> := None;
    idx := None;
    var k := 0;
    while k < |pool|
      invariant 0 <= k <= |pool|
      invariant idx.None? ==> length.None? && forall j :: 0 <= j < k ==> w[pool[j]].full.None?
      invariant idx.Some? ==> idx.value < k && length == w[pool[idx.value]].full && length.Some?
      invariant idx.Some? ==> forall j :: 0 <= j < idx.value ==> Less(length, w[pool[j]].full)
      invariant idx.Some? ==> forall j :: idx.value < j < k ==> !Less(w[pool[j]].full, length)
    {
      var current := w[pool[k]].full;
      if Less(current, length) {
        length := current;
        idx := Some(k);
      }
      k := k + 1;
    }
  }

  /** When the pool runs empty before the start field was popped, the fields with a
      known length contain the goal and are closed under links, yet do not contain
      the start field: no route leads from the goal to the start. */
  lemma {:induction false} ExhaustedSearchFindsNothing(b: map<int, FieldData>, h: int -> real, to: int,
                                                       from: int, w: map<int, Wrapper>)
    requires Sound(b, h, to, w) && PoolOk(w, []) && ClosedBut(b, w, None)
    requires from in w ==> !w[from].investigated
    ensures !Reachable(b, to, from)
  {
    var s := set y | y in w && w[y].known.Some?;
    forall y, n | y in s && Step(b, y, n) ensures n in s
    {
      assert WrapperOk(b, h, to, w, y);
      assert w[y].investigated;
    }
    assert WrapperOk(b, h, to, w, to);
    if from in w {
      assert WrapperOk(b, h, to, w, from);
    }
    assert from !in s;
    if r :| |r| > 0 && r[0] == from && r[|r| - 1] == to && BackRoute(b, r) {
      ClosedSetHoldsRoute(b, s, r);
    }
  }

  // ---------------------------------------------------------------- steps

  /** Creating a wrapper for a board field not seen yet keeps every invariant. */
  lemma AddFreshKeeps(b: map<int, FieldData>, h: int -> real, to: int, w: map<int, Wrapper>,
                      pool: seq<int>, x: int, y: int)
    requires Sound(b, h, to, w) && PoolOk(w, pool) && ClosedBut(b, w, Some(x))
    requires y in b && y !in w
    ensures var w' := w[y := Fresh(y, h)];
      Sound(b, h, to, w') && PoolOk(w', pool) && ClosedBut(b, w', Some(x)) && NotFull(b, w') == NotFull(b, w)
  {
    var w' := w[y := Fresh(y, h)];
    forall z | z in w' ensures WrapperOk(b, h, to, w', z)
    {
      if z != y {
        assert WrapperOk(b, h, to, w, z);
        if w[z].next.Some? {
          assert NextOk(b, w, z);
        }
      }
    }
    assert NotFull(b, w') == NotFull(b, w);
  }

  /** A wrapper left unchanged stays sound when its successor keeps being an
      investigated field with the same length. */
  lemma WrapperOkTransfers(b: map<int, FieldData>, h: int -> real, to: int,
                           w: map<int, Wrapper>, w': map<int, Wrapper>, z: int)
    requires z in w && z in w' && w'[z] == w[z] && WrapperOk(b, h, to, w, z)
    requires w[z].next.Some? ==> var x := w[z].next.value;
      x in w' && w'[x].investigated && w'[x].known == w[x].known
    ensures WrapperOk(b, h, to, w', z)
  {
  }

  /** The relax rule for one linked field with wrapper `wy`, reached from `x` whose
      length plus one is `d`: only a strict improvement changes it, and then `x`
      becomes its successor, `d` its length and `d` plus its heuristic its total. Its
      length ends as the smaller of the old one and `d`. */
  function Relaxed(wy: Wrapper, x: int, d: nat): (r: Wrapper)
    ensures r.investigated == wy.investigated && r.heuristic == wy.heuristic
    ensures r.known.Some? && r.known.value <= d
    ensures wy.known.Some? ==> r.known.value <= wy.known.value
    ensures r.known == Some(d) || r.known == wy.known
    ensures r == wy <==> !Improves(d, wy.known)
    ensures r != wy ==> r.next == Some(x) && r.full == Some(d as real + wy.heuristic)
  {
    if Improves(d, wy.known) then wy.(next := Some(x), known := Some(d), full := Some(d as real + wy.heuristic))
    else wy
  }

  /** Relaxing a field twice through the same field changes nothing more. */
  lemma RelaxedTwice(wy: Wrapper, x: int, d: nat)
    ensures Relaxed(Relaxed(wy, x, d), x, d) == Relaxed(wy, x, d)
  {
  }

  /** The wrapper `y` after relaxing it through `x`. */
  function Improved(w: map<int, Wrapper>, x: int, y: int): Wrapper
    requires x in w && w[x].known.Some? && y in w
  {
    Relaxed(w[y], x, w[x].known.value + 1)
  }

  /** The wrapper of `y` in `w`, or the one `relax` creates when there is none yet. */
  function Seen(w: map<int, Wrapper>, h: int -> real, y: int): Wrapper
  {
    if y in w then w[y] else Fresh(y, h)
  }

  /** Lowering the length of a neighbour `y` of the investigated field `x` to one more
      than that of `x`, with `x` as its successor, keeps every wrapper sound. */
  lemma ImproveSound(b: map<int, FieldData>, h: int -> real, to: int, w: map<int, Wrapper>, x: int, y: int)
    requires Sound(b, h, to, w)
    requires x in w && w[x].investigated && y in w && !w[y].investigated && Step(b, x, y)
    requires WrapperOk(b, h, to, w, x) && Improves(w[x].known.value + 1, w[y].known)
    ensures Sound(b, h, to, w[y := Improved(w, x, y)])
  {
    var w' := w[y := Improved(w, x, y)];
    assert WrapperOk(b, h, to, w, y);
    forall z | z in w' ensures WrapperOk(b, h, to, w', z)
    {
      if z != y {
        assert WrapperOk(b, h, to, w, z);
        if w[z].next.Some? {
          assert NextOk(b, w, z);
        }
        WrapperOkTransfers(b, h, to, w, w', z);
      }
    }
  }

  /** The same step puts `y` into the pool when its total was infinite, and the
      measure of remaining work does not grow. */
  lemma ImprovePool(b: map<int, FieldData>, h: int -> real, to: int, w: map<int, Wrapper>,
                    pool: seq<int>, x: int, y: int)
    requires Sound(b, h, to, w) && PoolOk(w, pool) && ClosedBut(b, w, Some(x))
    requires x in w && w[x].investigated && w[x].known.Some? && y in w && !w[y].investigated
    ensures var w' := w[y := Improved(w, x, y)];
      var pool' := if w[y].full.None? then pool + [y] else pool;
      && PoolOk(w', pool') && ClosedBut(b, w', Some(x))
      && 2 * |NotFull(b, w')| + |pool'| <= 2 * |NotFull(b, w)| + |pool|
  {
    assert WrapperOk(b, h, to, w, y);
    ImproveMeasure(b, w, pool, x, y);
    ImprovePoolOk(w, pool, x, y);
    var w' := w[y := Improved(w, x, y)];
    assert ClosedBut(b, w', Some(x)) by {
      forall z, n | z in w' && w'[z].investigated && Some(z) != Some(x) && Step(b, z, n)
        ensures n in w' && w'[n].known.Some?
      {
        assert z != y && w'[z] == w[z];
      }
    }
  }

  /** Improving `y` removes it from the fields of infinite total when its total was
      infinite, which the one new pool entry does not outweigh. */
  lemma ImproveMeasure(b: map<int, FieldData>, w: map<int, Wrapper>, pool: seq<int>, x: int, y: int)
    requires PoolOk(w, pool) && y in b
    requires x in w && w[x].known.Some? && y in w && !w[y].investigated
    requires w[y].full.Some? <==> w[y].known.Some?
    ensures var w' := w[y := Improved(w, x, y)];
      var pool' := if w[y].full.None? then pool + [y] else pool;
      2 * |NotFull(b, w')| + |pool'| <= 2 * |NotFull(b, w)| + |pool|
  {
    var w' := w[y := Improved(w, x, y)];
    if w[y].full.None? {
      assert NotFull(b, w') == NotFull(b, w) - {y};
    } else {
      assert NotFull(b, w') == NotFull(b, w);
    }
  }

  /** Improving `y` keeps the pool exact once `y` is added when its total was infinite. */
  lemma ImprovePoolOk(w: map<int, Wrapper>, pool: seq<int>, x: int, y: int)
    requires PoolOk(w, pool)
    requires x in w && w[x].known.Some? && y in w && !w[y].investigated
    requires w[y].full.Some? <==> w[y].known.Some?
    ensures var w' := w[y := Improved(w, x, y)];
      PoolOk(w', if w[y].full.None? then pool + [y] else pool)
  {
    var w' := w[y := Improved(w, x, y)];
    var pool' := if w[y].full.None? then pool + [y] else pool;
    if w[y].full.None? {
      assert y !in pool;
      NoRepeatsAppend(pool, y);
    }
    forall m | 0 <= m < |pool'|
      ensures pool'[m] in w' && w'[pool'[m]].full.Some? && !w'[pool'[m]].investigated
    {
      if m < |pool| { assert pool'[m] == pool[m]; }
    }
    forall z | z in w' && w'[z].full.Some? && !w'[z].investigated ensures z in pool'
    {
      if z != y {
        assert z in pool;
      } else if w[y].full.None? {
        assert pool'[|pool|] == y;
      }
    }
  }

  /** Appending an element not present keeps a sequence free of repeats. */
  lemma NoRepeatsAppend(s: seq<int>, y: int)
    requires NoRepeats(s) && y !in s
    ensures NoRepeats(s + [y])
  {
  }

  /** Marking the popped field as investigated keeps every wrapper sound. */
  lemma PopSound(b: map<int, FieldData>, h: int -> real, to: int, w: map<int, Wrapper>, x: int)
    requires Sound(b, h, to, w) && x in w && w[x].known.Some?
    ensures Sound(b, h, to, w[x := w[x].(investigated := true)])
  {
    var w' := w[x := w[x].(investigated := true)];
    assert WrapperOk(b, h, to, w, x);
    forall z | z in w' ensures WrapperOk(b, h, to, w', z)
    {
      assert WrapperOk(b, h, to, w, z);
      if w[z].next.Some? {
        assert NextOk(b, w, z);
      }
      if z != x {
        WrapperOkTransfers(b, h, to, w, w', z);
      }
    }
  }

  /** Removing the popped field from the pool keeps the pool exact. */
  lemma PopPool(b: map<int, FieldData>, w: map<int, Wrapper>, pool: seq<int>, i: int)
    requires PoolOk(w, pool) && ClosedBut(b, w, None) && 0 <= i < |pool|
    ensures var x := pool[i];
      var w' := w[x := w[x].(investigated := true)];
      var pool' := pool[..i] + pool[i + 1..];
      && PoolOk(w', pool') && ClosedBut(b, w', Some(x))
      && NotFull(b, w') == NotFull(b, w) && |pool'| == |pool| - 1
  {
    var x := pool[i];
    var w' := w[x := w[x].(investigated := true)];
    var pool' := pool[..i] + pool[i + 1..];
    forall m | 0 <= m < |pool'|
      ensures pool'[m] in w' && w'[pool'[m]].full.Some? && !w'[pool'[m]].investigated
    {
      if m < i { assert pool'[m] == pool[m]; } else { assert pool'[m] == pool[m + 1]; }
    }
    forall y | y in w' && w'[y].full.Some? && !w'[y].investigated ensures y in pool'
    {
      var j :| 0 <= j < |pool| && pool[j] == y;
      assert j != i;
      if j < i { assert pool'[j] == y; } else { assert pool'[j - 1] == y; }
    }
    assert NoRepeats(pool') by {
      forall m, n | 0 <= m < n < |pool'| ensures pool'[m] != pool'[n]
      {
        var m' := if m < i then m else m + 1;
        var n' := if n < i then n else n + 1;
        assert pool'[m] == pool[m'] && pool'[n] == pool[n'];
      }
    }
    assert NotFull(b, w') == NotFull(b, w);
  }

  /** Following the successors from a field with a known length ends at the goal. */
  lemma SuccessorsLeadToGoal(b: map<int, FieldData>, h: int -> real, to: int, w: map<int, Wrapper>, y: int)
    requires Sound(b, h, to, w) && y in w && w[y].known.Some?
    ensures w[y].next.None? ==> y == to
    ensures w[y].next.Some? ==> NextOk(b, w, y)
  {
    assert WrapperOk(b, h, to, w, y);
  }

  /** The walk from `from` along the successors: `route` leads back from `cur` to
      `from` field by field, and `path` holds the locations along it. */
  ghost predicate Walked(b: map<int, FieldData>, from: int, route: seq<int>, path: seq<Location>, cur: int)
  {
    && |route| > 0 && route[0] == from && route[|route| - 1] == cur && BackRoute(b, route)
    && (forall i :: 0 <= i < |route| ==> route[i] in b)
    && path == Locations(b, route)
  }

  /** Going on to a field reached from the current one extends the walk. */
  lemma {:induction false} WalkStep(b: map<int, FieldData>, from: int, route: seq<int>, path: seq<Location>,
                                    cur: int, nxt: int)
    requires Walked(b, from, route, path, cur) && nxt in b && Step(b, nxt, cur)
    ensures Walked(b, from, route + [nxt], path + [b[nxt].location], nxt)
  {
    var r := route + [nxt];
    forall i | 0 <= i < |r| - 1 ensures Step(b, r[i + 1], r[i])
    {
      if i + 1 < |route| {
        assert r[i + 1] == route[i + 1] && r[i] == route[i];
      }
    }
    assert Locations(b, r) == path + [b[nxt].location];
  }

  // ---------------------------------------------------------------- the search

  /** The state of the first loop of `relax` over the links of `x`, started from the
      wrappers `w0`: after `i` links, `w` is sound and extends `w0` with fresh wrappers
      only, every field reached so far has a wrapper, and `linked` lists exactly those of
      them that are not investigated. */
  ghost predicate Collecting(b: map<int, FieldData>, h: int -> real, to: int, from: int,
                             w0: map<int, Wrapper>, pool: seq<int>, x: int,
                             w: map<int, Wrapper>, i: int, linked: seq<int>)
  {
    Grown(b, h, to, from, w0, pool, x, w) && Listed(b, x, w, i, linked) && Reached(b, x, w0, w, i)
  }

  /** Every wrapper not in `w0` belongs to a field reached through one of the first `i`
      links of `x`. */
  ghost predicate Reached(b: map<int, FieldData>, x: int, w0: map<int, Wrapper>, w: map<int, Wrapper>, i: int)
    requires x in b && 0 <= i <= |b[x].links|
  {
    forall y :: y in w && y !in w0 ==> exists m :: 0 <= m < i && OtherEnd(b[x].links[m], x) == y
  }

  /** `w` is sound and extends `w0` with fresh wrappers only. */
  ghost predicate Grown(b: map<int, FieldData>, h: int -> real, to: int, from: int,
                        w0: map<int, Wrapper>, pool: seq<int>, x: int, w: map<int, Wrapper>)
  {
    && WellFormed(b) && x in b
    && Sound(b, h, to, w) && PoolOk(w, pool) && ClosedBut(b, w, Some(x))
    && w0.Keys <= w.Keys && (forall y :: y in w0 ==> w[y] == w0[y])
    && (forall y :: y in w && y !in w0 ==> w[y] == Fresh(y, h))
    && (from in w ==> !w[from].investigated)
    && NotFull(b, w) == NotFull(b, w0)
  }

  /** The fields reached through the first `i` links of `x` have wrappers, and `linked`
      lists exactly those of them that are not investigated. */
  ghost predicate Listed(b: map<int, FieldData>, x: int, w: map<int, Wrapper>, i: int, linked: seq<int>)
  {
    && x in b && 0 <= i <= |b[x].links|
    && (forall m :: 0 <= m < i ==>
          var n := OtherEnd(b[x].links[m], x);
          n in w && (!w[n].investigated ==> n in linked))
    && (forall m :: 0 <= m < |linked| ==>
          linked[m] in w && !w[linked[m]].investigated && Step(b, x, linked[m]))
  }

  /** One more link handled keeps the state of the first loop of `relax`. */
  lemma {:induction false} CollectStep(b: map<int, FieldData>, h: int -> real, to: int, from: int,
                                       w0: map<int, Wrapper>, pool: seq<int>, x: int,
                                       w: map<int, Wrapper>, i: int, linked: seq<int>)
    requires Collecting(b, h, to, from, w0, pool, x, w, i, linked) && i < |b[x].links|
    ensures var y := OtherEnd(b[x].links[i], x);
      var w' := if y in w then w else w[y := Fresh(y, h)];
      var linked' := if w'[y].investigated then linked else linked + [y];
      Collecting(b, h, to, from, w0, pool, x, w', i + 1, linked')
  {
    var y := OtherEnd(b[x].links[i], x);
    assert y in b;
    var w' := if y in w then w else w[y := Fresh(y, h)];
    if y !in w {
      AddFreshKeeps(b, h, to, w, pool, x, y);
    }
    assert Grown(b, h, to, from, w0, pool, x, w');
    ListStep(b, x, w, w', i, linked);
  }

  /** Listing the field reached through link `i`, in wrappers that keep the old ones. */
  lemma {:induction false} ListStep(b: map<int, FieldData>, x: int, w: map<int, Wrapper>,
                                    w': map<int, Wrapper>, i: int, linked: seq<int>)
    requires Listed(b, x, w, i, linked) && i < |b[x].links|
    requires forall z :: z in w ==> z in w' && w'[z] == w[z]
    requires OtherEnd(b[x].links[i], x) in w'
    ensures var y := OtherEnd(b[x].links[i], x);
      Listed(b, x, w', i + 1, if w'[y].investigated then linked else linked + [y])
  {
    var y := OtherEnd(b[x].links[i], x);
    assert Step(b, x, y);
    var linked' := if w'[y].investigated then linked else linked + [y];
    assert forall n :: n in linked ==> n in linked';
    forall m | 0 <= m < |linked'|
      ensures linked'[m] in w' && !w'[linked'[m]].investigated && Step(b, x, linked'[m])
    {
      if m < |linked| {
        assert linked'[m] == linked[m];
      }
    }
  }

  /** The state of the second loop of `relax`, started from `w0` and `p0`, after `j`
      listed fields: sound, the same fields with the same investigation marks, the
      investigated wrappers untouched, the first `j` listed fields given a length, and the
      measure of remaining work not grown. */
  ghost predicate Improving(b: map<int, FieldData>, h: int -> real, to: int,
                            w0: map<int, Wrapper>, p0: seq<int>, x: int, linked: seq<int>, j: int,
                            w: map<int, Wrapper>, p: seq<int>)
  {
    && 0 <= j <= |linked|
    && x in w0 && w0[x].investigated
    && (forall m :: 0 <= m < |linked| ==>
          linked[m] in w0 && !w0[linked[m]].investigated && Step(b, x, linked[m]))
    && Sound(b, h, to, w) && PoolOk(w, p) && ClosedBut(b, w, Some(x))
    && w.Keys == w0.Keys
    && (forall y :: y in w0 && w0[y].investigated ==> w[y] == w0[y])
    && (forall y :: y in w0 ==> w[y].investigated == w0[y].investigated)
    && (forall m :: 0 <= m < j ==> w[linked[m]].known.Some?)
    && 2 * |NotFull(b, w)| + |p| <= 2 * |NotFull(b, w0)| + |p0|
  }

  /** After relaxing the first `j` listed fields through `x`, whose length plus one is
      `d`, the pool `p0` has only grown at its end and each field has the wrapper
      `RelaxedAt` gives. */
  ghost predicate RelaxedUpTo(w0: map<int, Wrapper>, p0: seq<int>, x: int, d: nat, linked: seq<int>, j: int,
                              w: map<int, Wrapper>, p: seq<int>)
  {
    && 0 <= j <= |linked| && w.Keys == w0.Keys && p0 <= p
    && forall y :: y in w0 ==> RelaxedAt(w0, x, d, linked[..j], w, y)
  }

  /** The field `y` carries its wrapper from `w0` relaxed through `x` when it is among
      `done`, and that wrapper unchanged otherwise. */
  ghost predicate RelaxedAt(w0: map<int, Wrapper>, x: int, d: nat, done: seq<int>, w: map<int, Wrapper>, y: int)
  {
    y in w0 && y in w && w[y] == if y in done then Relaxed(w0[y], x, d) else w0[y]
  }

  /** An investigated field of a sound search state has a known length. */
  lemma InvestigatedKnown(b: map<int, FieldData>, h: int -> real, to: int, w: map<int, Wrapper>, x: int)
    requires Sound(b, h, to, w) && x in w && w[x].investigated
    ensures w[x].known.Some?
  {
    assert WrapperOk(b, h, to, w, x);
  }

  /** Relaxing the next listed field through `x` keeps `RelaxedUpTo`. */
  lemma {:induction false} RelaxedUpToStep(w0: map<int, Wrapper>, p0: seq<int>, x: int, d: nat, linked: seq<int>, j: int,
                                           w: map<int, Wrapper>, p: seq<int>, w1: map<int, Wrapper>, p1: seq<int>)
    requires RelaxedUpTo(w0, p0, x, d, linked, j, w, p) && j < |linked| && linked[j] in w && p <= p1
    requires w1.Keys == w.Keys && w1[linked[j]] == Relaxed(w[linked[j]], x, d)
    requires forall z :: z in w && z != linked[j] ==> w1[z] == w[z]
    ensures RelaxedUpTo(w0, p0, x, d, linked, j + 1, w1, p1)
  {
    var y := linked[j];
    assert RelaxedAt(w0, x, d, linked[..j], w, y);
    RelaxedTwice(w0[y], x, d);
    assert linked[..j + 1] == linked[..j] + [y];
    forall z | z in w0 ensures RelaxedAt(w0, x, d, linked[..j + 1], w1, z)
    {
      assert RelaxedAt(w0, x, d, linked[..j], w, z);
      assert z in linked[..j + 1] <==> z in linked[..j] || z == y;
    }
  }

  /** Once every listed neighbour of `x` has a known length, and the neighbours not
      listed are investigated, the investigated fields are closed again, `x` included. */
  lemma RelaxedAllClosed(b: map<int, FieldData>, h: int -> real, to: int, w0: map<int, Wrapper>,
                         x: int, linked: seq<int>, w: map<int, Wrapper>)
    requires Sound(b, h, to, w) && ClosedBut(b, w, Some(x))
    requires forall n :: Step(b, x, n) ==> n in w0 && (!w0[n].investigated ==> n in linked)
    requires w.Keys == w0.Keys && forall y :: y in w0 ==> w[y].investigated == w0[y].investigated
    requires forall m :: 0 <= m < |linked| ==> linked[m] in w && w[linked[m]].known.Some?
    ensures ClosedBut(b, w, None)
  {
    forall y, n | y in w && w[y].investigated && Step(b, y, n)
      ensures n in w && w[n].known.Some?
    {
      if y == x && !w[n].investigated {
        var m :| 0 <= m < |linked| && linked[m] == n;
      } else if y == x {
        assert WrapperOk(b, h, to, w, n);
      }
    }
  }

  /** Improving the next listed field keeps the state of the second loop of `relax`. */
  lemma {:induction false} ImproveStep(b: map<int, FieldData>, h: int -> real, to: int,
                                       w0: map<int, Wrapper>, p0: seq<int>, x: int, linked: seq<int>, j: int,
                                       w: map<int, Wrapper>, p: seq<int>, w1: map<int, Wrapper>, p1: seq<int>)
    requires Improving(b, h, to, w0, p0, x, linked, j, w, p) && j < |linked|
    requires Sound(b, h, to, w1) && PoolOk(w1, p1) && ClosedBut(b, w1, Some(x))
    requires w1.Keys == w.Keys
    requires forall z :: z in w && z != linked[j] ==> w1[z] == w[z]
    requires !w1[linked[j]].investigated && w1[linked[j]].known.Some?
    requires 2 * |NotFull(b, w1)| + |p1| <= 2 * |NotFull(b, w)| + |p|
    ensures Improving(b, h, to, w0, p0, x, linked, j + 1, w1, p1)
  {
    forall m | 0 <= m < j + 1 ensures w1[linked[m]].known.Some?
    {
      if linked[m] != linked[j] {
        assert w1[linked[m]] == w[linked[m]];
      }
    }
  }

  /** A pathfinder for a path from `fromField` to `toField` over the fields of a
      board, with the heuristic `h` (the horizontal distance to the start field,
      in field diameters, in the source). */
  class Pathfinder {
    const fromField: int
    const toField: int
    const rawMap: map<int, FieldData>
    const h: int -> real
    /** The wrappers created so far, by field id. */
    var wrappers: map<int, Wrapper>
    /** The open list: ids of fields with a finite total, not yet investigated. */
    var pool: seq<int>

    constructor (fromField: int, toField: int, rawMap: map<int, FieldData>, h: int -> real)
      ensures this.fromField == fromField && this.toField == toField
      ensures this.rawMap == rawMap && this.h == h
      ensures wrappers == map[] && pool == []
    {
      this.fromField := fromField;
      this.toField := toField;
      this.rawMap := rawMap;
      this.h := h;
      wrappers := map[];
      pool := [];
    }

    ghost predicate Inv()
      reads this
    {
      && Sound(rawMap, h, toField, wrappers) && PoolOk(wrappers, pool) && ClosedBut(rawMap, wrappers, None)
      && (fromField in wrappers ==> !wrappers[fromField].investigated)
    }

    /** Runs the search. It returns the locations of a path from the start field to the
        goal, each field reached from the next one through a link, or `None` exactly
        when no such path exists. When start and goal coincide the path is that one
        field. */
    method Call() returns (result: Option<seq<Location>>)
      requires WellFormed(rawMap) && fromField in rawMap && toField in rawMap
      requires wrappers == map[] && pool == []
      modifies this
      ensures result.Some? <==> Reachable(rawMap, toField, fromField)
      ensures result.Some? ==> exists r ::
        && |r| > 0 && r[0] == fromField && r[|r| - 1] == toField && BackRoute(rawMap, r)
        && (forall i :: 0 <= i < |r| ==> r[i] in rawMap)
        && result.value == Locations(rawMap, r)
      ensures fromField == toField ==> result == Some([rawMap[toField].location])
    {
      // seed the search at the goal: known length 0, total equal to the heuristic
      var field := Fresh(toField, h);
      field := field.(known := Some(0), full := Some(0.0 + field.heuristic));
      wrappers := wrappers[toField := field];
      Insert(toField);
      assert WrapperOk(rawMap, h, toField, wrappers, toField);

      var success := false;
      var stop := false;
      while !stop
        invariant !success ==> Inv()
        invariant fromField == toField && !stop ==> pool == [toField] && toField in wrappers && wrappers[toField].next.None?
        invariant stop && !success ==> pool == []
        invariant success ==> stop && Sound(rawMap, h, toField, wrappers)
        invariant success ==> fromField in wrappers && wrappers[fromField].known.Some?
        decreases !stop, 2 * |NotFull(rawMap, wrappers)| + |pool|
      {
        stop, success := Round();
      }

      if success {
        result := WalkBack();
      } else {
        ExhaustedSearchFindsNothing(rawMap, h, toField, fromField, wrappers);
        result := None;
      }
    }

    /** One round of the search: the first minimum of the pool is taken out; the search
        stops when the pool was empty, when the minimum is the start field, or when the
        pool has run empty after the round. */
    method Round() returns (stop: bool, found: bool)
      requires WellFormed(rawMap) && Inv()
      requires fromField == toField ==> pool == [toField] && wrappers[toField].next.None?
      modifies this
      ensures !found ==> Inv()
      ensures found ==> stop && Sound(rawMap, h, toField, wrappers)
      ensures found ==> fromField in wrappers && wrappers[fromField].known.Some?
      ensures stop && !found ==> pool == []
      ensures fromField == toField ==> found
      ensures old(pool) == [] ==> stop && !found && wrappers == old(wrappers)
      ensures old(pool) != [] ==> exists i ::
        && IsFirstMinimum(old(pool), old(wrappers), i)
        && (found <==> old(pool)[i] == fromField)
        && (!found ==> old(pool)[i] in wrappers && wrappers[old(pool)[i]].investigated)
      ensures stop <==> found || pool == []
      ensures !stop ==> 2 * |NotFull(rawMap, wrappers)| + |pool| < 2 * |NotFull(rawMap, old(wrappers))| + |old(pool)|
    {
      ghost var w0, p0 := wrappers, pool;
      var popped := RemoveMin();
      if popped.None? {
        // `continue` with an empty pool ends the loop
        return true, false;
      }
      var x := popped.value;
      ghost var i :| IsFirstMinimum(p0, w0, i) && x == p0[i] && pool == p0[..i] + p0[i + 1..];
      if x == fromField {
        assert WrapperOk(rawMap, h, toField, wrappers, x);
        return true, true;
      }
      Investigate(x, w0, p0, i);
      return pool == [], false;
    }

    /** One round of the search once the pool's first minimum `x` is taken out and is
        not the start field: `x` is marked investigated and its neighbours relaxed. */
    method Investigate(x: int, ghost w0: map<int, Wrapper>, ghost p0: seq<int>, ghost i: int)
      requires WellFormed(rawMap)
      requires Sound(rawMap, h, toField, w0) && PoolOk(w0, p0) && ClosedBut(rawMap, w0, None)
      requires fromField in w0 ==> !w0[fromField].investigated
      requires 0 <= i < |p0| && x == p0[i] && x != fromField
      requires wrappers == w0 && pool == p0[..i] + p0[i + 1..]
      modifies this
      ensures Inv()
      ensures 2 * |NotFull(rawMap, wrappers)| + |pool| < 2 * |NotFull(rawMap, w0)| + |p0|
      ensures x in w0 && w0[x].known.Some?
      ensures x in wrappers && wrappers[x] == w0[x].(investigated := true)
      ensures forall y :: y in wrappers <==> y in w0 || Step(rawMap, x, y)
      ensures forall y :: y in w0 && w0[y].investigated ==> wrappers[y] == w0[y]
      ensures var d := w0[x].known.value + 1;
        forall y :: y in wrappers && y != x ==>
          wrappers[y] == if Step(rawMap, x, y) && !Seen(w0, h, y).investigated
                         then Relaxed(Seen(w0, h, y), x, d) else Seen(w0, h, y)
    {
      assert WrapperOk(rawMap, h, toField, wrappers, x);
      PopSound(rawMap, h, toField, w0, x);
      PopPool(rawMap, w0, p0, i);
      wrappers := wrappers[x := wrappers[x].(investigated := true)];
      ghost var w1 := wrappers;
      Relax(x);
      forall y | y in wrappers && y != x
        ensures wrappers[y] == if Step(rawMap, x, y) && !Seen(w0, h, y).investigated
                               then Relaxed(Seen(w0, h, y), x, w0[x].known.value + 1) else Seen(w0, h, y)
      {
        assert Seen(w1, h, y) == Seen(w0, h, y);
      }
    }

    /** `insert`: appends to the pool. */
    method Insert(y: int)
      modifies this
      ensures pool == old(pool) + [y] && wrappers == old(wrappers)
    {
      pool := pool + [y];
    }

    /** `removeMin`: takes the first field with the smallest total out of the pool;
        an empty pool gives `None`. */
    method RemoveMin() returns (field: Option<int>)
      requires Inv()
      modifies this
      ensures wrappers == old(wrappers)
      ensures old(pool) == [] <==> field.None?
      ensures field.None? ==> pool == old(pool)
      ensures field.Some? ==> exists i ::
        && IsFirstMinimum(old(pool), wrappers, i)
        && field == Some(old(pool)[i]) && pool == old(pool)[..i] + old(pool)[i + 1..]
    {
      assert pool != [] ==> wrappers[pool[0]].full.Some?;
      var idx := FirstMinimum(pool, wrappers);
      if idx.None? {
        return None;
      }
      field := Some(pool[idx.value]);
      pool := pool[..idx.value] + pool[idx.value + 1..];
    }

    /** `relax`: creates wrappers for the fields linked to `x`, then every linked field
        not investigated yet whose length improves through `x` gets `x` as successor,
        the length of `x` plus one, and the matching total; it enters the pool when
        its total was infinite. Investigated fields are left alone. */
    method Relax(x: int)
      requires WellFormed(rawMap)
      requires Sound(rawMap, h, toField, wrappers) && PoolOk(wrappers, pool)
      requires ClosedBut(rawMap, wrappers, Some(x))
      requires x in wrappers && wrappers[x].investigated && x != fromField
      requires fromField in wrappers ==> !wrappers[fromField].investigated
      modifies this
      ensures old(wrappers).Keys <= wrappers.Keys
      ensures Inv()
      ensures 2 * |NotFull(rawMap, wrappers)| + |pool| <= 2 * |NotFull(rawMap, old(wrappers))| + |old(pool)|
      ensures forall y :: y in old(wrappers) && old(wrappers)[y].investigated ==> wrappers[y] == old(wrappers)[y]
      ensures old(wrappers)[x].known.Some?
      ensures forall y :: y in wrappers <==> y in old(wrappers) || Step(rawMap, x, y)
      ensures var d := old(wrappers)[x].known.value + 1;
        forall y :: y in wrappers ==>
          wrappers[y] == if Step(rawMap, x, y) && !Seen(old(wrappers), h, y).investigated
                         then Relaxed(Seen(old(wrappers), h, y), x, d) else Seen(old(wrappers), h, y)
      ensures old(pool) <= pool
    {
      InvestigatedKnown(rawMap, h, toField, wrappers, x);
      var linked := CollectLinked(x);
      ghost var w1 := wrappers;
      ImproveLinked(x, linked);
      forall y | y in wrappers
        ensures wrappers[y] ==
          if Step(rawMap, x, y) && !Seen(old(wrappers), h, y).investigated
          then Relaxed(Seen(old(wrappers), h, y), x, old(wrappers)[x].known.value + 1)
          else Seen(old(wrappers), h, y)
      {
        assert w1[y] == Seen(old(wrappers), h, y);
        if y in linked {
          var m :| 0 <= m < |linked| && linked[m] == y;
        }
      }
    }

    /** The first loop of `relax`: a wrapper for every field linked to `x`, and the list
        of those not investigated yet. */
    method CollectLinked(x: int) returns (linked: seq<int>)
      requires WellFormed(rawMap)
      requires Sound(rawMap, h, toField, wrappers) && PoolOk(wrappers, pool)
      requires ClosedBut(rawMap, wrappers, Some(x))
      requires x in wrappers && wrappers[x].investigated
      requires fromField in wrappers ==> !wrappers[fromField].investigated
      modifies this
      ensures fromField in wrappers ==> !wrappers[fromField].investigated
      ensures Sound(rawMap, h, toField, wrappers) && PoolOk(wrappers, pool)
      ensures ClosedBut(rawMap, wrappers, Some(x))
      ensures pool == old(pool) && NotFull(rawMap, wrappers) == NotFull(rawMap, old(wrappers))
      ensures old(wrappers).Keys <= wrappers.Keys
      ensures forall y :: y in old(wrappers) ==> wrappers[y] == old(wrappers)[y]
      ensures forall n :: Step(rawMap, x, n) ==> n in wrappers && (!wrappers[n].investigated ==> n in linked)
      ensures forall m :: 0 <= m < |linked| ==>
        linked[m] in wrappers && !wrappers[linked[m]].investigated && Step(rawMap, x, linked[m])
      ensures forall y :: y in wrappers <==> y in old(wrappers) || Step(rawMap, x, y)
      ensures forall y :: y in wrappers && y !in old(wrappers) ==> wrappers[y] == Fresh(y, h)
    {
      var links := rawMap[x].links;
      var w := wrappers;
      linked := [];
      var i := 0;
      while i < |links|
        modifies {}
        invariant Collecting(rawMap, h, toField, fromField, wrappers, pool, x, w, i, linked)
      {
        var idOfLinked := OtherEnd(links[i], x);
        CollectStep(rawMap, h, toField, fromField, wrappers, pool, x, w, i, linked);
        if idOfLinked !in w {
          w := w[idOfLinked := Fresh(idOfLinked, h)];
        }
        if !w[idOfLinked].investigated {
          linked := linked + [idOfLinked];
        }
        i := i + 1;
      }
      forall n | Step(rawMap, x, n) ensures n in w && (!w[n].investigated ==> n in linked)
      {
        var m :| 0 <= m < |links| && OtherEnd(links[m], x) == n;
      }
      forall y | y in w && y !in wrappers ensures Step(rawMap, x, y)
      {
        var m :| 0 <= m < i && OtherEnd(links[m], x) == y;
      }
      wrappers := w;
    }

    /** The second loop of `relax`: every listed field whose length improves through
        `x` takes `x` as successor and enters the pool when its total was infinite. */
    method ImproveLinked(x: int, linked: seq<int>)
      requires Sound(rawMap, h, toField, wrappers) && PoolOk(wrappers, pool)
      requires ClosedBut(rawMap, wrappers, Some(x))
      requires x in wrappers && wrappers[x].investigated && x != fromField
      requires fromField in wrappers ==> !wrappers[fromField].investigated
      requires forall n :: Step(rawMap, x, n) ==> n in wrappers && (!wrappers[n].investigated ==> n in linked)
      requires forall m :: 0 <= m < |linked| ==>
        linked[m] in wrappers && !wrappers[linked[m]].investigated && Step(rawMap, x, linked[m])
      modifies this
      ensures wrappers.Keys == old(wrappers).Keys
      ensures Inv()
      ensures 2 * |NotFull(rawMap, wrappers)| + |pool| <= 2 * |NotFull(rawMap, old(wrappers))| + |old(pool)|
      ensures forall y :: y in old(wrappers) && old(wrappers)[y].investigated ==> wrappers[y] == old(wrappers)[y]
      ensures old(wrappers)[x].known.Some?
      ensures var d := old(wrappers)[x].known.value + 1;
        forall y :: y in old(wrappers) ==>
          wrappers[y] == if y in linked then Relaxed(old(wrappers)[y], x, d) else old(wrappers)[y]
      ensures old(pool) <= pool
    {
      InvestigatedKnown(rawMap, h, toField, wrappers, x);
      ghost var d := wrappers[x].known.value + 1;
      var j := 0;
      while j < |linked|
        invariant Improving(rawMap, h, toField, old(wrappers), old(pool), x, linked, j, wrappers, pool)
        invariant RelaxedUpTo(old(wrappers), old(pool), x, d, linked, j, wrappers, pool)
      {
        ImproveListed(x, linked, j, old(wrappers), old(pool), d);
        j := j + 1;
      }
      assert linked[..j] == linked;
      forall y | y in old(wrappers)
        ensures wrappers[y] == if y in linked then Relaxed(old(wrappers)[y], x, d) else old(wrappers)[y]
      {
        assert RelaxedAt(old(wrappers), x, d, linked[..j], wrappers, y);
      }
      RelaxedAllClosed(rawMap, h, toField, old(wrappers), x, linked, wrappers);
    }

    /** The `j`-th turn of the second loop of `relax`. */
    method ImproveListed(x: int, linked: seq<int>, j: int, ghost w0: map<int, Wrapper>, ghost p0: seq<int>, ghost d: nat)
      requires Improving(rawMap, h, toField, w0, p0, x, linked, j, wrappers, pool) && j < |linked|
      requires RelaxedUpTo(w0, p0, x, d, linked, j, wrappers, pool)
      requires w0[x].known.Some? && d == w0[x].known.value + 1
      modifies this
      ensures Improving(rawMap, h, toField, w0, p0, x, linked, j + 1, wrappers, pool)
      ensures RelaxedUpTo(w0, p0, x, d, linked, j + 1, wrappers, pool)
    {
      ghost var w, p := wrappers, pool;
      ImproveOne(x, linked[j]);
      ImproveStep(rawMap, h, toField, w0, p0, x, linked, j, w, p, wrappers, pool);
      RelaxedUpToStep(w0, p0, x, d, linked, j, w, p, wrappers, pool);
    }

    /** The body of the second loop of `relax` for the linked field `y`. */
    method ImproveOne(x: int, y: int)
      requires Sound(rawMap, h, toField, wrappers) && PoolOk(wrappers, pool)
      requires ClosedBut(rawMap, wrappers, Some(x))
      requires x in wrappers && wrappers[x].investigated
      requires y in wrappers && !wrappers[y].investigated && Step(rawMap, x, y)
      modifies this
      ensures Sound(rawMap, h, toField, wrappers) && PoolOk(wrappers, pool)
      ensures ClosedBut(rawMap, wrappers, Some(x))
      ensures wrappers.Keys == old(wrappers).Keys
      ensures forall z :: z in old(wrappers) && z != y ==> wrappers[z] == old(wrappers)[z]
      ensures !wrappers[y].investigated && wrappers[y].known.Some?
      ensures old(wrappers)[x].known.Some?
      ensures var d := old(wrappers)[x].known.value + 1;
        && wrappers[y] == Relaxed(old(wrappers)[y], x, d)
        && pool == old(pool) + (if Improves(d, old(wrappers)[y].known) && old(wrappers)[y].full.None? then [y] else [])
      ensures 2 * |NotFull(rawMap, wrappers)| + |pool| <= 2 * |NotFull(rawMap, old(wrappers))| + |old(pool)|
    {
      assert WrapperOk(rawMap, h, toField, wrappers, x);
      var newDist := wrappers[x].known.value + 1;
      if Improves(newDist, wrappers[y].known) {
        var newField := wrappers[y].full.None?;
        ImproveSound(rawMap, h, toField, wrappers, x, y);
        ImprovePool(rawMap, h, toField, wrappers, pool, x, y);
        wrappers := wrappers[y := Improved(wrappers, x, y)];
        if newField {
          Insert(y);
        }
      }
    }

    /** Follows the successors from the start field to the goal, collecting the
        locations of the fields passed. */
    method WalkBack() returns (result: Option<seq<Location>>)
      requires Sound(rawMap, h, toField, wrappers)
      requires fromField in wrappers && wrappers[fromField].known.Some?
      ensures result.Some? && exists r ::
        && |r| > 0 && r[0] == fromField && r[|r| - 1] == toField && BackRoute(rawMap, r)
        && (forall i :: 0 <= i < |r| ==> r[i] in rawMap)
        && result.value == Locations(rawMap, r)
      ensures fromField == toField ==> result == Some([rawMap[toField].location])
    {
      var cur := fromField;
      var path := [rawMap[cur].location];
      ghost var route := [cur];
      assert WrapperOk(rawMap, h, toField, wrappers, toField);
      assert WrapperOk(rawMap, h, toField, wrappers, cur);
      while wrappers[cur].next.Some?
        invariant cur in wrappers && wrappers[cur].known.Some?
        invariant Walked(rawMap, fromField, route, path, cur)
        invariant fromField == toField ==> route == [fromField]
        decreases wrappers[cur].known.value
      {
        SuccessorsLeadToGoal(rawMap, h, toField, wrappers, cur);
        var nxt := wrappers[cur].next.value;
        assert WrapperOk(rawMap, h, toField, wrappers, nxt);
        WalkStep(rawMap, fromField, route, path, cur, nxt);
        route := route + [nxt];
        path := path + [rawMap[nxt].location];
        cur := nxt;
      }
      SuccessorsLeadToGoal(rawMap, h, toField, wrappers, cur);
      result := Some(path);
    }
  }
}
