/** The client's action tweens (client tweens/ActionTween.java, SequenceTween.java and
    ParallelTween.java): a tween accumulates time and is done once its time reaches its
    length; a sequence runs its children one after another and carries the time left
    over by a finishing child into the next one; a parallel tween runs its children side
    by side and is as long as the longest of them. Time is a real number here. */
module Tweens {
  import opened Common

  /** A child tween: its length, the time elapsed and the done flag. What a tween moves
      along the way is not part of this model. */
  datatype Tween = Tween(length: real, time: real, done: bool)
  {
    /** Untouched since it was made. */
    predicate Fresh()
    {
      time == 0.0 && !done
    }

    /** The done flag tells whether the time has reached the length. */
    predicate Exact()
    {
      done == (time >= length)
    }

    /** The state after `progress(dt)`. */
    function Progressed(dt: real): Tween
    {
      Tween(length, time + dt, time + dt >= length)
    }
  }

  /** `new ActionTween(length)`: no time elapsed and not done. */
  function NewTween(length: real): (t: Tween)
    ensures t.Fresh() && t.length == length
  {
    Tween(length, 0.0, false)
  }

  /** `progress` adds the step to the time, and afterwards the done flag tells exactly
      whether the time has reached the length; a fresh tween of positive length is not
      done either. */
  lemma ProgressKeepsTime(t: Tween, dt: real)
    ensures t.Progressed(dt).time == t.time + dt && t.Progressed(dt).length == t.length
    ensures t.Progressed(dt).Exact()
    ensures t.Progressed(dt).done <==> t.time + dt >= t.length
    ensures t.Fresh() && t.length > 0.0 ==> t.Exact()
  {
  }

  /** The lengths of some tweens. */
  function Lengths(ts: seq<Tween>): (ls: seq<real>)
    ensures |ls| == |ts| && forall i :: 0 <= i < |ts| ==> ls[i] == ts[i].length
  {
    seq(|ts|, i requires 0 <= i < |ts| => ts[i].length)
  }

  /** The sum of some lengths, added up from the left. */
  function Sum(ls: seq<real>): real
  {
    if ls == [] then 0.0 else Sum(ls[..|ls| - 1]) + ls[|ls| - 1]
  }

  lemma SumStep(ls: seq<real>, k: nat)
    requires k < |ls|
    ensures Sum(ls[..k + 1]) == Sum(ls[..k]) + ls[k]
  {
    assert ls[..k + 1][..k] == ls[..k];
  }

  /** With non-negative lengths, a prefix up to and including `k` is at most the whole. */
  lemma {:induction false} SumPrefixBound(ls: seq<real>, k: nat)
    requires k < |ls| && forall i :: 0 <= i < |ls| ==> ls[i] >= 0.0
    ensures Sum(ls[..k + 1]) <= Sum(ls)
    decreases |ls| - k
  {
    if k + 1 < |ls| {
      SumPrefixBound(ls, k + 1);
      SumStep(ls, k + 1);
    } else {
      assert ls[..k + 1] == ls;
    }
  }

  /** The maximum of 0 and some lengths, folded from the left as `Math.max` does. */
  function MaxLength(ls: seq<real>): real
  {
    if ls == [] then 0.0
    else
      var m := MaxLength(ls[..|ls| - 1]);
      if ls[|ls| - 1] > m then ls[|ls| - 1] else m
  }

  /** The folded maximum is an upper bound of 0 and of every length, and it is 0 or
      one of the lengths. */
  lemma {:induction false} MaxLengthIsMaximum(ls: seq<real>)
    ensures MaxLength(ls) >= 0.0
    ensures forall i :: 0 <= i < |ls| ==> ls[i] <= MaxLength(ls)
    ensures MaxLength(ls) == 0.0 || exists i :: 0 <= i < |ls| && ls[i] == MaxLength(ls)
  {
    if ls != [] {
      var init := ls[..|ls| - 1];
      MaxLengthIsMaximum(init);
      assert forall i :: 0 <= i < |init| ==> init[i] == ls[i];
      if MaxLength(ls) != 0.0 && MaxLength(ls) != ls[|ls| - 1] {
        var i :| 0 <= i < |init| && init[i] == MaxLength(init);
        assert ls[i] == MaxLength(ls);
      }
    }
  }

  // ---------------------------------------------------------------- sequence

  /** The current child of a sequence of `n` children at index `idx`: the last one once
      the index has run past the end. */
  function Current(idx: nat, n: nat): (i: nat)
    requires n > 0
    ensures i < n && (i == idx || (idx >= n && i == n - 1))
  {
    if idx < n then idx else n - 1
  }

  /** The time used up by the children `ts` of the given lengths at index `idx`: every
      child before the current one its whole length, the current one its own time. */
  ghost function ConsumedBy(lengths: seq<real>, ts: seq<Tween>, idx: nat): real
    requires |ts| > 0 && |lengths| == |ts|
  {
    Sum(lengths[..Current(idx, |ts|)]) + ts[Current(idx, |ts|)].time
  }

  /** The state of the loop of `internalAction` that started with children `ts0` at
      index `idx0` and the step `dt`, and is now at children `ts`, index `idx` and step
      `step`: the children before the current one are done, the ones after it untouched,
      and the time used up reaches `target` once the remaining step is spent. */
  ghost predicate Running(lengths: seq<real>, ts0: seq<Tween>, idx0: nat, dt: real, target: real,
                          ts: seq<Tween>, idx: nat, step: real, continuing: bool)
  {
    var n := |ts|;
    && n > 0 && |ts0| == n && |lengths| == n
    && (forall i :: 0 <= i < n ==> ts[i].length == lengths[i])
    && idx >= idx0 && Current(idx, n) >= Current(idx0, n)
    && (forall i :: 0 <= i < Current(idx, n) ==> ts[i].done)
    && (forall i :: Current(idx, n) < i < n ==> ts[i].Fresh())
    && (forall i :: 0 <= i < Current(idx0, n) || Current(idx, n) < i < n ==> ts[i] == ts0[i])
    && (continuing ==> ConsumedBy(lengths, ts, idx) + step == target)
    && (continuing ==> ts[Current(idx, n)].Fresh() || ts[Current(idx, n)].Exact())
    && (continuing ==> idx < n ==> !ts[idx].done)
    && (continuing && idx != idx0 ==> idx < n && ts[idx].Fresh() && step >= 0.0)
    && (continuing && idx == idx0 ==> step == dt && ts == ts0)
    && (idx != idx0 ==> ts0[Current(idx0, n)].Progressed(dt).done)
    && (!continuing ==> ConsumedBy(lengths, ts, idx) == target && ts[Current(idx, n)].Exact())
    && (!continuing ==> idx < n ==> !ts[idx].done)
    && (!continuing ==> var c := ts0[Current(idx0, n)];
          c.time + dt < c.length ==> idx == idx0 && ts == ts0[Current(idx0, n) := c.Progressed(dt)])
  }

  /** One round of `internalAction` keeps the state of its loop. */
  lemma {:induction false} AdvanceKeepsRunning(lengths: seq<real>, ts0: seq<Tween>, idx0: nat, dt: real, target: real,
                                               ts: seq<Tween>, idx: nat, step: real,
                                               ts': seq<Tween>, idx': nat, more: bool, next: real)
    requires Running(lengths, ts0, idx0, dt, target, ts, idx, step, true)
    requires var c := Current(idx, |ts|);
      var t := ts[c].Progressed(step);
      && ts' == ts[c := t]
      && (t.done ==> idx' == idx + 1 && (more <==> idx' < |ts|) && (more ==> next == t.time - t.length))
      && (!t.done ==> idx' == idx && !more)
    ensures Running(lengths, ts0, idx0, dt, target, ts', idx', next, more)
  {
    var c := Current(idx, |ts|);
    if ts[c].Progressed(step).done {
      AdvanceToNext(lengths, ts0, idx0, dt, target, ts, idx, step, ts', more, next);
    } else {
      StayOnCurrent(lengths, ts0, idx0, dt, target, ts, idx, step, ts');
    }
  }

  /** The round of `internalAction` in which the current child is not done yet. */
  lemma {:induction false} StayOnCurrent(lengths: seq<real>, ts0: seq<Tween>, idx0: nat, dt: real, target: real,
                                         ts: seq<Tween>, idx: nat, step: real, ts': seq<Tween>)
    requires Running(lengths, ts0, idx0, dt, target, ts, idx, step, true)
    requires var c := Current(idx, |ts|);
      var t := ts[c].Progressed(step);
      ts' == ts[c := t] && !t.done
    ensures Running(lengths, ts0, idx0, dt, target, ts', idx, step, false)
  {
  }

  /** The round of `internalAction` in which the current child is done and the index
      moves on. */
  lemma {:induction false} AdvanceToNext(lengths: seq<real>, ts0: seq<Tween>, idx0: nat, dt: real, target: real,
                                         ts: seq<Tween>, idx: nat, step: real,
                                         ts': seq<Tween>, more: bool, next: real)
    requires Running(lengths, ts0, idx0, dt, target, ts, idx, step, true)
    requires var c := Current(idx, |ts|);
      var t := ts[c].Progressed(step);
      && ts' == ts[c := t] && t.done
      && (more <==> idx + 1 < |ts|) && (more ==> next == t.time - t.length)
    ensures Running(lengths, ts0, idx0, dt, target, ts', idx + 1, next, more)
  {
    SumStep(lengths, Current(idx, |ts|));
  }


  /** A tween that runs its children one after another. */
  class SequenceTween {
    const length: real
    var time: real
    var done: bool
    const tweens: array<Tween>
    /** The index of the current child; it keeps growing past the last child once the
        last child is done. */
    var idx: nat
    ghost const lengths: seq<real>

    /** `getIndex`: the current child, the last one once all are done. */
    function GetIndex(): (i: nat)
      reads this
      requires tweens.Length > 0
      ensures i < tweens.Length
      ensures i == idx || (idx >= tweens.Length && i == tweens.Length - 1)
    {
      Current(idx, tweens.Length)
    }

    /** The time used up by the children: every child before the current one has used
        its whole length, the current one its own time. */
    ghost function Consumed(): real
      reads this, tweens
      requires tweens.Length > 0 && |lengths| == tweens.Length
    {
      ConsumedBy(lengths, tweens[..], idx)
    }

    /** The children were fresh when the sequence started: the children before the
        current one are done, the ones after it are untouched, the current one is not
        done while the sequence is running, and the sequence's time is the time its
        children used up. */
    ghost predicate Valid()
      reads this, tweens
    {
      && tweens.Length > 0 && |lengths| == tweens.Length
      && (forall i :: 0 <= i < tweens.Length ==> tweens[i].length == lengths[i])
      && length == Sum(lengths)
      && time == Consumed()
      && (forall i :: 0 <= i < GetIndex() ==> tweens[i].done)
      && (forall i :: GetIndex() < i < tweens.Length ==> tweens[i].Fresh())
      && (tweens[GetIndex()].Fresh() || tweens[GetIndex()].Exact())
      && (idx < tweens.Length ==> !tweens[idx].done)
    }

    /** `getTotalLength`: the sum of the children's lengths. */
    static method GetTotalLength(children: seq<Tween>) returns (total: real)
      ensures total == Sum(Lengths(children))
    {
      total := 0.0;
      var i := 0;
      while i < |children|
        invariant 0 <= i <= |children|
        invariant total == Sum(Lengths(children)[..i])
      {
        SumStep(Lengths(children), i);
        total := total + children[i].length;
        i := i + 1;
      }
      assert Lengths(children)[..i] == Lengths(children);
    }

    /** The constructor for a non-empty list of children; `Create` handles the empty
        one. The sequence is as long as its children together, and starts at the first
        child. */
    constructor (children: seq<Tween>)
      requires children != []
      ensures tweens[..] == children && length == Sum(Lengths(children)) && lengths == Lengths(children)
      ensures time == 0.0 && !done && idx == 0
      ensures (forall c :: c in children ==> c.Fresh()) ==> Valid()
      ensures fresh(tweens)
    {
      var total := GetTotalLength(children);
      length := total;
      lengths := Lengths(children);
      tweens := new Tween[|children|](i requires 0 <= i < |children| => children[i]);
      time := 0.0;
      done := false;
      idx := 0;
      new;
      assert tweens[..] == children;
      if forall c :: c in children ==> c.Fresh() {
        assert forall i :: 0 <= i < tweens.Length ==> tweens[i].Fresh();
        assert lengths[..0] == [];
      }
    }

    /** `new SequenceTween(tweens)` as written: an empty list of children makes the constructor
        index past the end of the array. */
    static method CreateAsWritten(children: seq<Tween>) returns (r: Result<SequenceTween>)
      ensures children == [] <==> r.Err?
      ensures r.Err? ==> r.failure.kind == IndexOutOfBounds
      ensures r.Ok? ==> fresh(r.value) && fresh(r.value.tweens) && r.value.tweens[..] == children
      ensures r.Ok? ==> r.value.length == Sum(Lengths(children)) && r.value.time == 0.0 && !r.value.done
    {
      if children == [] {
        return Err(Failure(IndexOutOfBounds, "Index 0 out of bounds for length 0"));
      }
      var s := new SequenceTween(children);
      r := Ok(s);
    }

    /** `new SequenceTween(tweens)` as its test expects: an empty list is refused with
        an IllegalArgumentException before the first child is looked up. */
    static method Create(children: seq<Tween>) returns (r: Result<SequenceTween>)
      ensures children == [] <==> r.Err?
      ensures r.Err? ==> r.failure.kind == IllegalArgument
      ensures r.Ok? ==> fresh(r.value) && fresh(r.value.tweens) && r.value.tweens[..] == children
      ensures r.Ok? ==> r.value.length == Sum(Lengths(children)) && r.value.time == 0.0 && !r.value.done
      ensures r.Ok? && (forall c :: c in children ==> c.Fresh()) ==> r.value.Valid() && r.value.GetIndex() == 0
    {
      if children == [] {
        return Err(Failure(IllegalArgument, "A sequence tween needs at least one tween."));
      }
      var s := new SequenceTween(children);
      r := Ok(s);
    }

    /** `progress`: the sequence's time grows by the step, it is done once the time
        reaches its length, and its children are moved on by `internalAction`. */
    method Progress(dt: real) returns (result: bool)
      requires Valid()
      modifies this, tweens
      ensures Valid()
      ensures time == old(time) + dt && done == (time >= length) && result == done
      ensures idx >= old(idx) && GetIndex() >= old(GetIndex())
      ensures forall i :: old(GetIndex()) <= i < GetIndex() ==> tweens[i].done
      ensures forall i :: 0 <= i < old(GetIndex()) || GetIndex() < i < tweens.Length ==> tweens[i] == old(tweens[i])
      ensures var c := old(tweens[GetIndex()]);
        c.time + dt < c.length ==> idx == old(idx) && tweens[..] == old(tweens[..])[old(GetIndex()) := c.Progressed(dt)]
    {
      time := time + dt;
      done := time >= length;
      InternalAction(dt);
      result := done;
    }

    /** `internalAction`: the current child progresses by the step; while it reports
        done and another child follows, the time it ran over its length is carried into
        the next child. */
    method InternalAction(dt: real)
      requires tweens.Length > 0 && |lengths| == tweens.Length
      requires forall i :: 0 <= i < tweens.Length ==> tweens[i].length == lengths[i]
      requires forall i :: 0 <= i < GetIndex() ==> tweens[i].done
      requires forall i :: GetIndex() < i < tweens.Length ==> tweens[i].Fresh()
      requires tweens[GetIndex()].Fresh() || tweens[GetIndex()].Exact()
      requires idx < tweens.Length ==> !tweens[idx].done
      modifies this`idx, tweens
      ensures forall i :: 0 <= i < tweens.Length ==> tweens[i].length == lengths[i]
      ensures Consumed() == old(Consumed()) + dt
      ensures forall i :: 0 <= i < GetIndex() ==> tweens[i].done
      ensures forall i :: GetIndex() < i < tweens.Length ==> tweens[i].Fresh()
      ensures tweens[GetIndex()].Exact()
      ensures idx < tweens.Length ==> !tweens[idx].done
      ensures idx >= old(idx) && GetIndex() >= old(GetIndex())
      ensures forall i :: 0 <= i < old(GetIndex()) || GetIndex() < i < tweens.Length ==> tweens[i] == old(tweens[i])
      ensures var c := old(tweens[GetIndex()]);
        c.time + dt < c.length ==> idx == old(idx) && tweens[..] == old(tweens[..])[old(GetIndex()) := c.Progressed(dt)]
    {
      var step := dt;
      var continuing := true;
      ghost var target := Consumed() + dt;
      while continuing
        invariant Running(lengths, old(tweens[..]), old(idx), dt, target, tweens[..], idx, step, continuing)
        decreases if continuing then (if idx < tweens.Length then tweens.Length - idx else 0) + 1 else 0
      {
        ghost var ts, i0, s0 := tweens[..], idx, step;
        continuing, step := Advance(step);
        AdvanceKeepsRunning(lengths, old(tweens[..]), old(idx), dt, target, ts, i0, s0, tweens[..], idx, continuing, step);
      }
    }

    /** One round of `internalAction`: the current child progresses by the step; if it
        reports done, the index moves on, and if another child follows, the time the
        child ran over its length is the next step. */
    method Advance(step: real) returns (more: bool, next: real)
      requires tweens.Length > 0
      modifies this`idx, tweens
      ensures var c := old(GetIndex());
        var t := old(tweens[c]).Progressed(step);
        && tweens[..] == old(tweens[..])[c := t]
        && (t.done ==> idx == old(idx) + 1 && (more <==> idx < tweens.Length) && (more ==> next == t.time - t.length))
        && (!t.done ==> idx == old(idx) && !more)
    {
      var c := GetIndex();
      var t := tweens[c].Progressed(step);
      tweens[c] := t;
      more, next := false, step;
      if t.done {
        idx := idx + 1;
        if idx < tweens.Length {
          more, next := true, t.time - t.length;
        }
      }
    }

    /** Once the sequence's time reaches its length, every child is done, provided all
        children are of positive length. */
    lemma AllDoneOnceLengthReached()
      requires Valid() && forall i :: 0 <= i < |lengths| ==> lengths[i] > 0.0
      requires time >= length
      ensures forall i :: 0 <= i < tweens.Length ==> tweens[i].done
    {
      var n := tweens.Length;
      var g := GetIndex();
      SumStep(lengths, g);
      SumPrefixBound(lengths, g);
    }
  }

  // ---------------------------------------------------------------- parallel

  /** A tween that runs its children side by side; a child that is done is left alone. */
  class ParallelTween {
    const length: real
    var time: real
    var done: bool
    const tweens: array<Tween>
    ghost const lengths: seq<real>
    /** Whether the tween has been progressed at least once. */
    ghost var started: bool

    /** The children were fresh when the tween started; since then every child that is
        not done has run exactly as long as the tween. */
    ghost predicate Valid()
      reads this, tweens
    {
      && |lengths| == tweens.Length
      && (forall i :: 0 <= i < tweens.Length ==> tweens[i].length == lengths[i])
      && length == MaxLength(lengths)
      && (!started ==> time == 0.0 && !done && forall i :: 0 <= i < tweens.Length ==> tweens[i].Fresh())
      && (started ==> done == (time >= length))
      && (started ==> forall i :: 0 <= i < tweens.Length ==> tweens[i].Exact() && (tweens[i].done || tweens[i].time == time))
    }

    /** `getMaximumLength`: the longest child, and 0 for none. */
    static method GetMaximumLength(children: seq<Tween>) returns (m: real)
      ensures m == MaxLength(Lengths(children))
    {
      m := 0.0;
      var i := 0;
      while i < |children|
        invariant 0 <= i <= |children|
        invariant m == MaxLength(Lengths(children)[..i])
      {
        assert Lengths(children)[..i + 1][..i] == Lengths(children)[..i];
        if children[i].length > m {
          m := children[i].length;
        }
        i := i + 1;
      }
      assert Lengths(children)[..i] == Lengths(children);
    }

    /** `new ParallelTween(tweens)` as written: any list is taken, and an empty one
        makes a tween of length 0. */
    constructor (children: seq<Tween>)
      ensures tweens[..] == children && length == MaxLength(Lengths(children)) && lengths == Lengths(children)
      ensures children == [] ==> length == 0.0
      ensures time == 0.0 && !done
      ensures (forall c :: c in children ==> c.Fresh()) ==> Valid()
      ensures fresh(tweens)
    {
      var m := GetMaximumLength(children);
      length := m;
      lengths := Lengths(children);
      tweens := new Tween[|children|](i requires 0 <= i < |children| => children[i]);
      time := 0.0;
      done := false;
      started := false;
      new;
      assert tweens[..] == children;
      if forall c :: c in children ==> c.Fresh() {
        assert forall i :: 0 <= i < tweens.Length ==> tweens[i].Fresh();
      }
    }

    /** `new ParallelTween(tweens)` as documented: an empty list is refused, since it
        would make a tween without length. */
    static method Create(children: seq<Tween>) returns (r: Result<ParallelTween>)
      ensures children == [] <==> r.Err?
      ensures r.Err? ==> r.failure.kind == IllegalArgument
      ensures r.Ok? ==> fresh(r.value) && fresh(r.value.tweens) && r.value.tweens[..] == children
      ensures r.Ok? ==> r.value.length == MaxLength(Lengths(children)) && r.value.time == 0.0 && !r.value.done
      ensures r.Ok? ==> exists i :: 0 <= i < |children| && r.value.length >= children[i].length
      ensures r.Ok? && (forall c :: c in children ==> c.Fresh()) ==> r.value.Valid()
    {
      if children == [] {
        return Err(Failure(IllegalArgument, "A parallel tween needs at least one tween."));
      }
      var p := new ParallelTween(children);
      MaxLengthIsMaximum(Lengths(children));
      assert Lengths(children)[0] == children[0].length;
      r := Ok(p);
    }

    /** `progress`: the tween's time grows by the step and it is done once the time
        reaches its length; every child that is not done progresses by the same step. */
    method Progress(dt: real) returns (result: bool)
      requires Valid()
      modifies this, tweens
      ensures Valid() && started
      ensures time == old(time) + dt && done == (time >= length) && result == done
      ensures forall i :: 0 <= i < tweens.Length ==>
        tweens[i] == if old(tweens[i]).done then old(tweens[i]) else old(tweens[i]).Progressed(dt)
      ensures !old(started) && dt < 0.0 && (forall i :: 0 <= i < |lengths| ==> lengths[i] >= 0.0) ==>
        forall i :: 0 <= i < tweens.Length ==> !tweens[i].done
    {
      time := time + dt;
      done := time >= length;
      started := true;
      InternalAction(dt);
      result := done;
    }

    /** `internalAction`: progresses every child that is not done. */
    method InternalAction(dt: real)
      modifies tweens
      ensures forall i :: 0 <= i < tweens.Length ==>
        tweens[i] == if old(tweens[i]).done then old(tweens[i]) else old(tweens[i]).Progressed(dt)
    {
      var i := 0;
      while i < tweens.Length
        invariant 0 <= i <= tweens.Length
        invariant forall k :: 0 <= k < i ==>
          tweens[k] == if old(tweens[k]).done then old(tweens[k]) else old(tweens[k]).Progressed(dt)
        invariant forall k :: i <= k < tweens.Length ==> tweens[k] == old(tweens[k])
      {
        if !tweens[i].done {
          tweens[i] := tweens[i].Progressed(dt);
        }
        i := i + 1;
      }
    }

    /** Once the tween is done, so is every child. */
    lemma AllDoneWhenDone()
      requires Valid() && done
      ensures forall i :: 0 <= i < tweens.Length ==> tweens[i].done
    {
      MaxLengthIsMaximum(lengths);
    }
  }
}
