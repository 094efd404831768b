/** The client's mouse-wheel camera zoom (client camera/CameraZoom.java and its twin
    input/CameraZoom.java): a table of camera distances, the index of the distance in use
    and the index requested for the next update loop. Indices are Java bytes. */
module CameraZooms {
  import opened Common
  import ClientErrorCodes

  /** One notch of the mouse wheel moves the wheel delta by this much. */
  const StepSize: int := 120

  /** The smallest admissible closest distance (`.001f`, taken as an exact real). */
  const MinDist: real := 0.001

  const TooFewDistsPrefix: string := "Mouse zoom requires at least two available distances, but got "
  const MinDistTooSmallPrefix: string := "Minimum distance of mouse zoom needs to be well positive (above .001), but is "

  /** Java's byte range. */
  predicate IsByte(x: int) { -128 <= x <= 127 }

  /** `base` to the power of `i`. */
  function Pow(base: real, i: nat): (r: real)
    ensures base > 0.0 ==> r > 0.0
  {
    if i == 0 then 1.0 else base * Pow(base, i - 1)
  }

  /** The `i`-th distance of a table starting at `minDist` with ratio `base`. */
  function Dist(minDist: real, base: real, i: nat): real
  {
    minDist * Pow(base, i)
  }

  /** A base above one gives growing powers. */
  lemma {:induction false} PowGrows(base: real, i: nat)
    requires base > 1.0
    ensures Pow(base, i) < Pow(base, i + 1)
  {
    assert Pow(base, i) > 0.0;
    assert Pow(base, i + 1) == base * Pow(base, i);
  }

  /** An IllegalArgumentException of the constructor: the message, coded with C04278. */
  function CodedFailure(msg: string): Failure
  {
    Failure(IllegalArgument, ClientErrorCodes.AssembleCodedMsg(Some(msg), Some(ClientErrorCodes.C04278)))
  }

  /** A coded message that starts with `prefix` contains `prefix` and C04278. */
  lemma {:induction false} CodedFailureCarries(prefix: string, rest: string)
    ensures Contains(CodedFailure(prefix + rest).message, prefix)
    ensures Contains(CodedFailure(prefix + rest).message, ClientErrorCodes.C04278)
  {
    var msg := prefix + rest;
    var r := CodedFailure(msg).message;
    ClientErrorCodes.AssembledMessageCarriesMsgAndCode(Some(msg), Some(ClientErrorCodes.C04278));
    assert r[..|msg|] == msg;
    assert r[..|prefix|] == msg[..|prefix|] == prefix;
    ContainsWitness(r, prefix, 0);
  }

  /** The failure of the constructor for `numDists` and `minDist`, if any: too few
      distances is checked first, then a too small closest distance; both are
      IllegalArgumentExceptions carrying C04278. */
  function ConstructionFailure(minDist: real, numDists: int): (r: Option<Failure>)
    ensures r.None? <==> numDists >= 2 && minDist >= MinDist
    ensures r.Some? ==> r.value.kind == IllegalArgument && Contains(r.value.message, ClientErrorCodes.C04278)
    ensures numDists < 2 ==> r.Some? && Contains(r.value.message, TooFewDistsPrefix)
    ensures numDists >= 2 && minDist < MinDist ==> r.Some? && Contains(r.value.message, MinDistTooSmallPrefix)
  {
    if numDists < 2 then
      CodedFailureCarries(TooFewDistsPrefix, IntToString(numDists) + ".");
      Some(CodedFailure(TooFewDistsPrefix + (IntToString(numDists) + ".")))
    else if minDist < MinDist then
      CodedFailureCarries(MinDistTooSmallPrefix, ".");
      Some(CodedFailure(MinDistTooSmallPrefix + "."))
    else
      None
  }

  /** `nextIdx -= (byte)(steps/120)` followed by the clamp, as written: the quotient is
      cast to a byte and the difference is stored back into a byte, both wrapping
      around; only then is the index clamped to the table. */
  function NextIndexAsWritten(nextIdx: int, steps: int, count: int): (r: int)
    requires 2 <= count <= 127 && 0 <= nextIdx < count
    ensures 0 <= r < count
  {
    var n := ToByte(nextIdx - ToByte(JavaDiv(steps, StepSize)));
    if n < 0 then 0 else if n >= count then ToByte(count - 1) else n
  }

  /** The index the wheel evidently asks for: move down by the number of whole notches
      and stop at either end of the table. */
  function NextIndex(nextIdx: int, steps: int, count: int): (r: int)
    requires 2 <= count <= 127 && 0 <= nextIdx < count
    ensures 0 <= r < count
  {
    Clamp(nextIdx - JavaDiv(steps, StepSize), 0, count - 1)
  }

  /** The corrected index moves by exactly the whole notches while it stays in the
      table, and sticks to the nearest end otherwise. */
  lemma {:induction false} NextIndexMovesByNotches(nextIdx: int, steps: int, count: int)
    requires 2 <= count <= 127 && 0 <= nextIdx < count
    ensures var q := JavaDiv(steps, StepSize);
      && (0 <= nextIdx - q < count ==> NextIndex(nextIdx, steps, count) == nextIdx - q)
      && (nextIdx - q < 0 ==> NextIndex(nextIdx, steps, count) == 0)
      && (nextIdx - q >= count ==> NextIndex(nextIdx, steps, count) == count - 1)
      && (-StepSize < steps < StepSize ==> NextIndex(nextIdx, steps, count) == nextIdx)
  {
    var q := JavaDiv(steps, StepSize);
    if -StepSize < steps < StepSize {
      assert q == 0;
    }
  }

  /** Turning the wheel far enough towards the target reaches the closest distance,
      far enough away from it the furthest one. */
  lemma {:induction false} FarTurnsReachTheEnds(nextIdx: int, steps: int, count: int)
    requires 2 <= count <= 127 && 0 <= nextIdx < count
    ensures steps >= StepSize * count ==> NextIndex(nextIdx, steps, count) == 0
    ensures steps <= -StepSize * count ==> NextIndex(nextIdx, steps, count) == count - 1
  {
    var q := JavaDiv(steps, StepSize);
    if steps >= StepSize * count {
      assert q >= count by {
        assert steps / StepSize >= (StepSize * count) / StepSize;
      }
    }
    if steps <= -StepSize * count {
      assert q <= -count by {
        assert (-steps) / StepSize >= (StepSize * count) / StepSize;
      }
    }
  }

  /** As long as neither byte cast wraps, the code as written asks for the intended index. */
  lemma {:induction false} AsWrittenAgreesWithoutWrapping(nextIdx: int, steps: int, count: int)
    requires 2 <= count <= 127 && 0 <= nextIdx < count
    requires IsByte(JavaDiv(steps, StepSize)) && IsByte(nextIdx - JavaDiv(steps, StepSize))
    ensures NextIndexAsWritten(nextIdx, steps, count) == NextIndex(nextIdx, steps, count)
  {
    var q := JavaDiv(steps, StepSize);
    ToByteKeepsBytes(q);
    ToByteKeepsBytes(nextIdx - q);
    ToByteKeepsBytes(count - 1);
  }

  /** 200 notches towards the target from the far end of a two-distance table: the byte
      cast turns the 200 into -56, so the index is pushed away from the target and
      stays at the far end instead of reaching the closest distance. */
  lemma TwoHundredNotchesGoTheWrongWay()
    ensures NextIndexAsWritten(1, 24000, 2) == 1
    ensures NextIndex(1, 24000, 2) == 0
  {
    assert JavaDiv(24000, StepSize) == 200;
    assert ToByte(200) == -56;
    assert ToByte(1 - -56) == 57;
  }

  /** A camera zoom. `dists` is the table of distances, `curIdx` the index in use and
      `nextIdx` the index for the next update loop. */
  class CameraZoom {
    const dists: array<real>
    var curIdx: int
    var nextIdx: int

    ghost predicate Valid()
      reads this
    {
      && 2 <= dists.Length <= 127
      && 0 <= curIdx < dists.Length
      && 0 <= nextIdx < dists.Length
    }

    /** The table of distances after a successful construction. `base` stands for
        `Math.pow(maxDist/minDist, 1d/(numDists-1))`, which the caller computes: real
        roots and the float rounding of the table are not part of this model. */
    constructor(minDist: real, base: real, numDists: int)
      requires 2 <= numDists <= 127
      ensures Valid()
      ensures fresh(dists)
      ensures dists.Length == numDists
      ensures forall i :: 0 <= i < numDists ==> dists[i] == Dist(minDist, base, i)
      ensures curIdx == nextIdx == numDists / 2
    {
      var table := new real[numDists];
      var i := 0;
      while i < numDists
        invariant 0 <= i <= numDists
        invariant forall k :: 0 <= k < i ==> table[k] == Dist(minDist, base, k)
      {
        table[i] := Dist(minDist, base, i);
        i := i + 1;
      }
      dists := table;
      curIdx := numDists / 2;
      nextIdx := numDists / 2;
    }

    /** `new CameraZoom(minDist, maxDist, numDists)`: the checks of the constructor,
        then the table. `numDists` is a Java byte. */
    static method Create(minDist: real, base: real, numDists: int) returns (r: Result<CameraZoom>)
      requires IsByte(numDists)
      ensures r.Err? <==> ConstructionFailure(minDist, numDists).Some?
      ensures r.Err? ==> r.failure == ConstructionFailure(minDist, numDists).value
      ensures r.Ok? ==>
        && r.value.Valid() && fresh(r.value) && fresh(r.value.dists)
        && r.value.dists.Length == numDists
        && r.value.dists[0] == minDist
        && (forall i :: 0 <= i < numDists ==> r.value.dists[i] == Dist(minDist, base, i))
        && r.value.curIdx == r.value.nextIdx == numDists / 2
    {
      var failure := ConstructionFailure(minDist, numDists);
      if failure.Some? {
        return Err(failure.value);
      }
      var zoom := new CameraZoom(minDist, base, numDists);
      assert zoom.dists[0] == Dist(minDist, base, 0) == minDist * Pow(base, 0);
      return Ok(zoom);
    }

    /** The distance in use. */
    function GetCurrentDist(): (r: real)
      requires Valid()
      reads this, dists
      ensures r == dists[curIdx]
    {
      dists[curIdx]
    }

    /** `changeNextZoomDistanceBy` / `changeZoomDistanceBy`, corrected: moves the
        requested index by the whole notches in `steps`, stopping at the ends. */
    method ChangeNextZoomDistanceBy(steps: int)
      requires Valid()
      modifies this
      ensures Valid()
      ensures nextIdx == NextIndex(old(nextIdx), steps, dists.Length)
      ensures curIdx == old(curIdx)
    {
      nextIdx := nextIdx - JavaDiv(steps, StepSize);
      if nextIdx < 0 {
        nextIdx := 0;
      } else if nextIdx >= dists.Length {
        nextIdx := dists.Length - 1;
      }
    }

    /** `changeNextZoomDistanceBy` / `changeZoomDistanceBy` as written, with the byte
        wrap-around of the compound assignment. */
    method ChangeNextZoomDistanceByAsWritten(steps: int)
      requires Valid()
      modifies this
      ensures Valid()
      ensures nextIdx == NextIndexAsWritten(old(nextIdx), steps, dists.Length)
      ensures curIdx == old(curIdx)
    {
      nextIdx := ToByte(nextIdx - ToByte(JavaDiv(steps, StepSize)));
      if nextIdx < 0 {
        nextIdx := 0;
      } else if nextIdx >= dists.Length {
        nextIdx := ToByte(dists.Length - 1);
      }
    }

    /** `hasChanges`: an update is due exactly when the index requested for the next
        update differs from the one in use. */
    predicate HasChanges(): (due: bool)
      reads this
      ensures due <==> nextIdx != curIdx
    {
      curIdx != nextIdx
    }

    /** `updateDist`: takes the requested index into use and returns its distance;
        afterwards no update is due until the wheel turns again. */
    method UpdateDist() returns (dist: real)
      requires Valid()
      modifies this
      ensures Valid()
      ensures curIdx == old(nextIdx) && nextIdx == old(nextIdx)
      ensures dist == dists[old(nextIdx)]
      ensures !HasChanges()
    {
      curIdx := nextIdx;
      dist := GetCurrentDist();
    }
  }

  /** On a zoom without a pending update, a turn makes one due exactly when it has at
      least one whole notch and the requested index is not already at the end it turns
      towards: positive steps move towards the closest distance, index 0. */
  lemma {:induction false} TurnMakesUpdateDue(cur: int, steps: int, count: int)
    requires 2 <= count <= 127 && 0 <= cur < count
    ensures NextIndex(cur, steps, count) != cur <==>
      (steps >= StepSize && cur > 0) || (steps <= -StepSize && cur < count - 1)
  {
    NextIndexMovesByNotches(cur, steps, count);
    var q := JavaDiv(steps, StepSize);
    if steps >= StepSize {
      assert q >= 1;
    } else if steps <= -StepSize {
      assert q <= -1;
    } else {
      assert q == 0;
    }
  }

  /** A turn of less than one notch asks for no change, so a zoom without pending
      changes stays without them. */
  lemma {:induction false} PartialNotchChangesNothing(nextIdx: int, steps: int, count: int)
    requires 2 <= count <= 127 && 0 <= nextIdx < count
    requires -StepSize < steps < StepSize
    ensures NextIndex(nextIdx, steps, count) == nextIdx
    ensures NextIndexAsWritten(nextIdx, steps, count) == nextIdx
  {
    NextIndexMovesByNotches(nextIdx, steps, count);
    assert JavaDiv(steps, StepSize) == 0;
    AsWrittenAgreesWithoutWrapping(nextIdx, steps, count);
  }
}
