/** The figurines of the virtual host: a figurine walks along a path as a sequence of
    shifts between consecutive waypoints (virtualhost figurine/Figurine.java), and the
    controller looks figurines up for the messages and requests that name them
    (virtualhost figurine/FigurineController.java). */
module Figurines {
  import opened Common
  import opened Values
  import opened Broker
  import Names
  import VHostErrorCodes
  import BoardControl
  import Board

  /** The time a figurine takes from one field to the next, in seconds. */
  const TimePerHex: real := 0.33

  /** One shift of a path: from a start to a goal location in the given time. */
  datatype Shift = Shift(start: Location, goal: Location, length: real)

  /** The sequence tween of a walk: its shifts and the time elapsed so far. */
  datatype PathTween = PathTween(shifts: seq<Shift>, elapsed: real)

  /** The length of a sequence of shifts: the sum of their lengths. */
  function TotalLength(shifts: seq<Shift>): real
  {
    if shifts == [] then 0.0 else shifts[0].length + TotalLength(shifts[1..])
  }

  /** The shifts walk the waypoints pair by pair, each in `TimePerHex`. */
  ghost predicate Follows(shifts: seq<Shift>, waypoints: seq<Location>)
  {
    && |shifts| + 1 == |waypoints|
    && forall i :: 0 <= i < |shifts| ==> shifts[i] == Shift(waypoints[i], waypoints[i + 1], TimePerHex)
  }

  /** The locations a sequence of shifts passes: the first start, then every goal. */
  function Waypoints(shifts: seq<Shift>): seq<Location>
  {
    if shifts == [] then [] else [shifts[0].start] + seq(|shifts|, i requires 0 <= i < |shifts| => shifts[i].goal)
  }

  /** The shifts built from waypoints lead back to exactly those waypoints. */
  lemma {:induction false} FollowedWaypointsComeBack(shifts: seq<Shift>, waypoints: seq<Location>)
    requires |waypoints| >= 2 && Follows(shifts, waypoints)
    ensures Waypoints(shifts) == waypoints
  {
    var w := Waypoints(shifts);
    assert |w| == |waypoints|;
    forall i | 0 <= i < |w| ensures w[i] == waypoints[i]
    {
      if i > 0 {
        assert shifts[i - 1] == Shift(waypoints[i - 1], waypoints[i], TimePerHex);
        assert w[i] == shifts[i - 1].goal;
      } else {
        assert shifts[0] == Shift(waypoints[0], waypoints[1], TimePerHex);
        assert w[0] == shifts[0].start;
      }
    }
  }

  /** A walk of n shifts of `TimePerHex` each takes n times that long. */
  lemma {:induction false} UniformShiftsLength(shifts: seq<Shift>)
    requires forall i :: 0 <= i < |shifts| ==> shifts[i].length == TimePerHex
    ensures TotalLength(shifts) == |shifts| as real * TimePerHex
  {
    if shifts != [] {
      assert forall i :: 0 <= i < |shifts[1..]| ==> shifts[1..][i] == shifts[i + 1];
      UniformShiftsLength(shifts[1..]);
    }
  }

  // ---------------------------------------------------------------- shift tweens

  /** A `ShiftTween` of the virtual host: its shift, the time its own `progress` has
      counted, and its done flag. */
  datatype ShiftState = ShiftState(shift: Shift, time: real, done: bool)

  /** `new ShiftTween(start, goal, length)`: no time counted, not done. */
  function NewShift(shift: Shift): (s: ShiftState)
    ensures s.shift == shift && s.time == 0.0 && !s.done
  {
    ShiftState(shift, 0.0, false)
  }

  /** The point the fraction `f` of the way from `a` to `b`. */
  function Lerp(a: Location, b: Location, f: real): (p: Location)
    ensures f == 0.0 ==> p == a
    ensures f == 1.0 ==> p == b
  {
    Location(a.x + (b.x - a.x) * f, a.y + (b.y - a.y) * f, a.z + (b.z - a.z) * f)
  }

  /** `ShiftTween.internalAction` followed by `getCurrentPos`: the goal once the tween
      is done, otherwise the point as far along the shift as its counted time (never
      before the start) is along its length. */
  function ShiftPos(s: ShiftState): (p: Location)
    requires s.shift.length > 0.0
    ensures s.done ==> p == s.shift.goal
    ensures !s.done && s.time <= 0.0 ==> p == s.shift.start
  {
    if s.done then s.shift.goal
    else Lerp(s.shift.start, s.shift.goal, (if s.time > 0.0 then s.time else 0.0) / s.shift.length)
  }

  /** `progress` on a shift tween, as `ActionTween.progress` does it: the time grows by
      the step and the tween is done once the time reaches its length. */
  function ShiftProgress(s: ShiftState, dt: real): (r: ShiftState)
    ensures r.shift == s.shift && r.time == s.time + dt && r.done == (r.time >= s.shift.length)
  {
    ShiftState(s.shift, s.time + dt, s.time + dt >= s.shift.length)
  }

  /** `ShiftObjectTween.internalAction` as written: it calls only the inner tween's
      `internalAction`, which never counts time, and puts the object where the inner
      tween stands. The inner tween comes back unchanged. */
  function ObjectStepAsWritten(s: ShiftState, dt: real): (r: (ShiftState, Location))
    requires s.shift.length > 0.0
    ensures r.0 == s && r.1 == ShiftPos(s)
  {
    (s, ShiftPos(s))
  }

  /** `ShiftObjectTween.internalAction` corrected: the inner tween progresses by the
      step, so its time is counted, and the object moves to where it then stands. */
  function ObjectStep(s: ShiftState, dt: real): (r: (ShiftState, Location))
    requires s.shift.length > 0.0
    ensures r.0 == ShiftProgress(s, dt) && r.1 == ShiftPos(r.0)
  {
    var next := ShiftProgress(s, dt);
    (next, ShiftPos(next))
  }

  /** The inner tween after the steps `dts`, as written; the object then stands at
      its `ShiftPos`. */
  function RunAsWritten(s: ShiftState, dts: seq<real>): ShiftState
    requires s.shift.length > 0.0
    decreases |dts|
  {
    if dts == [] then s else RunAsWritten(ObjectStepAsWritten(s, dts[0]).0, dts[1..])
  }

  /** The inner tween after the steps `dts`, corrected. */
  function Run(s: ShiftState, dts: seq<real>): (r: ShiftState)
    requires s.shift.length > 0.0
    ensures r.shift == s.shift
    decreases |dts|
  {
    if dts == [] then s else Run(ObjectStep(s, dts[0]).0, dts[1..])
  }

  /** The sum of the time steps. */
  function TimeSum(dts: seq<real>): real
  {
    if dts == [] then 0.0 else dts[0] + TimeSum(dts[1..])
  }

  /** As written, an object never leaves the start of its shift: whatever the steps,
      the inner tween counts no time, so it stays where it began. */
  lemma {:induction false} AsWrittenShiftStaysAtStart(s: ShiftState, dts: seq<real>)
    requires s == NewShift(s.shift) && s.shift.length > 0.0
    ensures RunAsWritten(s, dts) == s
    ensures ShiftPos(RunAsWritten(s, dts)) == s.shift.start
    decreases |dts|
  {
    if dts != [] {
      AsWrittenShiftStaysAtStart(s, dts[1..]);
    }
  }

  /** Corrected, the inner tween counts exactly the steps it is given, and after at
      least one step it is done exactly when that time has reached its length. */
  lemma {:induction false} RunCountsTime(s: ShiftState, dts: seq<real>)
    requires s.shift.length > 0.0
    ensures Run(s, dts).shift == s.shift
    ensures Run(s, dts).time == s.time + TimeSum(dts)
    ensures dts != [] ==> Run(s, dts).done == (Run(s, dts).time >= s.shift.length)
    decreases |dts|
  {
    if dts != [] {
      RunCountsTime(ObjectStep(s, dts[0]).0, dts[1..]);
    }
  }

  /** Corrected, steps that add up to the shift's length bring the object to the goal. */
  lemma CorrectedShiftReachesGoal(s: ShiftState, dts: seq<real>)
    requires s == NewShift(s.shift) && s.shift.length > 0.0
    requires dts != [] && TimeSum(dts) >= s.shift.length
    ensures ShiftPos(Run(s, dts)) == s.shift.goal
  {
    RunCountsTime(s, dts);
  }

  /** Corrected, one step shorter than the shift puts the object that fraction of the
      way along it. */
  lemma CorrectedShiftInterpolates(s: ShiftState, dt: real)
    requires s == NewShift(s.shift) && s.shift.length > 0.0
    requires 0.0 <= dt < s.shift.length
    ensures ObjectStep(s, dt).1 == Lerp(s.shift.start, s.shift.goal, dt / s.shift.length)
  {
  }

  /** The variable part of a figurine. */
  datatype FigurineState = FigurineState(
    location: Location, fieldId: int, telemetryChanged: bool, currentTween: Option<PathTween>)

  /** The telemetry a figurine reports to the clients. */
  datatype Telemetry = Telemetry(id: string, location: Location, fieldId: int)

  /** A figurine: its id, where it stands, whether its telemetry changed, and the walk
      it is on, if any. */
  class Figurine {
    const id: string
    var location: Location
    var fieldId: int
    var telemetryChanged: bool
    var currentTween: Option<PathTween>

    /** A walk in progress has shifts and has not yet reached its length. */
    ghost predicate Valid()
      reads this
    {
      currentTween.Some? ==>
        currentTween.value.shifts != [] && currentTween.value.elapsed < TotalLength(currentTween.value.shifts)
    }

    /** A new figurine stands at the origin, idle, with telemetry to report. */
    constructor (id: string)
      ensures this.id == id && location == Location(0.0, 0.0, 0.0) && fieldId == 0
      ensures telemetryChanged && currentTween.None?
      ensures Valid()
    {
      this.id := id;
      location := Location(0.0, 0.0, 0.0);
      fieldId := 0;
      telemetryChanged := true;
      currentTween := None;
    }

    /** `update`: an idle figurine stays as it is; a walking one advances its walk by
        the time step, moves to `pos`, has changed telemetry, and goes idle once the
        walk is done. `pos` is where the shift in progress puts the figurine after the
        step, as `ObjectStep` computes it for one shift; the sequence tween that picks
        the shift in progress is not part of this model. */
    method Update(tpf: real, pos: Location)
      requires Valid()
      modifies this
      ensures Valid()
      ensures fieldId == old(fieldId)
      ensures old(currentTween).None? ==>
        currentTween.None? && telemetryChanged == old(telemetryChanged) && location == old(location)
      ensures old(currentTween).Some? ==>
        var t := old(currentTween).value;
        && telemetryChanged && location == pos
        && (t.elapsed + tpf >= TotalLength(t.shifts) ==> currentTween.None?)
        && (t.elapsed + tpf < TotalLength(t.shifts) ==> currentTween == Some(PathTween(t.shifts, t.elapsed + tpf)))
    {
      if currentTween.Some? {
        var t := currentTween.value;
        var elapsed := t.elapsed + tpf;
        location := pos;
        telemetryChanged := true;
        if elapsed >= TotalLength(t.shifts) {
          currentTween := None;
        } else {
          currentTween := Some(PathTween(t.shifts, elapsed));
        }
      }
    }

    /** `setPath`: a missing path or one of fewer than two waypoints is ignored;
        otherwise the figurine starts a new walk of one shift per pair of consecutive
        waypoints. */
    method SetPath(waypoints: Option<seq<Location>>)
      requires Valid()
      modifies this
      ensures Valid()
      ensures location == old(location) && fieldId == old(fieldId) && telemetryChanged == old(telemetryChanged)
      ensures waypoints.None? || |waypoints.value| < 2 ==> currentTween == old(currentTween)
      ensures waypoints.Some? && |waypoints.value| >= 2 ==>
        && currentTween.Some? && currentTween.value.elapsed == 0.0
        && Follows(currentTween.value.shifts, waypoints.value)
        && Waypoints(currentTween.value.shifts) == waypoints.value
    {
      if waypoints.None? || |waypoints.value| < 2 {
        return;
      }
      var w := waypoints.value;
      var from := w[0];
      var shifts: seq<Shift> := [];
      var idx := 1;
      while idx < |w|
        invariant 1 <= idx <= |w|
        invariant from == w[idx - 1]
        invariant Follows(shifts, w[..idx])
      {
        var to := w[idx];
        shifts := shifts + [Shift(from, to, TimePerHex)];
        from := to;
        idx := idx + 1;
      }
      assert w[..idx] == w;
      assert Follows(shifts, w);
      forall i | 0 <= i < |shifts| ensures shifts[i].length == TimePerHex
      {
        assert shifts[i] == Shift(w[i], w[i + 1], TimePerHex);
      }
      FollowedWaypointsComeBack(shifts, w);
      UniformShiftsLength(shifts);
      currentTween := Some(PathTween(shifts, 0.0));
    }

    /** `getTelemetry`: the id, location and field of the figurine, the same ones its
        transfer object carries. */
    function GetTelemetry(): (t: Telemetry)
      reads this
      ensures t.id == AsDTO().id && t.location == AsDTO().location && t.fieldId == AsDTO().fieldId
    {
      Telemetry(id, location, fieldId)
    }

    /** Everything about the figurine that can change. */
    function State(): FigurineState
      reads this
    {
      FigurineState(location, fieldId, telemetryChanged, currentTween)
    }

    /** `asDTO`, without the colours: what the figurine list tells about the figurine. */
    function AsDTO(): (d: FigurineDTO)
      reads this
      ensures d.id == id && d.location == location && d.fieldId == fieldId
    {
      FigurineDTO(id, location, fieldId)
    }

    /** `getTelemetry` as written: the snapshot, while `telemetryChanged` stays as it
        was, although the method's documentation says reading clears it. */
    method GetTelemetryAsWritten() returns (t: Telemetry)
      requires Valid()
      ensures t == GetTelemetry()
      ensures telemetryChanged == old(telemetryChanged)
    {
      t := GetTelemetry();
    }

    /** `getTelemetry` as documented: the snapshot, and the flag is cleared, so the
        same state is not reported twice. Nothing else changes. */
    method TakeTelemetry() returns (t: Telemetry)
      requires Valid()
      modifies this
      ensures Valid()
      ensures t == old(GetTelemetry()) && !telemetryChanged
      ensures GetTelemetry() == old(GetTelemetry()) && currentTween == old(currentTween)
    {
      t := GetTelemetry();
      telemetryChanged := false;
    }

    /** `getFindPathToFieldMessage`: the figurine goes idle and asks for a path from
        the field it stands on, as its telemetry reports it, to the goal. */
    method GetFindPathToFieldMessage(toFieldId: int) returns (msg: Message)
      requires Valid()
      modifies this
      ensures Valid()
      ensures currentTween.None?
      ensures GetTelemetry() == old(GetTelemetry()) && telemetryChanged == old(telemetryChanged)
      ensures msg.headline == Names.PLEASE_FIND_PATH
      ensures msg.content.FindPathRequest?
      ensures msg.content.requester == GetTelemetry().id && msg.content.fromFieldId == GetTelemetry().fieldId
      ensures msg.content.toFieldId == toFieldId
    {
      currentTween := None;
      msg := Message(Names.PLEASE_FIND_PATH, FindPathRequest(id, fieldId, toFieldId));
    }
  }

  // ---------------------------------------------------------------- the controller

  /** The id and the field of the one figurine the controller places. */
  const FirstFigurineId: string := "0"
  const FirstFieldId: int := 15

  const ContentPrefix: string := "Expected content to be a PathForFigurine, but got an instance of class "

  /** The fetch command asking the board for the location of the first field. */
  function FirstFieldFetch(): (f: FetchCommand)
    ensures f.command == Names.BOARD_FIELD_LOCATION && f.parms == IntVal(FirstFieldId)
  {
    FetchCommand(Names.BOARD_FIELD_LOCATION, IntVal(FirstFieldId))
  }

  function CodedFailure(kind: ExceptionKind, msg: string): Failure
  {
    Failure(kind, VHostErrorCodes.AssembleCodedMsg(Some(msg), Some(VHostErrorCodes.V62000)))
  }

  /** The location in the board's reply to the location request: an empty reply, an
      empty first answer and a first answer that is not a location are refused. */
  function LocationReply(list: seq<Option<Value>>): (r: Result<Location>)
    ensures r.Ok? <==> list != [] && list[0].Some? && list[0].value.LocVal?
    ensures r.Ok? ==> r.value == list[0].value.loc
    ensures list == [] ==> r == Err(CodedFailure(NullPointer, "No list of locations."))
    ensures list != [] && list[0].None? ==> r == Err(CodedFailure(NullPointer, "No location present."))
    ensures list != [] && list[0].Some? && !list[0].value.LocVal? ==>
      r == Err(CodedFailure(ClassCast, "Object is not a location."))
  {
    if list == [] then Err(CodedFailure(NullPointer, "No list of locations."))
    else if list[0].None? then Err(CodedFailure(NullPointer, "No location present."))
    else if !list[0].value.LocVal? then Err(CodedFailure(ClassCast, "Object is not a location."))
    else Ok(list[0].value.loc)
  }

  /** The reply of the board channel to a fetch, empty answers skipped. */
  function BoardReply(subscribers: map<string, seq<ReceiverId>>, fetch: FetchCommand, answer: Answers)
    : seq<Option<Value>>
  {
    if Names.GET_BOARD_DATA in subscribers then Collected(subscribers[Names.GET_BOARD_DATA], fetch, true, answer) else []
  }

  /** When the board controller is the only receiver on the board channel, the first
      figurine is placed exactly when the board has field 15, and then on that field's
      location; otherwise the empty reply is refused as a missing list. */
  lemma {:induction false} FirstFigurineStandsOnTheBoard(subscribers: map<string, seq<ReceiverId>>,
                                                         board: ReceiverId, fields: map<int, Board.FieldData>,
                                                         answer: Answers)
    requires Names.GET_BOARD_DATA in subscribers && subscribers[Names.GET_BOARD_DATA] == [board]
    requires answer(board, FirstFieldFetch()) == BoardControl.FieldLocation(fields, IntVal(FirstFieldId)).value
    ensures var r := LocationReply(BoardReply(subscribers, FirstFieldFetch(), answer));
      && (r.Ok? <==> FirstFieldId in fields)
      && (r.Ok? ==> r.value == fields[FirstFieldId].location)
      && (r.Err? ==> r == Err(CodedFailure(NullPointer, "No list of locations.")))
  {
    var rs := [board];
    var f := FirstFieldFetch();
    assert rs[..|rs| - 1] == [];
    assert BoardReply(subscribers, f, answer)
        == Collected([], f, true, answer) + (if answer(board, f).Some? then [answer(board, f)] else []);
  }

  function SetPathFailure(parm: Value): Failure
    requires parm != Null
  {
    Failure(ClassCast, VHostErrorCodes.AssembleCodedMsg(
      Some(ContentPrefix + SimpleName(parm) + " instead"), Some(VHostErrorCodes.V94039)))
  }

  function RequestPathFailure(parm: Value): Failure
    requires parm != Null
  {
    Failure(ClassCast, VHostErrorCodes.AssembleCodedMsg(
      Some(ContentPrefix + SimpleName(parm) + " instead"), Some(VHostErrorCodes.V98915)))
  }

  /** Both refusals name the class they got, each with its own code. */
  lemma ContentRefusalsCarryCodes(parm: Value)
    requires parm != Null
    ensures Contains(SetPathFailure(parm).message, ContentPrefix + SimpleName(parm) + " instead")
    ensures Contains(SetPathFailure(parm).message, VHostErrorCodes.V94039)
    ensures Contains(RequestPathFailure(parm).message, ContentPrefix + SimpleName(parm) + " instead")
    ensures Contains(RequestPathFailure(parm).message, VHostErrorCodes.V98915)
  {
    VHostErrorCodes.AssembledMessageCarriesMsgAndCode(
      Some(ContentPrefix + SimpleName(parm) + " instead"), Some(VHostErrorCodes.V94039));
    VHostErrorCodes.AssembledMessageCarriesMsgAndCode(
      Some(ContentPrefix + SimpleName(parm) + " instead"), Some(VHostErrorCodes.V98915));
  }


  /** The puppeteer: the figurines by id. */
  class FigurineController {
    const broker: SyncBroker
    const me: ReceiverId
    var figurines: map<string, Figurine>

    /** Every figurine is filed under its own id and is in a valid state. */
    ghost predicate Valid()
      reads this, figurines.Values
    {
      forall k :: k in figurines ==> figurines[k].id == k && figurines[k].Valid()
    }

    /** The state of every figurine, by id. */
    ghost function States(): map<string, FigurineState>
      reads this, figurines.Values
    {
      map k | k in figurines :: figurines[k].State()
    }

    /** The fields of the controller; `init` follows as `Init`. */
    constructor (broker: SyncBroker, me: ReceiverId)
      ensures this.broker == broker && this.me == me && figurines == map[]
      ensures Valid()
    {
      this.broker := broker;
      this.me := me;
      figurines := map[];
    }

    /** `init`, run once on the new controller: registers on the figurine channel,
        files figurine "0", and asks the board for the location of field 15, where the
        figurine is placed. A reply without a location is refused with V62000 and
        leaves the figurine filed but not placed. */
    method Init(answer: Answers) returns (outcome: Outcome)
      requires broker.Valid() && figurines == map[]
      modifies this, broker.Repr
      ensures broker.Valid() && fresh(broker.Repr - old(broker.Repr))
      ensures broker.Subscribers == old(broker.Subscribers)[Names.GET_FIGURINE_DATA :=
        AddOnce(if Names.GET_FIGURINE_DATA in old(broker.Subscribers)
                then old(broker.Subscribers)[Names.GET_FIGURINE_DATA] else [], me)]
      ensures Valid()
      ensures figurines.Keys == {FirstFigurineId} && fresh(figurines[FirstFigurineId])
      ensures var r := LocationReply(BoardReply(old(broker.Subscribers), FirstFieldFetch(), answer));
        var fig := figurines[FirstFigurineId];
        && fig.currentTween.None? && fig.telemetryChanged
        && (r.Err? ==> outcome == Fail(r.failure) && fig.location == Location(0.0, 0.0, 0.0) && fig.fieldId == 0)
        && (r.Ok? ==> outcome == Pass && fig.location == r.value && fig.fieldId == FirstFieldId)
    {
      ghost var subscribers := broker.Subscribers;
      broker.RegisterToChannel(me, Names.GET_FIGURINE_DATA);
      assert BoardReply(broker.Subscribers, FirstFieldFetch(), answer) == BoardReply(subscribers, FirstFieldFetch(), answer) by {
        assert Names.GET_FIGURINE_DATA != Names.GET_BOARD_DATA;
      }
      outcome := FileFirst(answer);
    }

    /** The second half of `init`: figurine "0" is filed and placed where the board
        channel locates field 15. */
    method FileFirst(answer: Answers) returns (outcome: Outcome)
      requires broker.Valid()
      modifies this
      ensures figurines.Keys == {FirstFigurineId} && fresh(figurines[FirstFigurineId])
      ensures Valid()
      ensures var r := LocationReply(BoardReply(broker.Subscribers, FirstFieldFetch(), answer));
        var fig := figurines[FirstFigurineId];
        && fig.currentTween.None? && fig.telemetryChanged
        && (r.Err? ==> outcome == Fail(r.failure) && fig.location == Location(0.0, 0.0, 0.0) && fig.fieldId == 0)
        && (r.Ok? ==> outcome == Pass && fig.location == r.value && fig.fieldId == FirstFieldId)
    {
      var fig := new Figurine(FirstFigurineId);
      figurines := map[fig.id := fig];
      var list := broker.Request(Names.GET_BOARD_DATA, FirstFieldFetch(), true, answer);
      outcome := Place(fig, list);
    }

    /** The end of `init`: the figurine is placed on field 15 at the location the reply
        carries, or the reply is refused. */
    static method Place(fig: Figurine, list: seq<Option<Value>>) returns (outcome: Outcome)
      modifies fig
      ensures fig.currentTween == old(fig.currentTween) && fig.telemetryChanged == old(fig.telemetryChanged)
      ensures var r := LocationReply(list);
        && (r.Err? ==> outcome == Fail(r.failure) && fig.location == old(fig.location) && fig.fieldId == old(fig.fieldId))
        && (r.Ok? ==> outcome == Pass && fig.location == r.value && fig.fieldId == FirstFieldId)
    {
      var r := LocationReply(list);
      if r.Err? {
        return Fail(r.failure);
      }
      fig.location := r.value;
      fig.fieldId := FirstFieldId;
      outcome := Pass;
    }

    /** `receive`: a found path goes to `setPathOfFigurine`, a request for a path to
        `requestPathForFigurine`; other headlines are ignored. */
    method Receive(msg: Message) returns (outcome: Outcome, outbox: seq<(string, Message)>)
      requires Valid()
      modifies figurines.Values
      ensures Valid()
      ensures msg.headline != Names.FOUND_PATH && msg.headline != Names.PLEASE_FIND_PATH ==>
        outcome == Pass && outbox == [] && States() == old(States())
      ensures msg.headline == Names.FOUND_PATH ==> outbox == [] && PathSet(msg.content, outcome)
      ensures msg.headline == Names.PLEASE_FIND_PATH ==> PathRequested(msg.content, outcome, outbox)
    {
      outbox := [];
      if msg.headline == Names.FOUND_PATH {
        outcome := SetPathOfFigurine(msg.content);
      } else if msg.headline == Names.PLEASE_FIND_PATH {
        outcome, outbox := RequestPathForFigurine(msg.content);
      } else {
        outcome := Pass;
      }
    }

    /** The figurines other than `id` kept their state. */
    twostate predicate OthersUnchanged(id: string)
      reads this, figurines.Values
    {
      && States().Keys == old(States()).Keys
      && forall k :: k in old(States()) && k != id ==> States()[k] == old(States())[k]
    }

    /** The effect of `setPathOfFigurine`. */
    twostate predicate PathSet(parm: Value, outcome: Outcome)
      reads this, figurines.Values
    {
      if parm.Null? then
        outcome.Fail? && outcome.failure.kind == NullPointer && States() == old(States())
      else if !parm.PathFound? then
        outcome == Fail(SetPathFailure(parm)) && States() == old(States())
      else
        && outcome == Pass
        && OthersUnchanged(parm.pathOwner)
        && (parm.pathOwner in old(States()) ==>
              var before, after := old(States())[parm.pathOwner], States()[parm.pathOwner];
              var w := parm.waypoints;
              && after.location == before.location && after.fieldId == before.fieldId
              && after.telemetryChanged == before.telemetryChanged
              && (w.None? || |w.value| < 2 ==> after.currentTween == before.currentTween)
              && (w.Some? && |w.value| >= 2 ==>
                    after.currentTween.Some? && after.currentTween.value.elapsed == 0.0
                    && Waypoints(after.currentTween.value.shifts) == w.value))
    }

    /** `setPathOfFigurine`: a path found for a known figurine becomes its walk; a path
        for an unknown one is dropped. A null content passes the cast and fails on its
        first getter. */
    method SetPathOfFigurine(parm: Value) returns (outcome: Outcome)
      requires Valid()
      modifies figurines.Values
      ensures Valid()
      ensures PathSet(parm, outcome)
    {
      if parm.Null? {
        return Fail(Failure(NullPointer, ""));
      }
      if !parm.PathFound? {
        return Fail(SetPathFailure(parm));
      }
      outcome := Pass;
      if parm.pathOwner in figurines {
        var fig := figurines[parm.pathOwner];
        fig.SetPath(parm.waypoints);
        assert forall k :: k in figurines && k != parm.pathOwner ==> figurines[k] != fig;
      }
    }

    /** The effect of `requestPathForFigurine`. */
    twostate predicate PathRequested(parm: Value, outcome: Outcome, new outbox: seq<(string, Message)>)
      reads this, figurines.Values
    {
      if parm.Null? then
        outcome.Fail? && outcome.failure.kind == NullPointer && outbox == [] && States() == old(States())
      else if !parm.FindPathParms? then
        outcome == Fail(RequestPathFailure(parm)) && outbox == [] && States() == old(States())
      else if parm.figurineId !in old(States()) then
        outcome == Pass && outbox == [] && States() == old(States())
      else
        && parm.figurineId in States()
        && var before, after := old(States())[parm.figurineId], States()[parm.figurineId];
        && outcome == Pass
        && OthersUnchanged(parm.figurineId)
        && after == before.(currentTween := None)
        && outbox == [(Names.CONCURRENT_MANAGEMENT,
                       Message(Names.PLEASE_FIND_PATH, FindPathRequest(parm.figurineId, before.fieldId, parm.goalField)))]
    }

    /** `requestPathForFigurine`: a known figurine goes idle and its request for a path
        goes to the concurrent-event manager; an unknown figurine is ignored. */
    method RequestPathForFigurine(parm: Value) returns (outcome: Outcome, outbox: seq<(string, Message)>)
      requires Valid()
      modifies figurines.Values
      ensures Valid()
      ensures PathRequested(parm, outcome, outbox)
    {
      outbox := [];
      if parm.Null? {
        return Fail(Failure(NullPointer, "")), [];
      }
      if !parm.FindPathParms? {
        return Fail(RequestPathFailure(parm)), [];
      }
      outcome := Pass;
      if parm.figurineId !in figurines {
        return;
      }
      var fig := figurines[parm.figurineId];
      var msg := fig.GetFindPathToFieldMessage(parm.goalField);
      assert forall k :: k in figurines && k != parm.figurineId ==> figurines[k] != fig;
      outbox := [(Names.CONCURRENT_MANAGEMENT, msg)];
    }

    /** `request`: the full list of figurines answers with one DTO per figurine;
        every other command is answered empty. */
    method Request(fetch: FetchCommand) returns (r: Option<Value>)
      requires Valid()
      ensures r.Some? <==> fetch.command == Names.FIGURINE_FULL_LIST
      ensures r.Some? ==> r.value.FigurineList? && |r.value.dtos| == |figurines|
      ensures r.Some? ==> forall d :: d in r.value.dtos ==> d.id in figurines && d == figurines[d.id].AsDTO()
      ensures r.Some? ==> forall k :: k in figurines ==> figurines[k].AsDTO() in r.value.dtos
    {
      if fetch.command != Names.FIGURINE_FULL_LIST {
        return None;
      }
      var keys := figurines.Keys;
      var dtos: seq<FigurineDTO> := [];
      while keys != {}
        invariant keys <= figurines.Keys
        invariant |dtos| + |keys| == |figurines|
        invariant forall d :: d in dtos ==> d.id in figurines && d.id !in keys && d == figurines[d.id].AsDTO()
        invariant forall k :: k in figurines && k !in keys ==> figurines[k].AsDTO() in dtos
        decreases keys
      {
        var k :| k in keys;
        dtos := dtos + [figurines[k].AsDTO()];
        keys := keys - {k};
      }
      r := Some(FigurineList(dtos));
    }
  }
}
