/** The board's receiver on the broker: it answers requests for the board data and for
    field locations, and checks the parameters of a path request before it hands out
    a pathfinder (virtualhost board/BoardController.java). */
module BoardControl {
  import opened Common
  import opened Values
  import opened Board
  import opened Broker
  import Names
  import VHostErrorCodes

  const FieldIdPrefix: string := "Expected id of field to be an integer, but got instance of class "
  const ConfigPrefix: string := "Expected parameter to be a PathfindingConfig, but got an instance of class "

  /** The fetch codes of the request map as the constructor fills it. */
  const AsWrittenCodes: set<string> := {Names.BOARD_DATA, Names.BOARD_FIELD_LOCATION}

  /** The request map with the path request registered as well. */
  const CorrectedCodes: set<string> := AsWrittenCodes + {Names.BOARD_PATHFINDER}

  /** The exception of a field-location request whose parameter is not an integer. The
      cast and the unboxing both sit inside the `try`, so a null parameter lands here
      as well, named "null". */
  function FieldIdCastFailure(parm: Value): Failure
  {
    Failure(ClassCast, VHostErrorCodes.AssembleCodedMsg(
      Some(FieldIdPrefix + NameOrNull(parm) + " instead"), Some(VHostErrorCodes.V78642)))
  }

  /** The answer to a field-location request: the location of the field with the given
      id, empty for an unknown id, and a class-cast exception for a parameter that is
      not an integer. */
  function FieldLocation(fields: map<int, FieldData>, parm: Value): (r: Result<Option<Value>>)
    ensures r.Ok? <==> parm.IntVal?
    ensures r.Ok? ==> (r.value.Some? <==> parm.i in fields)
    ensures r.Ok? && r.value.Some? ==> r.value.value == LocVal(fields[parm.i].location)
    ensures r.Err? ==> r.failure.kind == ClassCast
  {
    if !parm.IntVal? then Err(FieldIdCastFailure(parm))
    else if parm.i in fields then Ok(Some(LocVal(fields[parm.i].location)))
    else Ok(None)
  }

  /** A refused field-location request names the class it got and carries V78642. */
  lemma FieldLocationRefusal(fields: map<int, FieldData>, parm: Value)
    requires !parm.IntVal?
    ensures FieldLocation(fields, parm).Err?
    ensures Contains(FieldLocation(fields, parm).failure.message, FieldIdPrefix + NameOrNull(parm) + " instead")
    ensures Contains(FieldLocation(fields, parm).failure.message, VHostErrorCodes.V78642)
  {
    VHostErrorCodes.AssembledMessageCarriesMsgAndCode(
      Some(FieldIdPrefix + NameOrNull(parm) + " instead"), Some(VHostErrorCodes.V78642));
  }

  /** On the board built by `init`, the location request answers exactly for the ids
      0 to 109, with the location of the grid position. */
  lemma FieldLocationOnTheGrid(fields: map<int, FieldData>, id: int)
    requires IsGrid(fields)
    ensures FieldLocation(fields, IntVal(id)).value.Some? <==> 0 <= id < FieldCount
    ensures 0 <= id < FieldCount ==> FieldLocation(fields, IntVal(id)).value == Some(LocVal(GridLocation(id)))
  {
  }

  /** The checks of `findPath`: the parameter must be a pathfinding configuration (a
      null one passes the cast and fails on its first getter), and both fields must
      exist; then a pathfinder between them is created. */
  function FindPath(fields: map<int, FieldData>, parm: Value): (r: Result<Value>)
    ensures r.Ok? <==> parm.PathCfg? && parm.cfg.fromField in fields && parm.cfg.toField in fields
    ensures r.Ok? ==> r.value == PathfinderTask(parm.cfg.fromField, parm.cfg.toField)
    ensures parm.Null? ==> r.Err? && r.failure.kind == NullPointer
    ensures !parm.Null? && !parm.PathCfg? ==> r.Err? && r.failure.kind == ClassCast
    ensures parm.PathCfg? && r.Err? ==> r.failure.kind == BoardFieldNotFound
  {
    if parm.Null? then
      Err(Failure(NullPointer, ""))
    else if !parm.PathCfg? then
      Err(Failure(ClassCast, VHostErrorCodes.AssembleCodedMsg(
        Some(ConfigPrefix + SimpleName(parm) + " instead"), Some(VHostErrorCodes.V78642))))
    else if parm.cfg.fromField !in fields then
      Err(Failure(BoardFieldNotFound, VHostErrorCodes.AssembleCodedMsg(
        Some("Possible starting field with id " + IntToString(parm.cfg.fromField) + " does not exists."),
        Some(VHostErrorCodes.V11349))))
    else if parm.cfg.toField !in fields then
      Err(Failure(BoardFieldNotFound, VHostErrorCodes.AssembleCodedMsg(
        Some("Possible goal field with id " + IntToString(parm.cfg.toField) + " does not exists."),
        Some(VHostErrorCodes.V11349))))
    else
      Ok(PathfinderTask(parm.cfg.fromField, parm.cfg.toField))
  }

  /** Every refusal of `findPath` other than the null pointer carries its code: V78642
      for a wrong class, V11349 for a missing field, whose id it names; the start field
      is checked first. */
  lemma FindPathRefusals(fields: map<int, FieldData>, parm: Value)
    ensures var r := FindPath(fields, parm);
      && (!parm.Null? && !parm.PathCfg? ==>
            Contains(r.failure.message, ConfigPrefix + SimpleName(parm))
            && Contains(r.failure.message, VHostErrorCodes.V78642))
      && (parm.PathCfg? && parm.cfg.fromField !in fields ==>
            Contains(r.failure.message, "Possible starting field with id " + IntToString(parm.cfg.fromField))
            && Contains(r.failure.message, VHostErrorCodes.V11349))
      && (parm.PathCfg? && parm.cfg.fromField in fields && parm.cfg.toField !in fields ==>
            Contains(r.failure.message, "Possible goal field with id " + IntToString(parm.cfg.toField))
            && Contains(r.failure.message, VHostErrorCodes.V11349))
  {
    if parm.Null? {
    } else if !parm.PathCfg? {
      CodedMessageCarries(ConfigPrefix + SimpleName(parm), " instead", VHostErrorCodes.V78642);
    } else if parm.cfg.fromField !in fields {
      CodedMessageCarries("Possible starting field with id " + IntToString(parm.cfg.fromField),
                          " does not exists.", VHostErrorCodes.V11349);
    } else if parm.cfg.toField !in fields {
      CodedMessageCarries("Possible goal field with id " + IntToString(parm.cfg.toField),
                          " does not exists.", VHostErrorCodes.V11349);
    }
  }

  /** A coded message assembled from `head + tail` contains `head` and the code. */
  lemma {:induction false} CodedMessageCarries(head: string, tail: string, code: string)
    ensures Contains(VHostErrorCodes.AssembleCodedMsg(Some(head + tail), Some(code)), head)
    ensures Contains(VHostErrorCodes.AssembleCodedMsg(Some(head + tail), Some(code)), code)
  {
    var m := VHostErrorCodes.AssembleCodedMsg(Some(head + tail), Some(code));
    VHostErrorCodes.AssembledMessageCarriesMsgAndCode(Some(head + tail), Some(code));
    assert m[..|head|] == head by {
      assert m[..|head + tail|] == head + tail;
      assert m[..|head|] == (head + tail)[..|head|];
    }
    ContainsWitness(m, head, 0);
  }

  /** What the controller does with a fetch command, given the codes its request map
      holds. */
  datatype Handler = BoardDataHandler | LocationHandler | PathfinderHandler | NoHandler

  function Route(codes: set<string>, command: string): (h: Handler)
    ensures command !in codes ==> h == NoHandler
    ensures h == BoardDataHandler <==> command in codes && command == Names.BOARD_DATA
    ensures h == LocationHandler <==> command in codes && command == Names.BOARD_FIELD_LOCATION
    ensures h == PathfinderHandler <==> command in codes && command == Names.BOARD_PATHFINDER
  {
    if command !in codes then NoHandler
    else if command == Names.BOARD_DATA then BoardDataHandler
    else if command == Names.BOARD_FIELD_LOCATION then LocationHandler
    else if command == Names.BOARD_PATHFINDER then PathfinderHandler
    else NoHandler
  }

  /** As written, a path request finds no entry in the request map and is answered
      empty, although the board holds both fields and `findPath` would accept it. */
  lemma {:induction false} PathRequestIsUnanswered(fields: map<int, FieldData>, from: int, to: int)
    requires from in fields && to in fields
    ensures Route(AsWrittenCodes, Names.BOARD_PATHFINDER) == NoHandler
    ensures Route(CorrectedCodes, Names.BOARD_PATHFINDER) == PathfinderHandler
    ensures FindPath(fields, PathCfg(PathfindingConfig(from, to))) == Ok(PathfinderTask(from, to))
  {
    assert Names.BOARD_PATHFINDER != Names.BOARD_DATA && Names.BOARD_PATHFINDER != Names.BOARD_FIELD_LOCATION;
  }

  /** The board controller: the board data and its own receiver id on the broker. */
  class BoardController {
    const data: BoardData
    const me: ReceiverId

    /** Registers the controller on the board-data channel. */
    constructor (broker: SyncBroker, data: BoardData, me: ReceiverId)
      requires broker.Valid()
      modifies broker.Repr
      ensures broker.Valid() && fresh(broker.Repr - old(broker.Repr))
      ensures broker.Subscribers == old(broker.Subscribers)[Names.GET_BOARD_DATA :=
        AddOnce(if Names.GET_BOARD_DATA in old(broker.Subscribers) then old(broker.Subscribers)[Names.GET_BOARD_DATA] else [], me)]
      ensures this.data == data && this.me == me
    {
      this.data := data;
      this.me := me;
      new;
      broker.RegisterToChannel(me, Names.GET_BOARD_DATA);
    }

    /** `request` as written: the board data, a field location, and empty for every
        other code, the path request included. */
    method Request(fetch: FetchCommand) returns (r: Result<Option<Value>>)
      requires data.Valid()
      ensures fetch.command !in AsWrittenCodes ==> r == Ok(None)
      ensures fetch.command == Names.BOARD_PATHFINDER ==> r == Ok(None)
      ensures fetch.command == Names.BOARD_DATA ==>
        r.Ok? && r.value.Some? && r.value.value.BoardDto? && Describes(data.fields, r.value.value.board)
      ensures fetch.command == Names.BOARD_FIELD_LOCATION ==> r == FieldLocation(data.fields, fetch.parms)
    {
      r := Answer(AsWrittenCodes, fetch);
    }

    /** `request` with the path request registered: it answers the checked pathfinder. */
    method RequestCorrected(fetch: FetchCommand) returns (r: Result<Option<Value>>)
      requires data.Valid()
      ensures fetch.command !in CorrectedCodes ==> r == Ok(None)
      ensures fetch.command == Names.BOARD_PATHFINDER ==>
        var p := FindPath(data.fields, fetch.parms);
        r == if p.Ok? then Ok(Some(p.value)) else Err(p.failure)
      ensures fetch.command == Names.BOARD_DATA ==>
        r.Ok? && r.value.Some? && r.value.value.BoardDto? && Describes(data.fields, r.value.value.board)
      ensures fetch.command == Names.BOARD_FIELD_LOCATION ==> r == FieldLocation(data.fields, fetch.parms)
    {
      r := Answer(CorrectedCodes, fetch);
    }

    /** Looks the command up in the request map and applies the handler to the
        parameter; without an entry the answer is empty. */
    method Answer(codes: set<string>, fetch: FetchCommand) returns (r: Result<Option<Value>>)
      requires data.Valid()
      ensures Route(codes, fetch.command) == NoHandler ==> r == Ok(None)
      ensures Route(codes, fetch.command) == PathfinderHandler ==>
        var p := FindPath(data.fields, fetch.parms);
        r == if p.Ok? then Ok(Some(p.value)) else Err(p.failure)
      ensures Route(codes, fetch.command) == BoardDataHandler ==>
        r.Ok? && r.value.Some? && r.value.value.BoardDto? && Describes(data.fields, r.value.value.board)
      ensures Route(codes, fetch.command) == LocationHandler ==> r == FieldLocation(data.fields, fetch.parms)
    {
      match Route(codes, fetch.command)
      case NoHandler =>
        r := Ok(None);
      case BoardDataHandler =>
        var dto := data.AsDTO();
        r := Ok(Some(BoardDto(dto)));
      case LocationHandler =>
        r := FieldLocation(data.fields, fetch.parms);
      case PathfinderHandler =>
        var p := FindPath(data.fields, fetch.parms);
        r := if p.Ok? then Ok(Some(p.value)) else Err(p.failure);
    }
  }
}
