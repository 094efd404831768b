/** The virtual host's side of the client connection: the set-once link to the broker,
    the dispatch of client commands, and the validation of the board data a board
    controller answers (virtualhost hostconnector/AbstractHostConnector.java and
    hostconnector/LocalHostConnector.java). */
module HostConnector {
  import opened Common
  import opened Values
  import opened Broker
  import Names
  import Extractor
  import VHostErrorCodes

  /** The commands a client can send to the virtual host. */
  datatype VHCommand = FetchBoard

  const NoBoardDataElements: string := "BoardDataDTO output validation failed: No board data elements."
  const MissingBoardData: string := "BoardDataDTO output validation failed: Missing board data."
  const WrongClassPrefix: string := "BoardDataDTO output validation failed: Expected a BoardDataDTO, but got an instance of "

  /** The reason a reply is refused, or `None` when its first answer is a board. */
  function RefusalReason(list: seq<Option<Value>>): Option<string>
  {
    if list == [] then Some(NoBoardDataElements)
    else if list[0].None? then Some(MissingBoardData)
    else if !list[0].value.BoardDto? then Some(WrongClassPrefix + NameOrNull(list[0].value) + " instead.")
    else None
  }

  /** The validation chain applied to the reply of the board channel: the first answer
      must be present and be a board; otherwise a runtime exception with the reason and
      V16231 is thrown. */
  function CheckBoardReply(list: seq<Option<Value>>): (r: Result<BoardDataDTO>)
    ensures r.Ok? <==> list != [] && list[0].Some? && list[0].value.BoardDto?
    ensures r.Ok? ==> list[0].value == BoardDto(r.value)
    ensures r.Err? ==> r.failure.kind == Runtime
  {
    match RefusalReason(list)
    case Some(reason) =>
      Err(Failure(Runtime, VHostErrorCodes.AssembleCodedMsg(Some(reason), Some(VHostErrorCodes.V16231))))
    case None => Ok(list[0].value.board)
  }

  /** Each refusal names its reason and carries V16231: an empty reply lacks elements,
      an empty first answer lacks data, and a first answer of another class is named. */
  lemma {:induction false} BoardReplyRefusals(list: seq<Option<Value>>)
    ensures var r := CheckBoardReply(list);
      && (r.Err? ==> Contains(r.failure.message, VHostErrorCodes.V16231))
      && (list == [] ==> r.Err? && Contains(r.failure.message, NoBoardDataElements))
      && (list != [] && list[0].None? ==> r.Err? && Contains(r.failure.message, MissingBoardData))
      && (list != [] && list[0].Some? && !list[0].value.BoardDto? ==>
            r.Err? && Contains(r.failure.message, WrongClassPrefix + NameOrNull(list[0].value) + " instead."))
  {
    var reason := RefusalReason(list);
    if reason.Some? {
      VHostErrorCodes.AssembledMessageCarriesMsgAndCode(reason, Some(VHostErrorCodes.V16231));
    }
  }

  /** The example of the wrong-class message: a string answer reads "... an instance of
      String instead." */
  lemma {:induction false} StringAnswerIsNamed(s: string, rest: seq<Option<Value>>)
    ensures var r := CheckBoardReply([Some(StrVal(s))] + rest);
      var reason := WrongClassPrefix + "String" + " instead.";
      r.Err? && r.failure.message[..|reason|] == reason
  {
    var list := [Some(StrVal(s))] + rest;
    var reason := WrongClassPrefix + "String" + " instead.";
    assert list[0] == Some(StrVal(s));
    assert NameOrNull(StrVal(s)) == "String";
    assert RefusalReason(list) == Some(reason);
    VHostErrorCodes.AssembledMessageCarriesMsgAndCode(Some(reason), Some(VHostErrorCodes.V16231));
  }

  /** The chain accepts exactly the replies that a V16231 extractor of a
      `BoardDataDTO` accepts, and both hand out the same board. The extractor tells
      classes apart by simple name, so a first answer of an unmodelled class that is
      also called `BoardDataDTO` is excluded. */
  lemma {:induction false} BoardReplyAgreesWithExtractor(list: seq<Option<Value>>)
    requires list != [] && list[0].Some? && list[0].value.Other? ==> list[0].value.className != "BoardDataDTO"
    ensures var e := Extractor.NewExtractor(Some(VHostErrorCodes.V16231));
      var x := e.ExtractFirst(Some(list), Extractor.ClassType("BoardDataDTO"));
      && (CheckBoardReply(list).Ok? <==> x.Ok?)
      && (x.Ok? ==> x.value == BoardDto(CheckBoardReply(list).value))
  {
    if list != [] && list[0].Some? && list[0].value != Null && !list[0].value.Other? {
      OnlyBoardsAreNamedBoardDataDTO(list[0].value);
    }
  }

  /** The reply the board channel gives to a board-data request, empty answers skipped. */
  function BoardReply(subscribers: map<string, seq<ReceiverId>>, answer: Answers): seq<Option<Value>>
  {
    if Names.GET_BOARD_DATA in subscribers then
      Collected(subscribers[Names.GET_BOARD_DATA], FetchWithoutParms(Names.BOARD_DATA), true, answer)
    else []
  }

  /** A host connector running beside its only client. */
  class LocalHostConnector {
    /** The broker, linked once; `None` before linking. */
    var broker: Option<SyncBroker>

    constructor ()
      ensures broker == None
    {
      broker := None;
    }

    /** Links the broker; only the first link takes effect. */
    method LinkBroker(b: SyncBroker)
      modifies this
      ensures broker == if old(broker).None? then Some(b) else old(broker)
    {
      if broker.None? {
        broker := Some(b);
      }
    }

    /** Asks the board channel for the board data and validates the reply. Without a
        broker the request fails with a null pointer. */
    method GetBoardData(answer: Answers) returns (r: Result<BoardDataDTO>)
      requires broker.Some? ==> broker.value.Valid()
      ensures broker.None? ==> r.Err? && r.failure.kind == NullPointer
      ensures broker.Some? ==> r == CheckBoardReply(BoardReply(broker.value.Subscribers, answer))
    {
      if broker.None? {
        return Err(Failure(NullPointer, ""));
      }
      var list := broker.value.Request(Names.GET_BOARD_DATA, FetchWithoutParms(Names.BOARD_DATA), true, answer);
      r := CheckBoardReply(list);
    }

    /** Executes a client command: fetching the board answers the board data. */
    method DealRequest(command: VHCommand, answer: Answers) returns (r: Result<Value>)
      requires broker.Some? ==> broker.value.Valid()
      ensures broker.None? ==> r.Err? && r.failure.kind == NullPointer
      ensures broker.Some? ==>
        var b := CheckBoardReply(BoardReply(broker.value.Subscribers, answer));
        r == if b.Ok? then Ok(BoardDto(b.value)) else Err(b.failure)
    {
      match command
      case FetchBoard =>
        var b := GetBoardData(answer);
        r := if b.Ok? then Ok(BoardDto(b.value)) else Err(b.failure);
    }
  }
}
