/** The client's connector for local single-player games (client
    clientconnector/LocalClientConnector.java): it is connected to one virtual host,
    once, and fetches the board data from it. */
module ClientConnector {
  import opened Common
  import opened Values
  import ClientErrorCodes

  /** A local virtual host, as an opaque handle: its code is not part of this model. */
  type HostId = nat

  /** What `getBoardData` of each local virtual host answers (a call into the host). */
  type HostAnswers = HostId -> Result<BoardDataDTO>

  const NotConnectedMsg: string := "Cannot fetch board data: client connection has yet not been established."

  /** The HostConnectionNotReadyException of `getBoardData` before any connection. */
  function NotConnectedFailure(): (f: Failure)
    ensures f.kind == HostConnectionNotReady
    ensures Contains(f.message, NotConnectedMsg) && Contains(f.message, ClientErrorCodes.C30737)
  {
    ClientErrorCodes.AssembledMessageCarriesMsgAndCode(Some(NotConnectedMsg), Some(ClientErrorCodes.C30737));
    Failure(HostConnectionNotReady, ClientErrorCodes.AssembleCodedMsg(Some(NotConnectedMsg), Some(ClientErrorCodes.C30737)))
  }

  class LocalClientConnector {
    /** The connected virtual host; nothing until the first connection. */
    var host: Option<HostId>

    constructor()
      ensures host.None?
    {
      host := None;
    }

    /** `connectToVirtualHost`: only the first host given is kept. */
    method ConnectToVirtualHost(newHost: HostId)
      modifies this
      ensures host == if old(host).None? then Some(newHost) else old(host)
    {
      if host.None? {
        host := Some(newHost);
      }
    }

    /** `getBoardData`: refused with C30737 while no host is connected, otherwise
        whatever the connected host answers. */
    function GetBoardData(answers: HostAnswers): (r: Result<BoardDataDTO>)
      reads this
      ensures host.None? ==> r == Err(NotConnectedFailure())
      ensures host.Some? ==> r == answers(host.value)
    {
      if host.None? then Err(NotConnectedFailure()) else answers(host.value)
    }
  }
}
