/** The client's error codes and the assembly of coded error messages
    (client error/ClientErrorCodes.java). */
module ClientErrorCodes {
  import opened Common

  const C04278: string := "C04278"
  const C17679: string := "C17679"
  /** Used by the local client connector; the list of codes in ClientErrorCodes.java
      does not declare it, so its value follows the naming rule of the other codes. */
  const C30737: string := "C30737"

  const NoMessage: string := "no error message defined"
  const NoCode: string := "undefined"

  function UseMsg(msg: Option<string>): string
  {
    if msg.Some? then msg.value else NoMessage
  }

  function UseCode(code: Option<string>): string
  {
    if code.Some? then code.value else NoCode
  }

  /** `useMsg + " (on client, error code:" + useCode + ")"`, with the same null
      defaults as on the virtual host. */
  function AssembleCodedMsg(msg: Option<string>, code: Option<string>): string
  {
    UseMsg(msg) + " (on client, error code:" + UseCode(code) + ")"
  }

  /** The assembled message starts with the (defaulted) message and carries the
      (defaulted) code right before the closing parenthesis. */
  lemma {:induction false} AssembledMessageCarriesMsgAndCode(msg: Option<string>, code: Option<string>)
    ensures var r := AssembleCodedMsg(msg, code);
      && r[..|UseMsg(msg)|] == UseMsg(msg)
      && r[|r| - 1 - |UseCode(code)|..] == UseCode(code) + ")"
      && Contains(r, UseMsg(msg))
      && Contains(r, UseCode(code))
  {
    var m, c := UseMsg(msg), UseCode(code);
    var r := AssembleCodedMsg(msg, code);
    ContainsInConcat([], m, " (on client, error code:" + c + ")");
    assert r == m + " (on client, error code:" + c + ")";
    assert [] + m + (" (on client, error code:" + c + ")") == r;
    ContainsInConcat(m + " (on client, error code:", c, ")");
    assert m + " (on client, error code:" + c + ")" == r;
  }
}
