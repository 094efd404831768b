/** The virtual host's error codes and the assembly of coded error messages
    (virtualhost error/VHostErrorCodes.java). */
module VHostErrorCodes {
  import opened Common

  const V11349: string := "V11349"
  const V16231: string := "V16231"
  const V42664: string := "V42664"
  /** Used by a prototype part of the code; its text says so. */
  const V62000: string := "V62000-deprecated"
  const V78642: string := "V78642"
  const V94039: string := "V94039"
  const V97498: string := "V97498"
  const V98915: string := "V98915"

  const NoMessage: string := "no error message defined"
  const NoCode: string := "undefined"

  /** The message actually used: a null message is replaced by a placeholder. */
  function UseMsg(msg: Option<string>): string
  {
    if msg.Some? then msg.value else NoMessage
  }

  /** The code actually used: a null code is replaced by "undefined". */
  function UseCode(code: Option<string>): string
  {
    if code.Some? then code.value else NoCode
  }

  /** `MessageFormat.format("{0} (on vhost, error code: {1})", useMsg, useCode)`; the
      arguments are strings, so they are inserted verbatim. */
  function AssembleCodedMsg(msg: Option<string>, code: Option<string>): string
  {
    UseMsg(msg) + " (on vhost, error code: " + UseCode(code) + ")"
  }

  /** The assembled message starts with the message, ends with the code and a closing
      parenthesis, and contains both. */
  lemma {:induction false} AssembledMessageCarriesMsgAndCode(msg: Option<string>, code: Option<string>)
    ensures var r := AssembleCodedMsg(msg, code);
      && r[..|UseMsg(msg)|] == UseMsg(msg)
      && r[|r| - 1 - |UseCode(code)|..] == UseCode(code) + ")"
      && Contains(r, UseMsg(msg))
      && Contains(r, UseCode(code))
  {
    var m, c := UseMsg(msg), UseCode(code);
    var r := AssembleCodedMsg(msg, code);
    ContainsInConcat([], m, " (on vhost, error code: " + c + ")");
    assert r == m + " (on vhost, error code: " + c + ")";
    assert [] + m + (" (on vhost, error code: " + c + ")") == r;
    ContainsInConcat(m + " (on vhost, error code: ", c, ")");
    assert m + " (on vhost, error code: " + c + ")" == r;
  }

  /** Null defaults: a missing message or code is replaced, a present one is kept as is. */
  lemma {:induction false} NullDefaults(msg: Option<string>, code: Option<string>)
    ensures msg.None? ==> AssembleCodedMsg(msg, code)[..|NoMessage|] == NoMessage
    ensures code.None? ==> Contains(AssembleCodedMsg(msg, code), NoCode)
    ensures msg.Some? ==> AssembleCodedMsg(msg, code)[..|msg.value|] == msg.value
  {
    AssembledMessageCarriesMsgAndCode(msg, code);
  }

  /** For one message, different codes give different assembled messages. */
  lemma {:induction false} AssemblyKeepsCodesApart(msg: Option<string>, c1: string, c2: string)
    requires AssembleCodedMsg(msg, Some(c1)) == AssembleCodedMsg(msg, Some(c2))
    ensures c1 == c2
  {
    var r := AssembleCodedMsg(msg, Some(c1));
    var prefix := UseMsg(msg) + " (on vhost, error code: ";
    assert r == prefix + c1 + ")";
    assert r == prefix + c2 + ")";
    assert |c1| == |c2|;
    assert c1 == r[|prefix|..|prefix| + |c1|];
    assert c2 == r[|prefix|..|prefix| + |c2|];
  }
}
