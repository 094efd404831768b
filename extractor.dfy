/** Extraction of the first answer from a broker reply, with coded errors for every way
    the reply can fall short (virtualhost hostconnector/ExtractorOfFirst.java). */
module Extractor {
  import opened Common
  import opened Values
  import VHostErrorCodes

  /** The class a caller asks for. */
  datatype JavaType = ObjectType | CallableType | ListType | ClassType(name: string)

  /** `type.getSimpleName()`. */
  function TypeName(t: JavaType): string
  {
    match t
    case ObjectType => "Object"
    case CallableType => "Callable"
    case ListType => "List"
    case ClassType(n) => n
  }

  /** `type.isInstance(obj)`: null is an instance of nothing; a pathfinder is the only
      `Callable` among the modelled objects, and none of them is a `List`. */
  predicate IsInstance(v: Value, t: JavaType)
  {
    v != Null &&
    match t
    case ObjectType => true
    case CallableType => v.PathfinderTask?
    case ListType => false
    case ClassType(n) => SimpleName(v) == n
  }

  /** `MessageFormat.format` with two arguments, for patterns whose only braces are the
      placeholders `{0}` and `{1}` and which hold no apostrophe: each placeholder becomes
      its argument and the other text is kept. Java's quoting with `'`, its other format
      elements and its exception on an unbalanced brace are not modelled. */
  function Format(pattern: string, a0: string, a1: string): string
    decreases |pattern|
  {
    if pattern == [] then []
    else if |pattern| >= 3 && pattern[..3] == "{0}" then a0 + Format(pattern[3..], a0, a1)
    else if |pattern| >= 3 && pattern[..3] == "{1}" then a1 + Format(pattern[3..], a0, a1)
    else [pattern[0]] + Format(pattern[1..], a0, a1)
  }

  /** Text without a brace passes through the formatter unchanged. */
  lemma {:induction false} FormatKeepsPlainText(p: string, rest: string, a0: string, a1: string)
    requires '{' !in p
    ensures Format(p + rest, a0, a1) == p + Format(rest, a0, a1)
    decreases |p|
  {
    if p != [] {
      var whole := p + rest;
      assert whole[0] == p[0] != '{';
      assert |whole| >= 3 ==> whole[..3][0] != '{';
      assert whole[1..] == p[1..] + rest;
      assert Format(whole, a0, a1) == [p[0]] + Format(p[1..] + rest, a0, a1);
      FormatKeepsPlainText(p[1..], rest, a0, a1);
      assert p == [p[0]] + p[1..];
    } else {
      assert p + rest == rest;
    }
  }

  /** The wrong-type message, filled with the found and the expected class. */
  lemma {:induction false} FormatFillsPlaceholder(prefix: string, a0: string, a1: string)
    requires '{' !in prefix
    ensures Format(prefix + "{0}", a0, a1) == prefix + a0
    ensures Format(prefix + "{1}", a0, a1) == prefix + a1
  {
    FormatKeepsPlainText(prefix, "{0}", a0, a1);
    FormatKeepsPlainText(prefix, "{1}", a0, a1);
    assert Format("{0}", a0, a1) == a0 + Format([], a0, a1);
    assert "{1}"[1] != "{0}"[1];
    assert Format("{1}", a0, a1) == a1 + Format([], a0, a1);
  }

  /** An extractor: the error code and the three messages it throws with. */
  datatype ExtractorOfFirst = ExtractorOfFirst(
    errCode: Option<string>,
    emptyListMsg: string,
    emptyOptionalMsg: string,
    wrongTypeMsg: string)
  {
    /** The code used in messages: a null code has become "undefined" by then. */
    function Code(): string
    {
      if errCode.Some? then errCode.value else "undefined"
    }

    /** The first answer of a reply, if it is present and of the requested class. A null
        or empty list, an empty first answer, and a null or wrongly typed first value
        each throw, with the matching message and the error code. */
    function ExtractFirst(list: Option<seq<Option<Value>>>, t: JavaType): (r: Result<Value>)
      ensures r.Ok? <==> list.Some? && list.value != [] && list.value[0].Some? && IsInstance(list.value[0].value, t)
      ensures r.Ok? ==> r.value == list.value[0].value
      ensures r.Err? ==> r.failure.kind == (if list.Some? && list.value != [] && list.value[0].Some? then ClassCast else NoSuchElement)
    {
      if list.None? || |list.value| == 0 then
        Err(Failure(NoSuchElement, VHostErrorCodes.AssembleCodedMsg(Some(emptyListMsg), Some(Code()))))
      else if list.value[0].None? then
        Err(Failure(NoSuchElement, VHostErrorCodes.AssembleCodedMsg(Some(emptyOptionalMsg), Some(Code()))))
      else if !IsInstance(list.value[0].value, t) then
        var msg := Format(wrongTypeMsg, NameOrNull(list.value[0].value), TypeName(t));
        Err(Failure(ClassCast, VHostErrorCodes.AssembleCodedMsg(Some(msg), Some(Code()))))
      else
        Ok(list.value[0].value)
    }
  }

  /** `new ExtractorOfFirst(errCode)` with the default messages. */
  function NewExtractor(errCode: Option<string>): (e: ExtractorOfFirst)
    ensures e.errCode == errCode
    ensures e.emptyListMsg == "List is empty" && e.emptyOptionalMsg == "Optional is empty"
    ensures e.wrongTypeMsg == "Wrong type, got {0}"
  {
    ExtractorOfFirst(errCode, "List is empty", "Optional is empty", "Wrong type, got {0}")
  }

  /** The outcome of every reply: the first value when it is present and of the right
      class, otherwise the exception naming the reason, always carrying the code. */
  lemma {:induction false} ExtractFirstOutcomes(e: ExtractorOfFirst, list: Option<seq<Option<Value>>>, t: JavaType)
    ensures var r := e.ExtractFirst(list, t);
      && (list.None? || list.value == [] ==>
            r.Err? && r.failure.kind == NoSuchElement && Contains(r.failure.message, e.emptyListMsg))
      && (r.Err? ==> Contains(r.failure.message, e.Code()))
      && (r.Ok? <==> list.Some? && list.value != [] && list.value[0].Some? && IsInstance(list.value[0].value, t))
      && (r.Ok? ==> r.value == list.value[0].value)
      && (list.Some? && list.value != [] && list.value[0].None? ==>
            r.Err? && r.failure.kind == NoSuchElement && Contains(r.failure.message, e.emptyOptionalMsg))
      && (list.Some? && list.value != [] && list.value[0].Some? && !IsInstance(list.value[0].value, t) ==>
            r.Err? && r.failure.kind == ClassCast
            && Contains(r.failure.message, Format(e.wrongTypeMsg, NameOrNull(list.value[0].value), TypeName(t))))
  {
    var r := e.ExtractFirst(list, t);
    if list.None? || list.value == [] {
      VHostErrorCodes.AssembledMessageCarriesMsgAndCode(Some(e.emptyListMsg), Some(e.Code()));
    } else if list.value[0].None? {
      VHostErrorCodes.AssembledMessageCarriesMsgAndCode(Some(e.emptyOptionalMsg), Some(e.Code()));
    } else if !IsInstance(list.value[0].value, t) {
      var msg := Format(e.wrongTypeMsg, NameOrNull(list.value[0].value), TypeName(t));
      VHostErrorCodes.AssembledMessageCarriesMsgAndCode(Some(msg), Some(e.Code()));
    }
  }

  /** Only the first answer matters: whatever follows it does not change the outcome. */
  lemma ExtractFirstIgnoresTheRest(e: ExtractorOfFirst, first: Option<Value>, rest1: seq<Option<Value>>,
                                   rest2: seq<Option<Value>>, t: JavaType)
    ensures e.ExtractFirst(Some([first] + rest1), t) == e.ExtractFirst(Some([first] + rest2), t)
  {
  }

  /** With the default messages, a wrong type reads "Wrong type, got" and the found class. */
  lemma {:induction false} DefaultWrongTypeMessage(code: Option<string>, v: Value, t: JavaType)
    requires !IsInstance(v, t)
    ensures var r := NewExtractor(code).ExtractFirst(Some([Some(v)]), t);
      r.Err? && r.failure.kind == ClassCast && Contains(r.failure.message, "Wrong type, got " + NameOrNull(v))
  {
    var e := NewExtractor(code);
    var prefix := "Wrong type, got ";
    assert e.wrongTypeMsg == prefix + "{0}";
    FormatFillsPlaceholder(prefix, NameOrNull(v), TypeName(t));
    ExtractFirstOutcomes(e, Some([Some(v)]), t);
  }
}
