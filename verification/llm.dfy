/** The language-model collaborator as the bot's code sees it: a reply whose
    text is trimmed, checked to be `{…}`-delimited and then given to
    `JSON.parse`. The model itself and `JSON.parse` are parameters. */
module Llm {
  import opened Values

  /** The result of `chat.invoke(...)`: it threw, or it replied with some text. */
  datatype LlmReply = Threw | Replied(content: string)

  /** The characters `String.prototype.trim` removes: white space and line terminators. */
  predicate IsSpace(c: char) {
    || c == '\t' || c == '\n' || c == '\U{000B}' || c == '\U{000C}' || c == '\r' || c == ' '
    || c == '\U{00A0}' || c == '\U{1680}' || ('\U{2000}' <= c <= '\U{200A}')
    || c == '\U{2028}' || c == '\U{2029}' || c == '\U{202F}' || c == '\U{205F}' || c == '\U{3000}'
    || c == '\U{FEFF}'
  }

  /** Every character of `s` is white space. */
  predicate AllSpace(s: string) {
    forall k :: 0 <= k < |s| ==> IsSpace(s[k])
  }

  function TrimStart(s: string): (r: string)
    ensures |r| <= |s| && r == s[|s| - |r|..]
    ensures forall k :: 0 <= k < |s| - |r| ==> IsSpace(s[k])
    ensures r != [] ==> !IsSpace(r[0])
  {
    if s != [] && IsSpace(s[0]) then TrimStart(s[1..]) else s
  }

  function TrimEnd(s: string): (r: string)
    ensures |r| <= |s| && r == s[..|r|] && AllSpace(s[|r|..])
    ensures r != [] ==> !IsSpace(r[|r| - 1])
  {
    if s != [] && IsSpace(s[|s| - 1]) then
      var r := TrimEnd(s[..|s| - 1]);
      assert s[|r|..] == s[..|s| - 1][|r|..] + [s[|s| - 1]];
      r
    else s
  }

  /** `s.trim()`: the leading white space goes (`TrimStart`), then the
      trailing white space of what is left; what remains neither starts nor
      ends with white space. */
  function Trim(s: string): (r: string)
    ensures |r| <= |TrimStart(s)| && r == TrimStart(s)[..|r|] && AllSpace(TrimStart(s)[|r|..])
    ensures r != [] ==> !IsSpace(r[0]) && !IsSpace(r[|r| - 1])
  {
    TrimEnd(TrimStart(s))
  }

  /** `text.startsWith("{") && text.endsWith("}")`: a text of one `{` fails the
      second test, so a delimited text is `{}` or longer. */
  predicate Braced(text: string) {
    |text| > 0 && text[0] == '{' && text[|text| - 1] == '}'
  }

  /** The guard shared by the two extractors: the parsed reply when the trimmed
      text is `{…}`-delimited and `JSON.parse` accepts it, the fallback otherwise
      (a throwing call or a throwing `JSON.parse` land in the same `catch`). */
  function ParseOr<T>(reply: LlmReply, parse: string -> Option<T>, fallback: T): (r: T)
    ensures r == fallback || (reply.Replied? && Braced(Trim(reply.content)) && parse(Trim(reply.content)) == Some(r))
    ensures reply.Threw? ==> r == fallback
    ensures reply.Replied? && !Braced(Trim(reply.content)) ==> r == fallback
    ensures reply.Replied? && Braced(Trim(reply.content)) && parse(Trim(reply.content)).None? ==> r == fallback
    ensures reply.Replied? && Braced(Trim(reply.content)) && parse(Trim(reply.content)).Some? ==>
      r == parse(Trim(reply.content)).value
  {
    match reply
    case Threw => fallback
    case Replied(content) =>
      var text := Trim(content);
      if Braced(text) then
        match parse(text)
        case Some(v) => v
        case None => fallback
      else fallback
  }

  /** A reply that starts with anything but `{` once trimmed always falls back,
      whatever the parser would have made of it. */
  lemma UnbracedReplyFallsBack<T>(content: string, parse: string -> Option<T>, fallback: T)
    requires Trim(content) != [] && Trim(content)[0] != '{'
    ensures ParseOr(Replied(content), parse, fallback) == fallback
  {
  }
}
