/**
 * Distribution-API error responses (pkg/utils/error.go): the JSON body, the
 * code-to-status switch and the response that ErrorHTTPResponse writes.
 * The JSON text is read back by a parser so that the body's content can be
 * stated as a round trip.
 */
module Errors {
  import opened Wrappers
  import opened Http

  const Unauthorized := "UNAUTHORIZED"
  const Unavailable := "UNAVAILABLE"

  /** One error of the Distribution API; `detail` is omitted from the JSON when empty. */
  datatype Error = Error(code: string, message: string, detail: seq<string>)

  datatype ErrorResponse = ErrorResponse(errors: seq<Error>)

  // ---- JSON strings

  function EscapeChar(c: char): string {
    if c == '"' then "\\\""
    else if c == '\\' then "\\\\"
    else if c == '\n' then "\\n"
    else if c == '\r' then "\\r"
    else if c == '\t' then "\\t"
    else [c]
  }

  /** The character a two-character escape sequence `\x` stands for. */
  function Unescape(x: char): Option<char> {
    if x == '"' then Some('"')
    else if x == '\\' then Some('\\')
    else if x == 'n' then Some('\n')
    else if x == 'r' then Some('\r')
    else if x == 't' then Some('\t')
    else None
  }

  function Concat(parts: seq<string>): string {
    if parts == [] then [] else parts[0] + Concat(parts[1..])
  }

  /** The text of a JSON string literal: each character escaped in turn. */
  function Escape(s: string): string {
    Concat(seq(|s|, i requires 0 <= i < |s| => EscapeChar(s[i])))
  }

  lemma EscapeCons(s: string)
    requires s != []
    ensures Escape(s) == EscapeChar(s[0]) + Escape(s[1..])
  {
    var parts := seq(|s|, i requires 0 <= i < |s| => EscapeChar(s[i]));
    assert parts[1..] == seq(|s[1..]|, i requires 0 <= i < |s[1..]| => EscapeChar(s[1..][i]));
  }

  /** A JSON string literal for s. */
  function Quote(s: string): string {
    "\"" + Escape(s) + "\""
  }

  /** Reads the rest of a string literal whose opening quote is already consumed: its text and what follows. */
  function ReadString(s: string): (r: Option<(string, string)>)
    ensures r.Some? ==> |r.value.1| < |s|
    decreases |s|
  {
    if s == [] then None
    else if s[0] == '"' then Some(([], s[1..]))
    else if s[0] == '\\' then
      if |s| < 2 || Unescape(s[1]).None? then None
      else
        match ReadString(s[2..])
        case None => None
        case Some((t, rest)) => Some(([Unescape(s[1]).value] + t, rest))
    else
      match ReadString(s[1..])
      case None => None
      case Some((t, rest)) => Some(([s[0]] + t, rest))
  }

  function ReadQuoted(s: string): (r: Option<(string, string)>)
    ensures r.Some? ==> |r.value.1| < |s|
  {
    if |s| > 0 && s[0] == '"' then ReadString(s[1..]) else None
  }

  /** Consumes the literal text `lit` at the start of s. */
  function Expect(s: string, lit: string): (r: Option<string>)
    ensures r.Some? ==> s == lit + r.value
  {
    if |lit| <= |s| && s[..|lit|] == lit then Some(s[|lit|..]) else None
  }

  lemma ExpectPrefix(lit: string, rest: string)
    ensures Expect(lit + rest, lit) == Some(rest)
  {
    assert (lit + rest)[..|lit|] == lit;
  }

  lemma Concat4<T>(a: seq<T>, b: seq<T>, c: seq<T>, d: seq<T>)
    ensures a + b + c + d == a + (b + (c + d))
  {
  }

  lemma ExpectMismatch(s: string, lit: string)
    requires |s| > 0 && |lit| > 0 && s[0] != lit[0]
    ensures Expect(s, lit).None?
  {
    if |lit| <= |s| {
      assert s[..|lit|][0] != lit[0];
    }
  }

  lemma EscapeCharShape(c: char)
    ensures (EscapeChar(c) == [c] && c != '"' && c != '\\')
         || (|EscapeChar(c)| == 2 && EscapeChar(c)[0] == '\\' && Unescape(EscapeChar(c)[1]) == Some(c))
  {
  }

  /** Reading an escaped text followed by a closing quote gives the text back. */
  lemma {:induction false} ReadStringEscape(s: string, rest: string)
    ensures ReadString(Escape(s) + "\"" + rest) == Some((s, rest))
    decreases |s|
  {
    if s == [] {
      assert Escape(s) + "\"" + rest == "\"" + rest;
    } else {
      EscapeCons(s);
      var e := EscapeChar(s[0]);
      var tail := Escape(s[1..]) + "\"" + rest;
      assert Escape(s) + "\"" + rest == e + tail;
      ReadStringEscape(s[1..], rest);
      EscapeCharShape(s[0]);
      if e == [s[0]] {
        assert (e + tail)[1..] == tail;
      } else {
        assert (e + tail)[2..] == tail;
      }
      assert [s[0]] + s[1..] == s;
    }
  }

  lemma ReadQuotedQuote(s: string, rest: string)
    ensures ReadQuoted(Quote(s) + rest) == Some((s, rest))
  {
    assert (Quote(s) + rest)[1..] == Escape(s) + "\"" + rest;
    ReadStringEscape(s, rest);
  }

  // ---- lists of strings: "a","b",...

  function MarshalStrings(ss: seq<string>): string {
    if ss == [] then ""
    else if |ss| == 1 then Quote(ss[0])
    else Quote(ss[0]) + "," + MarshalStrings(ss[1..])
  }

  /** Reads one or more comma-separated string literals. */
  function ReadStrings(s: string): (r: Option<(seq<string>, string)>)
    ensures r.Some? ==> |r.value.1| < |s|
    decreases |s|
  {
    match ReadQuoted(s)
    case None => None
    case Some((x, rest)) =>
      if |rest| > 0 && rest[0] == ',' then
        match ReadStrings(rest[1..])
        case None => None
        case Some((xs, rest')) => Some(([x] + xs, rest'))
      else Some(([x], rest))
  }

  lemma {:induction false} ReadStringsMarshal(ss: seq<string>, rest: string)
    requires ss != []
    requires rest == [] || rest[0] != ','
    ensures ReadStrings(MarshalStrings(ss) + rest) == Some((ss, rest))
    decreases |ss|
  {
    if |ss| == 1 {
      assert MarshalStrings(ss) == Quote(ss[0]);
      ReadStringsLast(ss[0], rest);
      assert ss == [ss[0]];
    } else {
      var more := "," + (MarshalStrings(ss[1..]) + rest);
      MarshalStringsCons(ss, rest);
      ReadStringsCons(ss[0], more);
      assert more[1..] == MarshalStrings(ss[1..]) + rest;
      ReadStringsMarshal(ss[1..], rest);
      assert [ss[0]] + ss[1..] == ss;
    }
  }

  lemma MarshalStringsCons(ss: seq<string>, rest: string)
    requires |ss| > 1
    ensures MarshalStrings(ss) + rest == Quote(ss[0]) + ("," + (MarshalStrings(ss[1..]) + rest))
  {
    assert MarshalStrings(ss) == Quote(ss[0]) + "," + MarshalStrings(ss[1..]);
    Concat4(Quote(ss[0]), ",", MarshalStrings(ss[1..]), rest);
  }

  lemma ReadStringsLast(x: string, rest: string)
    requires rest == [] || rest[0] != ','
    ensures ReadStrings(Quote(x) + rest) == Some(([x], rest))
  {
    ReadQuotedQuote(x, rest);
  }

  lemma ReadStringsCons(x: string, more: string)
    requires |more| > 0 && more[0] == ','
    ensures ReadStrings(Quote(x) + more)
         == match ReadStrings(more[1..]) case None => None case Some((xs, r)) => Some(([x] + xs, r))
  {
    ReadQuotedQuote(x, more);
  }

  // ---- errors

  function MarshalError(e: Error): string {
    "{\"code\":" + Quote(e.code) + ",\"message\":" + Quote(e.message)
    + (if e.detail == [] then "" else ",\"detail\":[" + MarshalStrings(e.detail) + "]")
    + "}"
  }

  /** Reads one error object; the stages below follow its fields in order. */
  function ReadError(s: string): (r: Option<(Error, string)>)
    ensures r.Some? ==> |r.value.1| < |s|
  {
    match Expect(s, "{\"code\":")
    case None => None
    case Some(s1) =>
      match ReadQuoted(s1)
      case None => None
      case Some((code, s2)) => ReadMessage(code, s2)
  }

  function ReadMessage(code: string, s: string): (r: Option<(Error, string)>)
    ensures r.Some? ==> |r.value.1| < |s|
  {
    match Expect(s, ",\"message\":")
    case None => None
    case Some(s1) =>
      match ReadQuoted(s1)
      case None => None
      case Some((message, s2)) => ReadDetail(code, message, s2)
  }

  /** The optional detail list, then the closing brace. */
  function ReadDetail(code: string, message: string, s: string): (r: Option<(Error, string)>)
    ensures r.Some? ==> |r.value.1| < |s|
  {
    match Expect(s, ",\"detail\":[")
    case Some(s1) => ReadDetailList(code, message, s1)
    case None =>
      match Expect(s, "}")
      case None => None
      case Some(s1) => Some((Error(code, message, []), s1))
  }

  function ReadDetailList(code: string, message: string, s: string): (r: Option<(Error, string)>)
    ensures r.Some? ==> |r.value.1| < |s|
  {
    match ReadStrings(s)
    case None => None
    case Some((detail, s1)) =>
      match Expect(s1, "]}")
      case None => None
      case Some(s2) => Some((Error(code, message, detail), s2))
  }

  lemma ReadDetailMarshal(e: Error, rest: string)
    ensures ReadDetail(e.code, e.message,
                       (if e.detail == [] then "" else ",\"detail\":[" + MarshalStrings(e.detail) + "]") + "}" + rest)
         == Some((e, rest))
  {
    if e.detail == [] {
      assert "" + "}" + rest == "}" + rest;
      ExpectMismatch("}" + rest, ",\"detail\":[");
      ExpectPrefix("}", rest);
    } else {
      var s1 := MarshalStrings(e.detail) + ("]}" + rest);
      assert ",\"detail\":[" + MarshalStrings(e.detail) + "]" + "}" + rest == ",\"detail\":[" + s1;
      ExpectPrefix(",\"detail\":[", s1);
      ReadStringsMarshal(e.detail, "]}" + rest);
      ExpectPrefix("]}", rest);
    }
  }

  lemma ReadErrorMarshal(e: Error, rest: string)
    ensures ReadError(MarshalError(e) + rest) == Some((e, rest))
  {
    var opt := if e.detail == [] then "" else ",\"detail\":[" + MarshalStrings(e.detail) + "]";
    var tail := opt + "}" + rest;
    var s3 := Quote(e.message) + tail;
    var s2 := ",\"message\":" + s3;
    var s1 := Quote(e.code) + s2;
    assert MarshalError(e) + rest == "{\"code\":" + s1;
    ExpectPrefix("{\"code\":", s1);
    ReadQuotedQuote(e.code, s2);
    ExpectPrefix(",\"message\":", s3);
    ReadQuotedQuote(e.message, tail);
    ReadDetailMarshal(e, rest);
  }

  function MarshalErrors(es: seq<Error>): string {
    if es == [] then ""
    else if |es| == 1 then MarshalError(es[0])
    else MarshalError(es[0]) + "," + MarshalErrors(es[1..])
  }

  /** Reads one or more comma-separated errors. */
  function ReadErrors(s: string): (r: Option<(seq<Error>, string)>)
    ensures r.Some? ==> |r.value.1| < |s|
    decreases |s|
  {
    match ReadError(s)
    case None => None
    case Some((e, rest)) =>
      if |rest| > 0 && rest[0] == ',' then
        match ReadErrors(rest[1..])
        case None => None
        case Some((es, rest')) => Some(([e] + es, rest'))
      else Some(([e], rest))
  }

  lemma {:induction false} ReadErrorsMarshal(es: seq<Error>, rest: string)
    requires es != []
    requires rest == [] || rest[0] != ','
    ensures ReadErrors(MarshalErrors(es) + rest) == Some((es, rest))
    decreases |es|
  {
    var e := es[0];
    if |es| == 1 {
      assert MarshalErrors(es) == MarshalError(e);
      ReadErrorsLast(e, rest);
      assert es == [e];
    } else {
      ReadErrorsMarshal(es[1..], rest);
      ReadErrorsMarshalCons(es, rest);
    }
  }

  /** The inductive step: reading the first error, a comma, then the rest of the list. */
  lemma ReadErrorsMarshalCons(es: seq<Error>, rest: string)
    requires |es| > 1
    requires ReadErrors(MarshalErrors(es[1..]) + rest) == Some((es[1..], rest))
    ensures ReadErrors(MarshalErrors(es) + rest) == Some((es, rest))
  {
    var more := "," + (MarshalErrors(es[1..]) + rest);
    MarshalErrorsCons(es, rest);
    assert more[1..] == MarshalErrors(es[1..]) + rest;
    ReadErrorsStep(es[0], more, es[1..], rest);
    assert [es[0]] + es[1..] == es;
  }

  lemma MarshalErrorsCons(es: seq<Error>, rest: string)
    requires |es| > 1
    ensures MarshalErrors(es) + rest == MarshalError(es[0]) + ("," + (MarshalErrors(es[1..]) + rest))
  {
    assert MarshalErrors(es) == MarshalError(es[0]) + "," + MarshalErrors(es[1..]);
    Concat4(MarshalError(es[0]), ",", MarshalErrors(es[1..]), rest);
  }

  lemma ReadErrorsLast(e: Error, rest: string)
    requires rest == [] || rest[0] != ','
    ensures ReadErrors(MarshalError(e) + rest) == Some(([e], rest))
  {
    ReadErrorMarshal(e, rest);
  }

  lemma ReadErrorsStep(e: Error, more: string, tail: seq<Error>, rest: string)
    requires |more| > 0 && more[0] == ','
    requires ReadErrors(more[1..]) == Some((tail, rest))
    ensures ReadErrors(MarshalError(e) + more) == Some(([e] + tail, rest))
  {
    ReadErrorsCons(e, more);
  }

  lemma ReadErrorsCons(e: Error, more: string)
    requires |more| > 0 && more[0] == ','
    ensures ReadErrors(MarshalError(e) + more)
         == match ReadErrors(more[1..]) case None => None case Some((es, r)) => Some(([e] + es, r))
  {
    ReadErrorMarshal(e, more);
  }

  /** json.Marshal of an ErrorResponse. */
  function Marshal(r: ErrorResponse): string {
    "{\"errors\":[" + MarshalErrors(r.errors) + "]}"
  }

  /** Reads a whole error body. */
  function Unmarshal(s: string): Option<ErrorResponse> {
    match Expect(s, "{\"errors\":[")
    case None => None
    case Some(s1) =>
      if s1 == "]}" then Some(ErrorResponse([]))
      else
        match ReadErrors(s1)
        case None => None
        case Some((es, s2)) => if s2 == "]}" then Some(ErrorResponse(es)) else None
  }

  lemma UnmarshalMarshal(r: ErrorResponse)
    ensures Unmarshal(Marshal(r)) == Some(r)
  {
    var s1 := MarshalErrors(r.errors) + "]}";
    assert Marshal(r) == "{\"errors\":[" + s1;
    ExpectPrefix("{\"errors\":[", s1);
    if r.errors != [] {
      MarshalErrorsOpens(r.errors);
      assert s1[0] == '{';
      ReadErrorsMarshal(r.errors, "]}");
    } else {
      assert s1 == "]}";
    }
  }

  lemma MarshalErrorsOpens(es: seq<Error>)
    requires es != []
    ensures |MarshalErrors(es)| > 0 && MarshalErrors(es)[0] == '{'
  {
    if |es| > 1 {
      MarshalErrorsCons(es, "");
      assert MarshalErrors(es) + "" == MarshalErrors(es);
    }
  }

  /** ErrorString: the JSON body of an error response holding one error without detail. */
  function ErrorString(code: string, msg: string): string {
    Marshal(ErrorResponse([Error(code, msg, [])]))
  }

  /** The body decodes to exactly one error with the given code and message and no detail. */
  lemma ErrorStringDecodes(code: string, msg: string)
    ensures Unmarshal(ErrorString(code, msg)) == Some(ErrorResponse([Error(code, msg, [])]))
  {
    UnmarshalMarshal(ErrorResponse([Error(code, msg, [])]));
  }

  /** The HTTP status for an error code: 401, 503, or 500 for any other code. */
  function StatusFor(code: string): (status: nat)
    ensures status == 401 <==> code == Unauthorized
    ensures status == 503 <==> code == Unavailable
    ensures status == 500 <==> code != Unauthorized && code != Unavailable
  {
    if code == Unauthorized then 401
    else if code == Unavailable then 503
    else 500
  }

  /**
   * The response after ErrorHTTPResponse: the two headers gain one value
   * each and no other header changes, the status is the code's unless one
   * was already written, and the error string follows what was written before.
   */
  function ErrorWritten(r: Response, code: string, msg: string): (w: Response)
    ensures Values(w.header, "Content-Type") == Values(r.header, "Content-Type") + ["application/json"]
    ensures Values(w.header, "Docker-Distribution-API-Version") == Values(r.header, "Docker-Distribution-API-Version") + ["registry/2.0"]
    ensures forall k :: k != "Content-Type" && k != "Docker-Distribution-API-Version" ==> Values(w.header, k) == Values(r.header, k)
    ensures w.Code() == (if r.status == 0 then StatusFor(code) else r.status)
    ensures w.body == r.body + ErrorString(code, msg)
  {
    r.AddHeader("Content-Type", "application/json")
     .AddHeader("Docker-Distribution-API-Version", "registry/2.0")
     .WriteHeader(StatusFor(code))
     .Write(ErrorString(code, msg))
  }

  method ErrorHTTPResponse(w: ResponseWriter, code: string, msg: string)
    modifies w
    ensures w.State() == ErrorWritten(old(w.State()), code, msg)
  {
    var body := ErrorString(code, msg);
    var status := StatusFor(code);
    w.AddHeader("Content-Type", "application/json");
    w.AddHeader("Docker-Distribution-API-Version", "registry/2.0");
    w.WriteHeader(status);
    w.Write(body);
  }

  /**
   * On a response nothing was written to yet, the client receives the status
   * for the code, both Distribution-API headers, and a body that decodes to
   * the single error.
   */
  lemma ErrorWrittenShape(r: Response, code: string, msg: string)
    requires r.status == 0 && r.body == ""
    ensures var w := ErrorWritten(r, code, msg);
      && w.Code() == StatusFor(code)
      && Values(w.header, "Content-Type") == Values(r.header, "Content-Type") + ["application/json"]
      && Values(w.header, "Docker-Distribution-API-Version") == Values(r.header, "Docker-Distribution-API-Version") + ["registry/2.0"]
      && Unmarshal(w.body) == Some(ErrorResponse([Error(code, msg, [])]))
  {
    var w := ErrorWritten(r, code, msg);
    assert w.body == ErrorString(code, msg);
    ErrorStringDecodes(code, msg);
  }
}
