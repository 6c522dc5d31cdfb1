/** What the reporter writes on stdout, one line at a time, and how the runner
    turns each line into an item of its "data" stream (the split2 mapper in
    src/testthat/runner.ts), plus JSON.stringify of a string, which the runner
    uses to build its transcript. */
module Wire {
  import opened Common

  /** A parsed reporter line. Every field may be absent; `eventType` is the
      JSON member "type". */
  datatype TestResult = TestResult(
    eventType: Option<string>,
    test: Option<string>,
    result: Option<string>,
    message: Option<string>)

  /** One item of the stream: a string (a line that failed to parse, or a JSON
      string literal), or any other parsed JSON value, seen through the fields
      the handler reads, together with what JSON.stringify writes for the whole
      value (every member it has, not only those fields). */
  datatype Data = Text(text: string) | Value(event: TestResult, json: string)

  /** The JSON parser, which the model takes as given: it yields the parsed
      value, or nothing when JSON.parse throws. */
  datatype Codec = Codec(parseJson: string -> Option<Data>)

  /** The split2 mapper: JSON.parse the line, or pass on the raw line followed
      by "\r\n" when parsing throws. */
  function DecodeLine(codec: Codec, line: string): Data {
    match codec.parseJson(line)
    case Some(d) => d
    case None => Text(line + "\r\n")
  }

  /** The escape JSON.stringify writes for one character of a string. */
  function EscapeChar(c: char): string {
    if c == '"' then "\\\""
    else if c == '\\' then "\\\\"
    else if c == '\U{8}' then "\\b"
    else if c == '\t' then "\\t"
    else if c == '\n' then "\\n"
    else if c == '\U{C}' then "\\f"
    else if c == '\r' then "\\r"
    else if c < ' ' then "\\u00" + [HexDigit(c as int / 16), HexDigit(c as int % 16)]
    else [c]
  }

  function HexDigit(n: nat): char
    requires n < 16
  {
    "0123456789abcdef"[n]
  }

  function Escape(s: string): string
    decreases |s|
  {
    if s == [] then [] else EscapeChar(s[0]) + Escape(s[1..])
  }

  /** JSON.stringify applied to a string. */
  function QuoteJson(s: string): string {
    "\"" + Escape(s) + "\""
  }

  /** JSON.stringify applied to an item of the stream. */
  function Stringify(d: Data): string {
    match d
    case Text(t) => QuoteJson(t)
    case Value(_, json) => json
  }

  /** Characters that JSON.stringify copies unchanged. */
  predicate Plain(w: string) {
    forall c :: c in w ==> c >= ' ' && c != '"' && c != '\\'
  }

  lemma {:induction false} EscapeAppend(a: string, b: string)
    ensures Escape(a + b) == Escape(a) + Escape(b)
    decreases |a|
  {
    if a == [] {
      assert a + b == b;
    } else {
      assert (a + b)[0] == a[0] && (a + b)[1..] == a[1..] + b;
      EscapeAppend(a[1..], b);
    }
  }

  lemma {:induction false} EscapePlain(w: string)
    requires Plain(w)
    ensures Escape(w) == w
    decreases |w|
  {
    if w != [] {
      assert w[0] in w;
      assert EscapeChar(w[0]) == [w[0]];
      forall c | c in w[1..]
        ensures c >= ' ' && c != '"' && c != '\\'
      {
        assert c in w;
      }
      EscapePlain(w[1..]);
      assert w == [w[0]] + w[1..];
    }
  }

  /** Quoting a string keeps every run of plain characters in it, so text such
      as "Execution halted" in a string still appears in the transcript. */
  lemma {:induction false} QuoteKeepsPlainText(s: string, w: string)
    requires Plain(w) && Contains(s, w)
    ensures Contains(QuoteJson(s), w)
  {
    EscapeKeepsPlainText(s, w);
    ContainsInSuffix("\"", Escape(s), w);
    assert QuoteJson(s) == "\"" + Escape(s) + "\"";
    ContainsInPrefix("\"" + Escape(s), "\"", w);
  }

  lemma {:induction false} EscapeKeepsPlainText(s: string, w: string)
    requires Plain(w) && Contains(s, w)
    ensures Contains(Escape(s), w)
    decreases |s|
  {
    if w <= s {
      var rest := s[|w|..];
      assert s == w + rest;
      EscapeAppend(w, rest);
      EscapePlain(w);
      assert w <= Escape(s);
    } else {
      EscapeKeepsPlainText(s[1..], w);
      ContainsInSuffix(EscapeChar(s[0]), Escape(s[1..]), w);
    }
  }
}
