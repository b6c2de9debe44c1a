/** The header field of the Swiss Knife's Raw Requests tab: one
    `Name: Value` header per line. */
module SwissRequests {
  import opened Wrappers
  import opened Strings
  import opened LineParsing

  /** `tchar` of section 5.6.2 of RFC 9110: a visible ASCII character
      other than the delimiters. */
  predicate IsTokenChar(c: char)
  {
    0x21 <= c as int <= 0x7E && c !in "\"(),/:;<=>?@[\\]{}"
  }

  /** A `token` of section 5.6.2 of RFC 9110: one or more `tchar`. */
  predicate IsToken(s: string)
  {
    s != [] && forall i :: 0 <= i < |s| ==> IsTokenChar(s[i])
  }

  /** A parsed field name; the `http` crate stores names lower-cased. */
  datatype HeaderName = HeaderName(name: string)

  /** `HeaderName::from_str`: a token, lower-cased. */
  function ParseHeaderName(s: string): (r: Option<HeaderName>)
    ensures r.Some? <==> IsToken(s)
  {
    if IsToken(s) then Some(HeaderName(AsciiLowercase(s))) else None
  }

  datatype HeaderProblem = NoColon(line: nat) | InvalidName
  {
    function Message(): string
    {
      match this
      case NoColon(n) => "Header must use Name: Value format on line " + NatToString(n)
      case InvalidName => "invalid HTTP header name"
    }
  }

  type Header = (HeaderName, string)

  /** One line, numbered `n` from 1 over all lines: trimmed, split at the
      first ':', name and value trimmed. */
  function HeaderLine(line: string, n: nat): Result<Option<Header>, HeaderProblem>
  {
    var trimmed := Trim(line);
    if trimmed == [] then Ok(None)
    else match SplitOnce(trimmed, ':')
      case None => Err(NoColon(n))
      case Some((name, value)) =>
        match ParseHeaderName(Trim(name))
        case None => Err(InvalidName)
        case Some(h) => Ok(Some((h, Trim(value))))
  }

  function HeaderResults(lines: seq<string>): (r: seq<Result<Option<Header>, HeaderProblem>>)
    ensures |r| == |lines|
  {
    seq(|lines|, i requires 0 <= i < |lines| => HeaderLine(lines[i], i + 1))
  }

  /** What `parse_headers` returns. */
  function ParseHeadersSpec(input: string): Result<seq<Header>, string>
  {
    var results := HeaderResults(Lines(input));
    match Collect(results, |results|)
    case Err(e) => Err(e.Message())
    case Ok(headers) => Ok(headers)
  }

  /** `parse_headers`. */
  method ParseHeaders(input: string) returns (r: Result<seq<Header>, string>)
    ensures r == ParseHeadersSpec(input)
  {
    var lines := Lines(input);
    ghost var results := HeaderResults(lines);
    var parsed: seq<Header> := [];
    var index := 0;
    while index < |lines|
      invariant 0 <= index <= |lines|
      invariant Collect(results, index) == Ok(parsed)
    {
      var outcome := ReadHeaderLine(lines[index], index + 1);
      assert results[index] == outcome;
      CollectStep(results, index, parsed);
      match outcome {
        case Err(problem) =>
          return Err(problem.Message());
        case Ok(None) =>
        case Ok(Some(header)) =>
          parsed := parsed + [header];
      }
      index := index + 1;
    }
    return Ok(parsed);
  }

  /** The body of the loop of `parse_headers` for one line: a blank line
      is skipped; otherwise the line must split at its first ':' into a
      valid name and a value. */
  method ReadHeaderLine(line: string, n: nat) returns (r: Result<Option<Header>, HeaderProblem>)
    ensures r == HeaderLine(line, n)
  {
    var trimmed := Trim(line);
    if trimmed == [] {
      return Ok(None);
    }
    var split := SplitOnce(trimmed, ':');
    if split.None? {
      return Err(NoColon(n));
    }
    var (name, value) := split.value;
    var headerName := ParseHeaderName(Trim(name));
    if headerName.None? {
      return Err(InvalidName);
    }
    r := Ok(Some((headerName.value, Trim(value))));
  }

  /** Blank lines are skipped. */
  lemma BlankLineSkipped(line: string, n: nat)
    ensures HeaderLine(line, n) == Ok(None) <==> IsBlank(line)
  {
  }

  /** A non-blank line without ':' is refused with its own number. */
  lemma MissingColonRefused(line: string, n: nat)
    requires !IsBlank(line) && ':' !in line
    ensures HeaderLine(line, n) == Err(NoColon(n))
  {
    TrimChars(line, ':');
    SplitOnceShape(Trim(line), ':');
  }

  /** The name is what precedes the first ':'; the value keeps later ones. */
  lemma SplitsAtFirstColon(name: string, value: string, n: nat)
    requires ':' !in name && !IsBlank(name)
    requires !IsWhitespace(name[0]) && value != [] && !IsWhitespace(value[|value| - 1])
    ensures HeaderLine(name + ":" + value, n) ==
      match ParseHeaderName(Trim(name))
      case None => Err(InvalidName)
      case Some(h) => Ok(Some((h, Trim(value))))
  {
    var line := name + ":" + value;
    assert line[0] == name[0] && line[|line| - 1] == value[|value| - 1];
    TrimOfTrimmed(line);
    SplitOnceOfJoin(name, ':', value);
  }

  /** A name that is not an RFC 9110 token makes the line, and so the whole
      field, fail. */
  lemma InvalidNameRefused(name: string, value: string, n: nat)
    requires ':' !in name && !IsBlank(name)
    requires !IsWhitespace(name[0]) && value != [] && !IsWhitespace(value[|value| - 1])
    requires !IsToken(Trim(name))
    ensures HeaderLine(name + ":" + value, n) == Err(InvalidName)
  {
    SplitsAtFirstColon(name, value, n);
  }

  /** The field's error is that of its first bad line. */
  lemma FirstBadHeaderReported(input: string, j: nat)
    requires j < |Lines(input)|
    requires HeaderLine(Lines(input)[j], j + 1).Err?
    requires forall i :: 0 <= i < j ==> HeaderLine(Lines(input)[i], i + 1).Ok?
    ensures ParseHeadersSpec(input) == Err(HeaderLine(Lines(input)[j], j + 1).error.Message())
  {
    FirstProblemWins(HeaderResults(Lines(input)), j);
  }

  /** A header that reads back as itself from a "name: value" line. */
  predicate Writable(h: Header)
  {
    IsToken(h.0.name) && AsciiLowercase(h.0.name) == h.0.name
    && h.1 != [] && Trimmed(h.1) && '\n' !in h.1
  }

  function HeaderText(h: Header): string
  {
    h.0.name + ": " + h.1
  }

  function HeaderTexts(hs: seq<Header>): seq<string>
  {
    seq(|hs|, i requires 0 <= i < |hs| => HeaderText(hs[i]))
  }

  /** Tokens hold neither ':' nor whitespace. */
  lemma TokenFacts(name: string)
    requires IsToken(name)
    ensures ':' !in name && '\n' !in name && !IsBlank(name) && Trimmed(name)
    ensures !IsWhitespace(name[0])
  {
    assert IsTokenChar(name[0]) && IsTokenChar(name[|name| - 1]);
    assert ':' in "\"(),/:;<=>?@[\\]{}";
    BlankIffAllWhitespace(name);
  }

  lemma HeaderTextParses(h: Header, n: nat)
    requires Writable(h)
    ensures PlainLine(HeaderText(h))
    ensures HeaderLine(HeaderText(h), n) == Ok(Some(h))
  {
    var name := h.0.name;
    var rest := " " + h.1;
    TokenFacts(name);
    assert HeaderText(h) == name + ":" + rest;
    assert rest[|rest| - 1] == h.1[|h.1| - 1];
    SplitsAtFirstColon(name, rest, n);
    TrimOfTrimmed(name);
    TrimPadded(" ", h.1, "");
    assert " " + h.1 + "" == rest;
    assert '\n' !in rest;
  }

  /** Headers written one per line as "name: value" parse back unchanged,
      in order. */
  lemma HeadersRoundTrip(hs: seq<Header>)
    requires forall i :: 0 <= i < |hs| ==> Writable(hs[i])
    ensures ParseHeadersSpec(Join(HeaderTexts(hs), "\n")) == Ok(hs)
  {
    var lines := HeaderTexts(hs);
    HeaderTextsParse(hs);
    LinesOfJoin(lines);
    CollectAll(HeaderResults(lines), hs, |hs|);
    assert hs[..|hs|] == hs;
  }

  /** Each written line is plain and parses back as its header. */
  lemma HeaderTextsParse(hs: seq<Header>)
    requires forall i :: 0 <= i < |hs| ==> Writable(hs[i])
    ensures forall i :: 0 <= i < |hs| ==>
      PlainLine(HeaderTexts(hs)[i]) && HeaderResults(HeaderTexts(hs))[i] == Ok(Some(hs[i]))
  {
    forall i | 0 <= i < |hs|
      ensures PlainLine(HeaderTexts(hs)[i]) && HeaderResults(HeaderTexts(hs))[i] == Ok(Some(hs[i]))
    {
      HeaderTextParsesAt(hs, i);
    }
  }

  lemma HeaderTextParsesAt(hs: seq<Header>, i: nat)
    requires i < |hs| && Writable(hs[i])
    ensures PlainLine(HeaderTexts(hs)[i]) && HeaderResults(HeaderTexts(hs))[i] == Ok(Some(hs[i]))
  {
    var line := HeaderTexts(hs)[i];
    assert line == HeaderText(hs[i]);
    HeaderTextParses(hs[i], i + 1);
    assert HeaderResults(HeaderTexts(hs))[i] == HeaderLine(line, i + 1);
  }
}
