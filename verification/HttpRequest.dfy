/** The tunnel's HTTP/1.1 request reader (HttpProxyRequest.kt). Text is ISO-8859-1: one character a byte. */
module HttpRequest {
  import opened Common

  type Byte = n: int | 0 <= n < 256 witness 0

  type Bytes = seq<Byte>

  type Headers = seq<(string, string)>

  const CR: Byte := 13

  const LF: Byte := 10

  const MAX_HEADER_LINES := 200

  const MAX_INT := 0x7fff_ffff

  const MAX_BODY_BYTES := 20 * 1024 * 1024

  datatype Request = Request(verb: string, requestUri: string, headers: Headers, body: Option<Bytes>)

  function Decode(bytes: Bytes): (text: string)
    ensures |text| == |bytes|
  {
    seq(|bytes|, i requires 0 <= i < |bytes| => bytes[i] as char)
  }

  // ---- Characters and numbers, as the library treats them ----

  // Char.isWhitespace below U+0100.
  predicate IsWhitespace(c: char) {
    9 <= c as int <= 13 || 28 <= c as int <= 32 || c as int == 160
  }

  predicate IsBlank(s: string) {
    forall i :: 0 <= i < |s| ==> IsWhitespace(s[i])
  }

  function TrimStart(s: string): string {
    if |s| > 0 && IsWhitespace(s[0]) then TrimStart(s[1..]) else s
  }

  function TrimEnd(s: string): string {
    if |s| > 0 && IsWhitespace(s[|s| - 1]) then TrimEnd(s[..|s| - 1]) else s
  }

  function Trim(s: string): string {
    TrimEnd(TrimStart(s))
  }

  // Three letters below U+0100 have capitals that are longer or lie outside it.
  function UpperChar(c: char): string {
    if 'a' <= c <= 'z' || (224 <= c as int <= 254 && c as int != 247) then [(c as int - 32) as char]
    else if c as int == 223 then "SS"
    else if c as int == 255 then ['\U{0178}']
    else if c as int == 181 then ['\U{039C}']
    else [c]
  }

  function Uppercase(s: string): string {
    if |s| == 0 then "" else Uppercase(s[..|s| - 1]) + UpperChar(s[|s| - 1])
  }

  function LowerAscii(s: string): string {
    seq(|s|, i requires 0 <= i < |s| => if 'A' <= s[i] <= 'Z' then (s[i] as int + 32) as char else s[i])
  }

  predicate AllDigits(s: string) {
    |s| > 0 && forall i :: 0 <= i < |s| ==> '0' <= s[i] <= '9'
  }

  function Number(digits: string): nat
    requires forall i :: 0 <= i < |digits| ==> '0' <= digits[i] <= '9'
  {
    if |digits| == 0 then 0 else 10 * Number(digits[..|digits| - 1]) + (digits[|digits| - 1] as int - '0' as int)
  }

  function ToIntOrNull(s: string): Option<int> {
    var unsigned := if |s| > 0 && (s[0] == '-' || s[0] == '+') then s[1..] else s;
    if !AllDigits(unsigned) then None else
      var magnitude: int := Number(unsigned);
      var n := if s[0] == '-' then -magnitude else magnitude;
      if -MAX_INT - 1 <= n <= MAX_INT then Some(n) else None
  }

  function IndexOf(s: string, c: char): (k: nat)
    ensures k <= |s| && forall i :: 0 <= i < k ==> s[i] != c
    ensures k < |s| ==> s[k] == c
  {
    if |s| == 0 || s[0] == c then 0 else 1 + IndexOf(s[1..], c)
  }

  // ---- What the reader computes from the bytes still to come ----

  function LineEnd(input: Bytes): (k: nat)
    ensures k <= |input| && forall i :: 0 <= i < k ==> input[i] != LF
    ensures k < |input| ==> input[k] == LF
  {
    if |input| == 0 || input[0] == LF then 0 else 1 + LineEnd(input[1..])
  }

  function WithoutCr(line: Bytes): Bytes {
    if |line| > 0 && line[|line| - 1] == CR then line[..|line| - 1] else line
  }

  /** One line without its end, and what follows. At the end of the stream a last line keeps its CR. */
  function TakeLine(input: Bytes): (Option<string>, Bytes) {
    var n := LineEnd(input);
    if |input| == 0 then (None, input)
    else if n == |input| then (Some(Decode(input)), [])
    else (Some(Decode(WithoutCr(input[..n]))), input[n + 1..])
  }

  // Lines without a name before a colon are passed over and do not count.
  function TakeHeaders(input: Bytes, found: Headers): (Headers, Bytes)
    decreases |input|
  {
    var (line, rest) := TakeLine(input);
    if |found| >= MAX_HEADER_LINES then (found, input)
    else if line.None? || |line.value| == 0 then (found, rest)
    else TakeHeaders(rest, found + HeaderIn(line.value))
  }

  function HeaderIn(line: string): Headers {
    var k := IndexOf(line, ':');
    if k == |line| || k == 0 then [] else [(Trim(line[..k]), Trim(line[k + 1..]))]
  }

  function FirstValue(headers: Headers, name: string): Option<string> {
    if |headers| == 0 then None
    else if LowerAscii(headers[0].0) == name then Some(headers[0].1)
    else FirstValue(headers[1..], name)
  }

  function BodyLength(headers: Headers): (length: nat)
    ensures length <= MAX_BODY_BYTES
  {
    var declared := FirstValue(headers, "content-length");
    if declared.None? || ToIntOrNull(declared.value).None? then 0
    else CoerceIn(ToIntOrNull(declared.value).value, 0, MAX_BODY_BYTES)
  }

  function TakeBody(input: Bytes, length: nat): (Option<Bytes>, Bytes) {
    if length == 0 then (None, input)
    else if length <= |input| then (Some(input[..length]), input[length..])
    else (Some(input), [])
  }

  function TakeRest(line: string, afterLine: Bytes): (Request, Bytes)
    requires IndexOf(line, ' ') < |line|
  {
    var space := IndexOf(line, ' ');
    var target := line[space + 1..];
    var (headers, afterHeaders) := TakeHeaders(afterLine, []);
    var (body, rest) := TakeBody(afterHeaders, BodyLength(headers));
    (Request(Uppercase(line[..space]), target[..IndexOf(target, ' ')], headers, body), rest)
  }

  function TakeRequest(input: Bytes): (Option<Request>, Bytes) {
    var (line, afterLine) := TakeLine(input);
    if line.None? || IsBlank(line.value) || IndexOf(line.value, ' ') == |line.value| then (None, afterLine) else
      var (request, rest) := TakeRest(line.value, afterLine);
      (Some(request), rest)
  }

  // ---- The reader ----

  class InputStream {
    const bytes: Bytes
    var pos: nat

    predicate Valid()
      reads this
    {
      pos <= |bytes|
    }

    function Rest(): Bytes
      requires Valid()
      reads this
    {
      bytes[pos..]
    }

    constructor (bytes: Bytes)
      ensures Valid() && Rest() == bytes
    {
      this.bytes := bytes;
      pos := 0;
    }

    /** The next byte, or -1 at the end. */
    method Read() returns (b: int)
      requires Valid()
      modifies this
      ensures Valid()
      ensures old(Rest()) == [] ==> b == -1 && Rest() == []
      ensures old(Rest()) != [] ==> b == old(Rest())[0] && Rest() == old(Rest())[1..]
    {
      if pos == |bytes| {
        return -1;
      }
      b := bytes[pos];
      pos := pos + 1;
    }

    /** Some of the bytes wanted, at least one unless the stream has ended. */
    method ReadInto(buffer: array<Byte>, offset: nat, length: nat) returns (n: int)
      requires Valid() && 0 < length && offset + length <= buffer.Length
      modifies this, buffer
      ensures Valid()
      ensures n == -1 ==> old(Rest()) == [] && Rest() == []
      ensures n != -1 ==> 0 < n <= length && n <= |old(Rest())| && Rest() == old(Rest())[n..]
      ensures buffer[..offset] == old(buffer[..offset])
      ensures n != -1 ==> buffer[offset..offset + n] == old(Rest())[..n]
    {
      if pos == |bytes| {
        return -1;
      }
      n :| 1 <= n <= length && pos + n <= |bytes|;
      forall i | 0 <= i < n {
        buffer[offset + i] := bytes[pos + i];
      }
      assert bytes[pos..pos + n] == buffer[offset..offset + n];
      pos := pos + n;
    }
  }

  // A line feed ends the line at once, whatever follows.
  lemma LineEndIs(line: Bytes, rest: Bytes)
    requires LF !in line
    ensures LineEnd(line + [LF] + rest) == |line|
  {
    var input := line + [LF] + rest;
    forall i | 0 <= i < |line| ensures input[i] != LF {
      assert line[i] in line;
    }
    assert input[|line|] == LF;
  }

  lemma TakenLine(line: Bytes, rest: Bytes)
    requires LF !in line
    ensures TakeLine(line + [LF] + rest) == (Some(Decode(WithoutCr(line))), rest)
  {
    var input := line + [LF] + rest;
    LineEndIs(line, rest);
    assert input[..|line|] == line && input[|line| + 1..] == rest;
  }

  method ReadLine(input: InputStream) returns (line: Option<string>)
    requires input.Valid()
    modifies input
    ensures input.Valid() && (line, input.Rest()) == TakeLine(old(input.Rest()))
  {
    ghost var all := input.Rest();
    var buffer: Bytes := [];
    while true
      invariant input.Valid() && all == buffer + input.Rest() && LF !in buffer
      decreases |input.Rest()|
    {
      ghost var rest := input.Rest();
      var b := input.Read();
      if b == -1 {
        assert all == buffer;
        return if |buffer| == 0 then None else Some(Decode(buffer));
      }
      assert all == buffer + [rest[0]] + input.Rest();
      if b == LF {
        TakenLine(buffer, input.Rest());
        var length := if |buffer| > 0 && buffer[|buffer| - 1] == CR then |buffer| - 1 else |buffer|;
        assert buffer[..|buffer|] == buffer;
        return Some(Decode(buffer[..length]));
      }
      buffer := buffer + [b];
    }
  }

  method ReadExactly(input: InputStream, length: nat) returns (bytes: Bytes)
    requires input.Valid() && length > 0
    modifies input
    ensures input.Valid() && (Some(bytes), input.Rest()) == TakeBody(old(input.Rest()), length)
  {
    ghost var all := input.Rest();
    var buffer := new Byte[length];
    var read := 0;
    while read < length
      invariant input.Valid() && read <= length && read <= |all|
      invariant buffer[..read] == all[..read] && input.Rest() == all[read..]
    {
      var n := input.ReadInto(buffer, read, length - read);
      if n == -1 {
        break;
      }
      assert buffer[..read + n] == buffer[..read] + buffer[read..read + n];
      assert all[..read + n] == all[..read] + all[read..][..n];
      read := read + n;
    }
    bytes := buffer[..read];
    assert read == |all| ==> bytes == all;
  }

  method ReadHeaders(input: InputStream) returns (headers: Headers)
    requires input.Valid()
    modifies input
    ensures input.Valid() && (headers, input.Rest()) == TakeHeaders(old(input.Rest()), [])
  {
    ghost var all := input.Rest();
    headers := [];
    while |headers| < MAX_HEADER_LINES
      invariant input.Valid() && TakeHeaders(all, []) == TakeHeaders(input.Rest(), headers)
      decreases |input.Rest()|
    {
      ghost var rest := input.Rest();
      var line := ReadLine(input);
      if line.None? || |line.value| == 0 {
        return;
      }
      assert TakeHeaders(rest, headers) == TakeHeaders(input.Rest(), headers + HeaderIn(line.value));
      assert |rest| > 0;
      var k := IndexOf(line.value, ':');
      if k == |line.value| || k == 0 {
        assert headers + HeaderIn(line.value) == headers;
        continue;
      }
      headers := headers + [(Trim(line.value[..k]), Trim(line.value[k + 1..]))];
    }
  }

  method Parse(input: InputStream) returns (request: Option<Request>)
    requires input.Valid()
    modifies input
    ensures input.Valid() && (request, input.Rest()) == TakeRequest(old(input.Rest()))
  {
    var requestLine := ReadLine(input);
    if requestLine.None? || IsBlank(requestLine.value) {
      return None;
    }
    var line := requestLine.value;
    var space := IndexOf(line, ' ');
    if space == |line| {
      return None;
    }
    var target := line[space + 1..];
    var headers := ReadHeaders(input);
    var length := BodyLength(headers);
    var body := None;
    if length > 0 {
      var bytes := ReadExactly(input, length);
      body := Some(bytes);
    }
    return Some(Request(Uppercase(line[..space]), target[..IndexOf(target, ' ')], headers, body));
  }
}
