/** A printer for requests (sections 3, 5 and 6 of RFC 9112) and what the reader makes of its output. */
module HttpRoundTrip {
  import opened Common
  import opened HttpRequest

  predicate Latin1(s: string) {
    forall i :: 0 <= i < |s| ==> s[i] as int < 256
  }

  function Encode(s: string): Bytes
    requires Latin1(s)
  {
    seq(|s|, i requires 0 <= i < |s| => s[i] as int)
  }

  // Text that fits on a line.
  predicate LineText(s: string) {
    Latin1(s) && '\n' !in s
  }

  predicate Trimmed(s: string) {
    |s| > 0 ==> !IsWhitespace(s[0]) && !IsWhitespace(s[|s| - 1])
  }

  predicate HeaderOk(header: (string, string)) {
    && LineText(header.0) && |header.0| > 0 && ':' !in header.0 && Trimmed(header.0)
    && LineText(header.1) && Trimmed(header.1)
  }

  /** The length a Content-Length value writes down, however large; a text that is no number, or a
      negative one, writes none. */
  function WrittenLength(s: string): nat {
    if AllDigits(s) then Number(s) else if |s| > 0 && s[0] == '+' && AllDigits(s[1..]) then Number(s[1..]) else 0
  }

  function Declared(headers: Headers): nat {
    var value := FirstValue(headers, "content-length");
    if value.None? then 0 else WrittenLength(value.value)
  }

  // The body has its declared length, of whatever size; an empty body is none.
  predicate WellFormed(r: Request) {
    && LineText(r.verb) && ' ' !in r.verb
    && LineText(r.requestUri) && ' ' !in r.requestUri
    && (forall i :: 0 <= i < |r.headers| ==> HeaderOk(r.headers[i]))
    && |PrintBody(r.body)| == Declared(r.headers) && (r.body.Some? ==> |r.body.value| > 0)
  }

  function PrintLine(s: string): Bytes
    requires LineText(s)
  {
    Encode(s) + [CR, LF]
  }

  function HeaderLine(header: (string, string)): (line: string)
    requires HeaderOk(header)
    ensures LineText(line)
  {
    header.0 + (": " + header.1)
  }

  function Concat(parts: seq<Bytes>): Bytes {
    if |parts| == 0 then [] else parts[0] + Concat(parts[1..])
  }

  function HeaderLines(headers: Headers): (lines: seq<Bytes>)
    requires forall i :: 0 <= i < |headers| ==> HeaderOk(headers[i])
    ensures |lines| == |headers|
  {
    seq(|headers|, i requires 0 <= i < |headers| => PrintLine(HeaderLine(headers[i])))
  }

  function PrintHeaders(headers: Headers): Bytes
    requires forall i :: 0 <= i < |headers| ==> HeaderOk(headers[i])
  {
    Concat(HeaderLines(headers))
  }

  function PrintBody(body: Option<Bytes>): Bytes {
    if body.Some? then body.value else []
  }

  const VERSION := "HTTP/1.1"

  function RequestLine(r: Request): (line: string)
    requires WellFormed(r)
    ensures LineText(line)
  {
    r.verb + (" " + (r.requestUri + (" " + VERSION)))
  }

  function Print(r: Request): Bytes
    requires WellFormed(r)
  {
    PrintLine(RequestLine(r)) + PrintHeaders(r.headers) + [CR, LF] + PrintBody(r.body)
  }

  // ---- Lines ----

  lemma LineComesBack(s: string, rest: Bytes)
    requires LineText(s)
    ensures TakeLine(PrintLine(s) + rest) == (Some(s), rest)
  {
    var line := Encode(s) + [CR];
    forall i | 0 <= i < |s| ensures Encode(s)[i] != LF {
      assert s[i] in s;
      assert s[i] != '\n' ==> s[i] as int != 10;
    }
    TakenLine(line, rest);
    assert line + [LF] + rest == PrintLine(s) + rest;
    assert line[..|line| - 1] == Encode(s);
    assert Decode(Encode(s)) == s;
  }

  lemma BlankLineIsEmpty(rest: Bytes)
    ensures TakeLine([CR, LF] + rest) == (Some(""), rest)
  {
    LineComesBack("", rest);
    assert PrintLine("") == [CR, LF];
  }

  lemma IndexIs(before: string, c: char, after: string)
    requires c !in before
    ensures IndexOf(before + [c] + after, c) == |before|
  {
    var s := before + [c] + after;
    forall i | 0 <= i < |before| ensures s[i] != c {
      assert before[i] in before;
    }
    assert s[|before|] == c;
  }

  lemma TrimmedStays(s: string)
    requires Trimmed(s)
    ensures Trim(s) == s && Trim(" " + s) == s
  {
    assert (" " + s)[0] == ' ' && (" " + s)[1..] == s;
    assert TrimStart(" " + s) == TrimStart(s);
  }

  lemma HeaderComesBack(header: (string, string))
    requires HeaderOk(header)
    ensures HeaderIn(HeaderLine(header)) == [header] && |HeaderLine(header)| > 0
  {
    var line := HeaderLine(header);
    assert line == header.0 + [':'] + (" " + header.1);
    IndexIs(header.0, ':', " " + header.1);
    assert line[..|header.0|] == header.0 && line[|header.0| + 1..] == " " + header.1;
    TrimmedStays(header.0);
    TrimmedStays(header.1);
  }

  // ---- Headers ----

  lemma HeaderTaken(header: (string, string), found: Headers, tail: Bytes)
    requires HeaderOk(header) && |found| < MAX_HEADER_LINES
    ensures TakeHeaders(PrintLine(HeaderLine(header)) + tail, found) == TakeHeaders(tail, found + [header])
  {
    HeaderComesBack(header);
    LineComesBack(HeaderLine(header), tail);
  }

  /** A line without a name before a colon is passed over and does not count towards the limit. */
  lemma JunkLineIsSkipped(line: string, found: Headers, rest: Bytes)
    requires LineText(line) && |line| > 0 && (line[0] == ':' || ':' !in line)
    ensures TakeHeaders(PrintLine(line) + rest, found) ==
      if |found| < MAX_HEADER_LINES then TakeHeaders(rest, found) else (found, PrintLine(line) + rest)
  {
    LineComesBack(line, rest);
    assert IndexOf(line, ':') < |line| ==> ':' in line;
    assert found + HeaderIn(line) == found;
  }

  lemma BlankTaken(found: Headers, rest: Bytes)
    requires |found| < MAX_HEADER_LINES
    ensures TakeHeaders([CR, LF] + rest, found) == (found, rest)
  {
    BlankLineIsEmpty(rest);
  }

  // A reader that takes each of some lines as one header, up to the limit.
  ghost predicate TakesLines(take: (Bytes, Headers) -> (Headers, Bytes), lines: seq<Bytes>, headers: Headers) {
    && |lines| == |headers|
    && forall i {:trigger TakesLine(take, lines[i], headers[i])} :: 0 <= i < |lines| ==> TakesLine(take, lines[i], headers[i])
  }

  ghost predicate TakesLine(take: (Bytes, Headers) -> (Headers, Bytes), line: Bytes, header: (string, string)) {
    forall found, tail :: |found| < MAX_HEADER_LINES ==> take(line + tail, found) == take(tail, found + [header])
  }

  lemma {:induction false} LinesTaken(take: (Bytes, Headers) -> (Headers, Bytes), lines: seq<Bytes>, headers: Headers, found: Headers, rest: Bytes)
    requires TakesLines(take, lines, headers) && |found| + |headers| <= MAX_HEADER_LINES
    ensures take(Concat(lines) + rest, found) == take(rest, found + headers)
    decreases |lines|
  {
    if |lines| == 0 {
      assert Concat(lines) + rest == rest && found + headers == found;
    } else {
      OneLineTaken(take, lines, headers, found, rest);
      LinesTaken(take, lines[1..], headers[1..], found + [headers[0]], rest);
      assert found + [headers[0]] + headers[1..] == found + headers;
    }
  }

  lemma OneLineTaken(take: (Bytes, Headers) -> (Headers, Bytes), lines: seq<Bytes>, headers: Headers, found: Headers, rest: Bytes)
    requires TakesLines(take, lines, headers) && |lines| > 0 && |found| < MAX_HEADER_LINES
    ensures take(Concat(lines) + rest, found) == take(Concat(lines[1..]) + rest, found + [headers[0]])
    ensures TakesLines(take, lines[1..], headers[1..])
  {
    assert TakesLine(take, lines[0], headers[0]);
    assert Concat(lines) + rest == lines[0] + (Concat(lines[1..]) + rest);
    forall i | 0 <= i < |lines[1..]| ensures TakesLine(take, lines[1..][i], headers[1..][i]) {
      var next := i + 1;
      assert TakesLine(take, lines[next], headers[next]);
    }
  }

  lemma HeaderLinesTaken(headers: Headers, rest: Bytes)
    requires |headers| <= MAX_HEADER_LINES && forall i :: 0 <= i < |headers| ==> HeaderOk(headers[i])
    ensures TakeHeaders(PrintHeaders(headers) + rest, []) == TakeHeaders(rest, headers)
  {
    var lines := HeaderLines(headers);
    forall i | 0 <= i < |lines| ensures TakesLine(TakeHeaders, lines[i], headers[i]) {
      forall found, tail | |found| < MAX_HEADER_LINES
        ensures TakeHeaders(lines[i] + tail, found) == TakeHeaders(tail, found + [headers[i]])
      {
        HeaderTaken(headers[i], found, tail);
      }
    }
    LinesTaken(TakeHeaders, lines, headers, [], rest);
    assert [] + headers == headers;
  }

  lemma HeadersComeBack(headers: Headers, rest: Bytes)
    requires |headers| < MAX_HEADER_LINES && forall i :: 0 <= i < |headers| ==> HeaderOk(headers[i])
    ensures TakeHeaders(PrintHeaders(headers) + ([CR, LF] + rest), []) == (headers, rest)
  {
    HeaderLinesTaken(headers, [CR, LF] + rest);
    BlankTaken(headers, rest);
  }

  lemma {:induction false} ConcatSplit(parts: seq<Bytes>, n: nat)
    requires n <= |parts|
    ensures Concat(parts) == Concat(parts[..n]) + Concat(parts[n..])
  {
    if n == 0 {
      assert parts[0..] == parts;
    } else {
      ConcatSplit(parts[1..], n - 1);
      assert parts[..n][1..] == parts[1..][..n - 1] && parts[1..][n - 1..] == parts[n..];
    }
  }

  lemma PrintHeadersSplit(headers: Headers, n: nat)
    requires n <= |headers| && forall i :: 0 <= i < |headers| ==> HeaderOk(headers[i])
    ensures PrintHeaders(headers) == PrintHeaders(headers[..n]) + PrintHeaders(headers[n..])
  {
    ConcatSplit(HeaderLines(headers), n);
    assert HeaderLines(headers)[..n] == HeaderLines(headers[..n]) && HeaderLines(headers)[n..] == HeaderLines(headers[n..]);
  }

  /** From the limit on, header lines and the blank line stay unread. */
  lemma HeadersStopAtLimit(headers: Headers, rest: Bytes)
    requires |headers| >= MAX_HEADER_LINES && forall i :: 0 <= i < |headers| ==> HeaderOk(headers[i])
    ensures TakeHeaders(PrintHeaders(headers) + rest, []) ==
      (headers[..MAX_HEADER_LINES], PrintHeaders(headers[MAX_HEADER_LINES..]) + rest)
  {
    var unread := PrintHeaders(headers[MAX_HEADER_LINES..]) + rest;
    PrintHeadersSplit(headers, MAX_HEADER_LINES);
    assert PrintHeaders(headers) + rest == PrintHeaders(headers[..MAX_HEADER_LINES]) + unread;
    HeaderLinesTaken(headers[..MAX_HEADER_LINES], unread);
  }

  // ---- Requests ----

  lemma RequestLineComesApart(r: Request)
    requires WellFormed(r)
    ensures var line := RequestLine(r);
      && IndexOf(line, ' ') == |r.verb| < |line| && line[..|r.verb|] == r.verb
      && line[|r.verb| + 1..] == r.requestUri + (" " + VERSION)
  {
    var target := r.requestUri + (" " + VERSION);
    var line := RequestLine(r);
    assert line == r.verb + [' '] + target;
    IndexIs(r.verb, ' ', target);
  }

  lemma TargetComesApart(r: Request)
    requires WellFormed(r)
    ensures var target := r.requestUri + (" " + VERSION); target[..IndexOf(target, ' ')] == r.requestUri
  {
    var target := r.requestUri + (" " + VERSION);
    assert target == r.requestUri + [' '] + VERSION;
    IndexIs(r.requestUri, ' ', VERSION);
  }

  lemma NeverBlank(s: string)
    ensures !IsBlank(s + VERSION)
  {
    assert (s + VERSION)[|s|] == 'H';
  }

  lemma RequestLineNotBlank(r: Request)
    requires WellFormed(r)
    ensures !IsBlank(RequestLine(r))
  {
    var before := r.verb + (" " + (r.requestUri + " "));
    assert RequestLine(r) == before + VERSION;
    NeverBlank(before);
  }

  // The request as the reader reports it.
  function Reported(r: Request): Request {
    r.(verb := Uppercase(r.verb))
  }

  // All of a printed request after its first line, with what follows it.
  function Tail(r: Request, rest: Bytes): Bytes
    requires WellFormed(r)
  {
    PrintHeaders(r.headers) + ([CR, LF] + (PrintBody(r.body) + rest))
  }

  lemma FirstLineTaken(r: Request, rest: Bytes)
    requires WellFormed(r)
    ensures TakeLine(Print(r) + rest) == (Some(RequestLine(r)), Tail(r, rest))
  {
    assert Print(r) + rest == PrintLine(RequestLine(r)) + Tail(r, rest);
    LineComesBack(RequestLine(r), Tail(r, rest));
  }

  lemma {:induction false} AfterTheLine(r: Request, rest: Bytes)
    requires WellFormed(r)
    ensures var (headers, afterHeaders) := TakeHeaders(Tail(r, rest), []);
      var (body, left) := TakeBody(afterHeaders, BodyLength(headers));
      TakeRequest(Print(r) + rest) == (Some(Reported(r.(headers := headers, body := body))), left)
  {
    FirstLineTaken(r, rest);
    RequestLineNotBlank(r);
    RestAfterTheLine(r, Tail(r, rest));
  }

  lemma RestAfterTheLine(r: Request, tail: Bytes)
    requires WellFormed(r)
    ensures IndexOf(RequestLine(r), ' ') < |RequestLine(r)|
    ensures var (headers, afterHeaders) := TakeHeaders(tail, []);
      var (body, left) := TakeBody(afterHeaders, BodyLength(headers));
      TakeRest(RequestLine(r), tail) == (Reported(r.(headers := headers, body := body)), left)
  {
    RequestLineComesApart(r);
    TargetComesApart(r);
  }

  /** The reader's length is the declared one up to 20 MiB, 20 MiB up to the largest 32-bit number, and
      none above it. */
  lemma LengthReadIs(headers: Headers)
    ensures var n := Declared(headers);
      BodyLength(headers) == if n <= MAX_BODY_BYTES then n else if n <= MAX_INT then MAX_BODY_BYTES else 0
  {
    var value := FirstValue(headers, "content-length");
    if value.Some? && |value.value| > 0 && (value.value[0] == '-' || value.value[0] == '+') {
      assert !AllDigits(value.value);
    }
  }

  // What the reader makes of a body of any size, and what it leaves of it.
  function BodyRead(body: Option<Bytes>): (Option<Bytes>, Bytes) {
    if |PrintBody(body)| <= MAX_BODY_BYTES then (body, [])
    else if |body.value| <= MAX_INT then (Some(body.value[..MAX_BODY_BYTES]), body.value[MAX_BODY_BYTES..])
    else (None, body.value)
  }

  lemma BodyComesBack(r: Request, rest: Bytes)
    requires WellFormed(r)
    ensures TakeBody(PrintBody(r.body) + rest, BodyLength(r.headers)) == (BodyRead(r.body).0, BodyRead(r.body).1 + rest)
  {
    LengthReadIs(r.headers);
    if r.body.Some? {
      var b, n := r.body.value, BodyLength(r.headers);
      assert (b + rest)[..n] == b[..n] && (b + rest)[n..] == b[n..] + rest;
      assert b[..|b|] == b && b[|b|..] == [];
    } else {
      assert PrintBody(r.body) + rest == [] + rest == rest;
    }
  }

  /** With fewer than two hundred header lines, the head comes back whatever the size of the body: of an
      oversized body the first 20 MiB are read, or nothing above 32 bits, and the rest stays unread. */
  lemma {:induction false} OversizedBodyIsCut(r: Request, rest: Bytes)
    requires WellFormed(r) && |r.headers| < MAX_HEADER_LINES
    ensures TakeRequest(Print(r) + rest) == (Some(Reported(r.(body := BodyRead(r.body).0))), BodyRead(r.body).1 + rest)
  {
    AfterTheLine(r, rest);
    HeadersComeBack(r.headers, PrintBody(r.body) + rest);
    BodyComesBack(r, rest);
  }

  lemma {:induction false} RoundTrip(r: Request, rest: Bytes)
    requires WellFormed(r) && |r.headers| < MAX_HEADER_LINES && |PrintBody(r.body)| <= MAX_BODY_BYTES
    ensures TakeRequest(Print(r) + rest) == (Some(Reported(r)), rest)
  {
    OversizedBodyIsCut(r, rest);
    assert [] + rest == rest;
  }

  // With two hundred header lines or more, the reader stops before the blank line.
  lemma {:induction false} StopsAtTheLimit(r: Request, rest: Bytes)
    requires WellFormed(r) && |r.headers| >= MAX_HEADER_LINES
    ensures var headers := r.headers[..MAX_HEADER_LINES];
      var unread := PrintHeaders(r.headers[MAX_HEADER_LINES..]) + ([CR, LF] + (PrintBody(r.body) + rest));
      var (body, left) := TakeBody(unread, BodyLength(headers));
      TakeRequest(Print(r) + rest) == (Some(Reported(r.(headers := headers, body := body))), left)
  {
    AfterTheLine(r, rest);
    HeadersStopAtLimit(r.headers, [CR, LF] + (PrintBody(r.body) + rest));
  }

  // At the limit, what is read of the blank line and the body never restores both the body and the rest.
  lemma LimitLosesTheBody(r: Request, rest: Bytes)
    requires WellFormed(r)
    ensures TakeBody([CR, LF] + (PrintBody(r.body) + rest), BodyLength(r.headers)) != (r.body, rest)
  {
    LengthReadIs(r.headers);
    var input, n := [CR, LF] + (PrintBody(r.body) + rest), BodyLength(r.headers);
    assert |input| == 2 + |PrintBody(r.body)| + |rest|;
  }

  lemma NothingSurvivesTheLimit(r: Request, rest: Bytes)
    requires WellFormed(r) && |r.headers| >= MAX_HEADER_LINES
    ensures TakeRequest(Print(r) + rest) != (Some(Reported(r)), rest)
  {
    StopsAtTheLimit(r, rest);
    if |r.headers| == MAX_HEADER_LINES {
      assert r.headers[..MAX_HEADER_LINES] == r.headers;
      assert r.headers[MAX_HEADER_LINES..] == [] && PrintHeaders([]) == [];
      assert [] + ([CR, LF] + (PrintBody(r.body) + rest)) == [CR, LF] + (PrintBody(r.body) + rest);
      LimitLosesTheBody(r, rest);
    }
  }

  /** Reading back a printed request, whatever follows it, gives that request with its verb in capitals
      and leaves exactly what follows, if and only if it has fewer than two hundred header lines and a
      body of at most 20 MiB. */
  lemma {:induction false} RoundTripIff(r: Request, rest: Bytes)
    requires WellFormed(r)
    ensures TakeRequest(Print(r) + rest) == (Some(Reported(r)), rest) <==>
      |r.headers| < 200 && |PrintBody(r.body)| <= 20_971_520
  {
    if |r.headers| < MAX_HEADER_LINES {
      OversizedBodyIsCut(r, rest);
      assert [] + rest == rest;
    } else {
      NothingSurvivesTheLimit(r, rest);
    }
  }

  /** At the limit, when no body is read, the blank line is what is left behind. */
  lemma {:induction false} BlankLineLeftBehind(r: Request, rest: Bytes)
    requires WellFormed(r) && |r.headers| == MAX_HEADER_LINES && BodyLength(r.headers) == 0
    ensures TakeRequest(Print(r) + rest) == (Some(Reported(r.(body := None))), [CR, LF] + (PrintBody(r.body) + rest))
  {
    StopsAtTheLimit(r, rest);
    assert r.headers[..MAX_HEADER_LINES] == r.headers;
    assert r.headers[MAX_HEADER_LINES..] == [] && PrintHeaders([]) == [];
    assert [] + ([CR, LF] + (PrintBody(r.body) + rest)) == [CR, LF] + (PrintBody(r.body) + rest);
  }

  // ---- The declared length and the verb ----

  function Digit(d: nat): char
    requires d < 10
  {
    ('0' as int + d) as char
  }

  function Decimal(n: nat): string {
    if n < 10 then [Digit(n)] else Decimal(n / 10) + [Digit(n % 10)]
  }

  lemma {:induction false} DecimalIsRead(n: nat)
    ensures AllDigits(Decimal(n)) && Number(Decimal(n)) == n
  {
    if n >= 10 {
      DecimalIsRead(n / 10);
      assert Decimal(n)[..|Decimal(n)| - 1] == Decimal(n / 10);
    }
  }

  lemma {:induction false} FirstValueIs(headers: Headers, k: nat, name: string)
    requires k < |headers| && LowerAscii(headers[k].0) == name
    requires forall i :: 0 <= i < k ==> LowerAscii(headers[i].0) != name
    ensures FirstValue(headers, name) == Some(headers[k].1)
    decreases k
  {
    if k > 0 {
      FirstValueIs(headers[1..], k - 1, name);
    }
  }

  /** The first Content-Length header, in any case, decides the length of the body, up to 20 MiB. */
  lemma ContentLengthDecides(headers: Headers, k: nat, n: nat)
    requires k < |headers| && LowerAscii(headers[k].0) == "content-length" && headers[k].1 == Decimal(n)
    requires forall i :: 0 <= i < k ==> LowerAscii(headers[i].0) != "content-length"
    ensures Declared(headers) == n
    ensures BodyLength(headers) == if n <= 20_971_520 then n else if n <= 2_147_483_647 then 20_971_520 else 0
  {
    FirstValueIs(headers, k, "content-length");
    DecimalIsRead(n);
    LengthReadIs(headers);
  }

  predicate IsCapital(c: char) {
    'A' <= c <= 'Z'
  }

  /** Small letters of a verb become capitals, each by its own, and nothing else changes. */
  lemma {:induction false} VerbInCapitals(verb: string)
    requires forall i :: 0 <= i < |verb| ==> verb[i] as int < 256 && verb[i] as int != 223
    ensures |Uppercase(verb)| == |verb|
    ensures forall i :: 0 <= i < |verb| ==>
      if 'a' <= verb[i] <= 'z' then IsCapital(Uppercase(verb)[i]) && LowerAscii([Uppercase(verb)[i]]) == [verb[i]]
      else if 224 <= verb[i] as int < 255 && verb[i] as int != 247 then Uppercase(verb)[i] as int + 32 == verb[i] as int
      else if verb[i] as int == 255 then Uppercase(verb)[i] as int == 0x178
      else if verb[i] as int == 181 then Uppercase(verb)[i] as int == 0x39C
      else Uppercase(verb)[i] == verb[i]
  {
    if |verb| > 0 {
      VerbInCapitals(verb[..|verb| - 1]);
    }
  }

  /** Sharp s has two capitals wherever it stands, and the letters around it are converted by themselves. */
  lemma {:induction false} SharpSInCapitals(before: string, after: string)
    ensures Uppercase(before + ['\U{00DF}'] + after) == Uppercase(before) + "SS" + Uppercase(after)
    decreases |after|
  {
    var sharp := before + ['\U{00DF}'];
    LastLetter(before, '\U{00DF}');
    if |after| == 0 {
      assert sharp + after == sharp;
    } else {
      var (start, last) := (after[..|after| - 1], after[|after| - 1]);
      SharpSInCapitals(before, start);
      LastLetter(sharp + start, last);
      Regrouped(sharp, start, [last]);
      Regrouped(Uppercase(sharp), Uppercase(start), UpperChar(last));
      assert start + [last] == after;
    }
  }

  lemma Regrouped(a: string, b: string, c: string)
    ensures a + b + c == a + (b + c)
  {
  }

  lemma LastLetter(start: string, last: char)
    ensures Uppercase(start + [last]) == Uppercase(start) + UpperChar(last)
  {
    assert (start + [last])[..|start|] == start;
  }

  // The whitespace of ISO-8859-1: tab to carriage return, the four separators, the space and the no-break space.
  predicate OnlySpace(s: string) {
    forall i :: 0 <= i < |s| ==> s[i] as int in {9, 10, 11, 12, 13, 28, 29, 30, 31, 32, 160}
  }

  /** A name or value loses its outer whitespace and nothing else, however much there is. */
  lemma {:induction false} TrimTakesOuterSpace(left: string, s: string, right: string)
    requires OnlySpace(left) && OnlySpace(right)
    requires |s| > 0 ==> !OnlySpace([s[0]]) && !OnlySpace([s[|s| - 1]])
    ensures Trim(left + s + right) == s
  {
    StartGoes(left, s + right);
    assert left + s + right == left + (s + right);
    if |s| == 0 {
      StartGoes(right, "");
      assert right + "" == right && s + right == right;
    } else {
      assert [s[0]][0] == s[0] && (s + right)[0] == s[0];
      EndGoes(s, right);
    }
  }

  lemma {:induction false} StartGoes(left: string, s: string)
    requires OnlySpace(left)
    ensures TrimStart(left + s) == TrimStart(s)
  {
    if |left| == 0 {
      assert left + s == s;
    } else {
      StartGoes(left[1..], s);
      assert (left + s)[1..] == left[1..] + s;
    }
  }

  lemma {:induction false} EndGoes(s: string, right: string)
    requires OnlySpace(right) && |s| > 0 && !OnlySpace([s[|s| - 1]])
    ensures TrimEnd(s + right) == s
  {
    if |right| == 0 {
      assert s + right == s && [s[|s| - 1]][0] == s[|s| - 1];
    } else {
      EndGoes(s, right[..|right| - 1]);
      assert (s + right)[..|s + right| - 1] == s + right[..|right| - 1];
    }
  }

  // ---- Requests on one connection ----

  function PrintAll(rs: seq<Request>): Bytes
    requires forall i :: 0 <= i < |rs| ==> WellFormed(rs[i])
  {
    if |rs| == 0 then [] else Print(rs[0]) + PrintAll(rs[1..])
  }

  function TakeAll(input: Bytes, n: nat): (seq<Option<Request>>, Bytes)
    decreases n
  {
    if n == 0 then ([], input) else
      var (first, afterFirst) := TakeRequest(input);
      var (others, rest) := TakeAll(afterFirst, n - 1);
      ([first] + others, rest)
  }

  function ReportedAll(rs: seq<Request>): seq<Option<Request>> {
    if |rs| == 0 then [] else [Some(Reported(rs[0]))] + ReportedAll(rs[1..])
  }

  /** Requests written back to back are read one by one, each with its own body. */
  lemma {:induction false} PipelineIsFramed(rs: seq<Request>, rest: Bytes)
    requires forall i :: 0 <= i < |rs| ==>
      WellFormed(rs[i]) && |rs[i].headers| < MAX_HEADER_LINES && |PrintBody(rs[i].body)| <= MAX_BODY_BYTES
    ensures TakeAll(PrintAll(rs) + rest, |rs|) == (ReportedAll(rs), rest)
    decreases |rs|
  {
    if |rs| == 0 {
      assert PrintAll(rs) + rest == rest;
    } else {
      assert PrintAll(rs) + rest == Print(rs[0]) + (PrintAll(rs[1..]) + rest);
      RoundTrip(rs[0], PrintAll(rs[1..]) + rest);
      PipelineIsFramed(rs[1..], rest);
    }
  }
}
