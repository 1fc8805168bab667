/**
 * The HTTP/1 codec of the enclave's API server
 * (sgx/enclave/src/api/handler/codec.rs).  `encode` appends a response
 * head to a byte buffer; `decode` turns the head that httparse found at
 * the front of a buffer into a request head and cuts it off the buffer.
 * httparse itself is a foreign parser: what it reports about the buffer
 * is an input (`ParseStatus`).  The `Date` header comes from a per-thread
 * cache that is re-rendered only when the Unix second changes.
 */
module Codec {
  import opened Wrappers
  import opened Bytes
  import opened Results

  /** The number of header slots handed to httparse. */
  const MAX_HEADERS: nat := 16

  /** The codec and the server name it writes into every response. */
  datatype HttpCodec = HttpCodec(server: string)

  const GLOBAL_CODEC: HttpCodec := HttpCodec("index.teggle.io/v1beta1")

  /** `http::Version`. */
  datatype Version = Http09 | Http10 | Http11 | Http2 | Http3
  {
    /** `Debug for Version`, the text written in the status line. */
    function Text(): (s: string)
      ensures |s| == 8 && s[..5] == "HTTP/"
    {
      match this
      case Http09 => "HTTP/0.9"
      case Http10 => "HTTP/1.0"
      case Http11 => "HTTP/1.1"
      case Http2 => "HTTP/2.0"
      case Http3 => "HTTP/3.0"
    }
  }

  /** A header: its (lower-case) name and its raw value bytes. */
  datatype Header = Header(name: string, value: seq<Byte>)

  /** `BytesMut`, a growable byte buffer. */
  class ByteBuf {
    var data: seq<Byte>

    constructor (data: seq<Byte>)
      ensures this.data == data
    {
      this.data := data;
    }
  }

  // ---------------------------------------------------------------------
  // The Date header and its cache

  /** Seconds from the Unix epoch to 10000-01-01: `httpdate` renders only earlier times. */
  const MAX_HTTP_DATE: nat := 253402300800

  const WEEKDAY_NAMES: seq<string> := ["Thu", "Fri", "Sat", "Sun", "Mon", "Tue", "Wed"]

  const MONTH_NAMES: seq<string> :=
    ["Jan", "Feb", "Mar", "Apr", "May", "Jun", "Jul", "Aug", "Sep", "Oct", "Nov", "Dec"]

  /** The last decimal digit of `n`. */
  function Digit(n: int): (c: char)
    ensures IsDigit(c)
  {
    ('0' as int + n % 10) as char
  }

  /** `n` written with two digits, as `{:02}` does for `n < 100`. */
  function Pad2(n: int): (s: string)
    ensures |s| == 2
  {
    [Digit(n / 10), Digit(n)]
  }

  /** `n` written with four digits, as `{:04}` does for `n < 10000`. */
  function Pad4(n: int): (s: string)
    ensures |s| == 4
  {
    [Digit(n / 1000), Digit(n / 100), Digit(n / 10), Digit(n)]
  }

  /**
   * The proleptic Gregorian (year, month, day) of a count of days since
   * 1970-01-01, by the era/day-of-era decomposition.
   */
  function CivilFromDays(days: nat): (int, int, int)
  {
    var z := days + 719468;
    var era := z / 146097;
    var doe := z % 146097;
    var yoe := (doe - doe / 1460 + doe / 36524 - doe / 146096) / 365;
    var doy := doe - (365 * yoe + yoe / 4 - yoe / 100);
    var mp := (5 * doy + 2) / 153;
    var d := doy - (153 * mp + 2) / 5 + 1;
    var m := if mp < 10 then mp + 3 else mp - 9;
    (yoe + era * 400 + (if m <= 2 then 1 else 0), m, d)
  }

  /** The weekday, day, month and year fields with their separators, as in "Sun, 06 Nov 1994 ". */
  function CalendarPart(days: nat): (s: string)
    ensures |s| == 17
  {
    var (y, m, d) := CivilFromDays(days);
    WEEKDAY_NAMES[days % 7] + ", " + Pad2(d) + " " + MONTH_NAMES[(m - 1) % 12] + " " + Pad4(y) + " "
  }

  /** The clock of a second of the day, as in "08:49:37". */
  function ClockPart(t: nat): (s: string)
    ensures |s| == 8
  {
    Pad2(t / 3600) + ":" + Pad2(t / 60 % 60) + ":" + Pad2(t % 60)
  }

  /**
   * `HttpDate::from(now)` displayed: the IMF-fixdate of a Unix second,
   * as in "Sun, 06 Nov 1994 08:49:37 GMT".
   */
  function HttpDateOf(secs: nat): (s: string)
    requires secs < MAX_HTTP_DATE
    ensures |s| == 29
    ensures s[25..] == " GMT"
  {
    CalendarPart(secs / 86400) + ClockPart(secs % 86400) + " GMT"
  }

  /** The weekday name leads the date and follows the day count, 1970-01-01 being a Thursday. */
  lemma WeekdayLeads(secs: nat)
    requires secs < MAX_HTTP_DATE
    ensures HttpDateOf(secs)[..3] == WEEKDAY_NAMES[(secs / 86400) % 7]
  {
    var days := secs / 86400;
    WeekdayLeadsCalendar(days);
    var cal := CalendarPart(days);
    assert HttpDateOf(secs) == cal + (ClockPart(secs % 86400) + " GMT");
    assert HttpDateOf(secs)[..3] == cal[..3];
  }

  /** The calendar part starts with the weekday of its day count. */
  lemma WeekdayLeadsCalendar(days: nat)
    ensures CalendarPart(days)[..3] == WEEKDAY_NAMES[days % 7]
  {
    var name := WEEKDAY_NAMES[days % 7];
    assert |name| == 3;
    var (y, m, d) := CivilFromDays(days);
    var rest := ", " + Pad2(d) + " " + MONTH_NAMES[(m - 1) % 12] + " " + Pad4(y) + " ";
    assert CalendarPart(days) == name + ", " + Pad2(d) + " " + MONTH_NAMES[(m - 1) % 12] + " " + Pad4(y) + " ";
  }

  /** Day 0 of the count is 1970-01-01. */
  lemma EpochIsJanFirst1970()
    ensures CivilFromDays(0) == (1970, 1, 1)
  {
    var doe := 135080;
    assert 719468 == 4 * 146097 + doe;
    assert 719468 / 146097 == 4 && 719468 % 146097 == doe;
    assert doe / 1460 == 92 && doe / 36524 == 3 && doe / 146096 == 0;
    assert (doe - 92 + 3 - 0) / 365 == 369;
    assert 369 / 4 == 92 && 369 / 100 == 3;
    assert (5 * 306 + 2) / 153 == 10;
    assert (153 * 10 + 2) / 5 == 306;
  }

  /** Day 9075 of the count is 1994-11-06. */
  lemma Day9075IsNov6th1994()
    ensures CivilFromDays(9075) == (1994, 11, 6)
  {
    var doe := 144155;
    assert 9075 + 719468 == 4 * 146097 + doe;
    assert (9075 + 719468) / 146097 == 4 && (9075 + 719468) % 146097 == doe;
    assert doe / 1460 == 98 && doe / 36524 == 3 && doe / 146096 == 0;
    assert (doe - 98 + 3 - 0) / 365 == 394;
    assert 394 / 4 == 98 && 394 / 100 == 3;
    assert (5 * 250 + 2) / 153 == 8;
    assert (153 * 8 + 2) / 5 == 245;
  }

  /** The example date of section 7.1.1.1 of RFC 7231 renders as it is printed there. */
  lemma RfcExampleDate()
    ensures HttpDateOf(784111777)
         == ("Sun" + ", " + "06" + " " + "Nov" + " " + "1994" + " ") + ("08" + ":" + "49" + ":" + "37") + " GMT"
  {
    HttpDateSplit(784111777, 9075, 31777);
    RfcExampleCalendar();
    RfcExampleClock();
  }

  /** A time splits into its day count and its second of the day. */
  lemma HttpDateSplit(secs: nat, days: nat, clock: nat)
    requires secs < MAX_HTTP_DATE && secs == days * 86400 + clock && clock < 86400
    ensures HttpDateOf(secs) == CalendarPart(days) + ClockPart(clock) + " GMT"
  {
    assert secs / 86400 == days && secs % 86400 == clock;
  }

  lemma RfcExampleCalendar()
    ensures CalendarPart(9075) == "Sun" + ", " + "06" + " " + "Nov" + " " + "1994" + " "
  {
    Day9075IsNov6th1994();
    assert 9075 % 7 == 3;
    assert Pad2(6) == "06" && Pad4(1994) == "1994";
  }

  lemma RfcExampleClock()
    ensures ClockPart(31777) == "08" + ":" + "49" + ":" + "37"
  {
    assert 31777 / 3600 == 8 && 31777 / 60 == 529 && 529 % 60 == 49 && 31777 % 60 == 37;
    assert Pad2(8) == "08" && Pad2(49) == "49" && Pad2(37) == "37";
  }

  /** Two digits below 100 read back as their value. */
  lemma Pad2Value(n: int)
    requires 0 <= n < 100
    ensures AllDigits(Pad2(n)) && DigitsValue(Pad2(n)) == n
  {
    var s := Pad2(n);
    assert s[..1] == [Digit(n / 10)] && s[..1][..0] == [];
    assert DigitsValue(s[..1]) == n / 10;
  }

  /** The three clock fields read back as the hour, minute and second of `t`. */
  lemma ClockReadsBack(t: nat)
    requires t < 86400
    ensures var c := ClockPart(t);
            AllDigits(c[0..2]) && AllDigits(c[3..5]) && AllDigits(c[6..8]) &&
            DigitsValue(c[0..2]) * 3600 + DigitsValue(c[3..5]) * 60 + DigitsValue(c[6..8]) == t
  {
    var c := ClockPart(t);
    assert c[0..2] == Pad2(t / 3600);
    assert c[3..5] == Pad2(t / 60 % 60);
    assert c[6..8] == Pad2(t % 60);
    Pad2Value(t / 3600);
    Pad2Value(t / 60 % 60);
    Pad2Value(t % 60);
    ClockSplit(t);
  }

  /** Hours, minutes and seconds add back up to the second of the day. */
  lemma ClockSplit(t: nat)
    ensures (t / 3600) * 3600 + (t / 60 % 60) * 60 + t % 60 == t
  {
    var m := t / 60;
    assert t == m * 60 + t % 60;
    assert m == (m / 60) * 60 + m % 60;
    assert t / 3600 == m / 60;
  }

  /** The clock fields of a rendered date read back as the second of the day. */
  lemma TimeOfDayReadsBack(secs: nat)
    requires secs < MAX_HTTP_DATE
    ensures var s := HttpDateOf(secs);
            AllDigits(s[17..19]) && AllDigits(s[20..22]) && AllDigits(s[23..25]) &&
            DigitsValue(s[17..19]) * 3600 + DigitsValue(s[20..22]) * 60 + DigitsValue(s[23..25]) == secs % 86400
  {
    var s := HttpDateOf(secs);
    var c := ClockPart(secs % 86400);
    assert s[17..25] == c;
    assert s[17..19] == c[0..2] && s[20..22] == c[3..5] && s[23..25] == c[6..8];
    ClockReadsBack(secs % 86400);
  }

  /** The bytes of the Date header value for a Unix second. */
  function DateBytes(secs: nat): (b: seq<Byte>)
    requires secs < MAX_HTTP_DATE
    ensures |b| == 29
  {
    FromString(HttpDateOf(secs))
  }

  /**
   * `LastRenderedNow`: a 128-byte buffer holding the rendered date of
   * `unixDate` in its first `amt` bytes.  It starts empty at second 0.
   */
  class DateCache {
    const bytes: array<Byte>
    var amt: nat
    var unixDate: nat

    /** The buffer holds the date of `unixDate`, or is still the empty initial one. */
    ghost predicate Valid()
      reads this, bytes
    {
      && bytes.Length == 128
      && amt <= 128
      && unixDate < MAX_HTTP_DATE
      && ((unixDate == 0 && amt == 0) || bytes[..amt] == DateBytes(unixDate))
    }

    constructor ()
      ensures Valid() && fresh(bytes)
      ensures amt == 0 && unixDate == 0
    {
      bytes := new Byte[128](_ => 0);
      amt := 0;
      unixDate := 0;
    }

    /**
     * `LocalBuffer::write_str`: copies `s` to the bytes at `amt` and
     * advances `amt` by its length.  Writing past the 128 bytes would
     * panic on the slice.
     */
    method WriteStr(s: seq<Byte>)
      requires bytes.Length == 128 && amt + |s| <= 128
      modifies this, bytes
      ensures amt == old(amt) + |s| && unixDate == old(unixDate)
      ensures bytes[..old(amt)] == old(bytes[..amt])
      ensures bytes[old(amt)..amt] == s
      ensures bytes[amt..] == old(bytes[amt + |s|..])
    {
      var start := amt;
      var i := 0;
      while i < |s|
        invariant 0 <= i <= |s|
        invariant bytes[..start] == old(bytes[..start])
        invariant bytes[start..start + i] == s[..i]
        invariant bytes[start + |s|..] == old(bytes[start + |s|..])
        invariant amt == start && unixDate == old(unixDate)
      {
        bytes[start + i] := s[i];
        i := i + 1;
      }
      amt := start + |s|;
    }

    /** `update`: renders the date of `nowUnix` from the start of the buffer. */
    method Update(nowUnix: nat)
      requires bytes.Length == 128 && nowUnix < MAX_HTTP_DATE
      modifies this, bytes
      ensures Valid() && unixDate == nowUnix
      ensures bytes[..amt] == DateBytes(nowUnix)
    {
      amt := 0;
      unixDate := nowUnix;
      WriteStr(DateBytes(nowUnix));
    }

    /**
     * `Display for Now`: re-renders only when the second differs from the
     * cached one, then yields the cached bytes.
     */
    method Now(nowUnix: nat) returns (date: seq<Byte>)
      requires Valid() && nowUnix < MAX_HTTP_DATE
      modifies this, bytes
      ensures Valid() && unixDate == nowUnix
      ensures date == bytes[..amt]
      ensures old(unixDate) == nowUnix ==> unchanged(this) && unchanged(bytes)
      ensures old(unixDate) != nowUnix ==> date == DateBytes(nowUnix)
      ensures nowUnix != 0 ==> date == DateBytes(nowUnix)
    {
      if unixDate != nowUnix {
        Update(nowUnix);
      }
      date := bytes[..amt];
    }
  }

  // ---------------------------------------------------------------------
  // Encoding a response head

  /** The first line: the version, the status code and its reason. */
  function StatusLine(version: Version, status: nat): string
  {
    version.Text() + " " + StatusText(status) + "\r\n"
  }

  /** The Server and Content-Length lines and the start of the Date line. */
  function FixedFields(server: string, contentLength: nat): string
  {
    ServerLine(server) + ContentLengthLine(contentLength) + "Date: "
  }

  /** The "Server: ...\r\n" line. */
  function ServerLine(server: string): string
  {
    "Server: " + server + "\r\n"
  }

  /** The "Content-Length: ...\r\n" line, in decimal. */
  function ContentLengthLine(contentLength: nat): string
  {
    "Content-Length: " + NatToString(contentLength) + "\r\n"
  }

  /** The bytes of the status line and the fixed fields, up to the Date value. */
  function HeadFront(server: string, version: Version, status: nat, contentLength: nat): seq<Byte>
  {
    FromString(StatusLine(version, status) + FixedFields(server, contentLength))
  }

  /** The line end, "\r\n". */
  const CRLF: seq<Byte> := [13, 10]

  /** One "name: value\r\n" line. */
  function HeaderLine(h: Header): seq<Byte>
  {
    FromString(h.name) + FromString(": ") + h.value + CRLF
  }

  /** The header lines, in the order the header map yields them. */
  function HeaderLines(headers: seq<Header>): seq<Byte>
  {
    if headers == [] then []
    else HeaderLines(headers[..|headers| - 1]) + HeaderLine(headers[|headers| - 1])
  }

  /** The whole head `encode` writes. */
  function ResponseHead(server: string, version: Version, status: nat, contentLength: nat,
                        date: seq<Byte>, headers: seq<Header>): seq<Byte>
  {
    HeadFront(server, version, status, contentLength) + date + CRLF + HeaderLines(headers) + CRLF
  }

  lemma AppendAssoc(a: seq<Byte>, b: seq<Byte>, c: seq<Byte>)
    ensures a + b + c == a + (b + c)
  {
  }

  /** The header loop of `encode`: one line per header, appended in order. */
  method AppendHeaderLines(dst: ByteBuf, headers: seq<Header>)
    modifies dst
    ensures dst.data == old(dst.data) + HeaderLines(headers)
  {
    var i := 0;
    while i < |headers|
      invariant 0 <= i <= |headers|
      invariant dst.data == old(dst.data) + HeaderLines(headers[..i])
    {
      var h := headers[i];
      assert headers[..i + 1][..i] == headers[..i];
      dst.data := dst.data + FromString(h.name) + FromString(": ") + h.value + CRLF;
      i := i + 1;
    }
    assert headers[..|headers|] == headers;
  }

  /**
   * `HttpCodec::encode`: appends the head of a response to `dst`.  The
   * Content-Length written is the caller's `contentLength`.  Writing into
   * a `BytesMut` cannot fail, so the result is always Ok.
   */
  method Encode(codec: HttpCodec, version: Version, status: nat, headers: seq<Header>,
                dst: ByteBuf, contentLength: nat, cache: DateCache, nowUnix: nat)
    returns (r: Result<(), Error>)
    requires cache.Valid() && nowUnix < MAX_HTTP_DATE
    modifies dst, cache, cache.bytes
    ensures r.Ok? && cache.Valid()
    ensures old(cache.unixDate) != nowUnix ==>
              dst.data == old(dst.data) + ResponseHead(codec.server, version, status, contentLength, DateBytes(nowUnix), headers)
    ensures old(cache.unixDate) == nowUnix ==>
              dst.data == old(dst.data) + ResponseHead(codec.server, version, status, contentLength, old(cache.bytes[..cache.amt]), headers)
  {
    ghost var before := dst.data;
    var date := cache.Now(nowUnix);
    var opening := HeadFront(codec.server, version, status, contentLength) + date + CRLF;
    dst.data := dst.data + opening;
    AppendHeaderLines(dst, headers);
    AppendAssoc(before, opening, HeaderLines(headers));
    dst.data := dst.data + CRLF;
    AppendAssoc(before, opening + HeaderLines(headers), CRLF);
    r := Ok(());
  }

  /** Every head ends with an empty line, whatever the headers. */
  lemma HeadEndsWithBlankLine(server: string, version: Version, status: nat, contentLength: nat,
                              date: seq<Byte>, headers: seq<Header>)
    ensures var head := ResponseHead(server, version, status, contentLength, date, headers);
            |head| >= 4 && head[|head| - 4..] == CRLF + CRLF
  {
    var head := ResponseHead(server, version, status, contentLength, date, headers);
    if headers == [] {
      assert head[|head| - 4..] == CRLF + CRLF;
    } else {
      var last := HeaderLine(headers[|headers| - 1]);
      assert last[|last| - 2..] == CRLF;
      assert head[|head| - 4..] == last[|last| - 2..] + CRLF;
    }
  }

  /**
   * The Content-Length line sits right after the status and Server lines,
   * and its digits read back as the caller's length.
   */
  lemma ContentLengthReadsBack(server: string, version: Version, status: nat, contentLength: nat,
                               date: seq<Byte>, headers: seq<Header>, limit: nat)
    requires contentLength < limit
    ensures var head := ResponseHead(server, version, status, contentLength, date, headers);
            var off := |StatusLine(version, status)| + |ServerLine(server)|;
            var line := ContentLengthLine(contentLength);
            off + |line| <= |head| && head[off..off + |line|] == FromString(line)
    ensures ParseUnsigned(NatToString(contentLength), limit) == Some(contentLength)
  {
    ThirdLineOfHead(StatusLine(version, status), ServerLine(server), ContentLengthLine(contentLength),
                    date, HeaderLines(headers));
    ParseRendered(contentLength, limit);
  }

  /**
   * In a head laid out as status line, Server line, Content-Length line and
   * "Date: ", the third line's bytes sit right after the first two.
   */
  lemma ThirdLineOfHead(statusLine: string, serverLine: string, line: string, date: seq<Byte>, lines: seq<Byte>)
    ensures var head := FromString(statusLine + (serverLine + line + "Date: ")) + date + CRLF + lines + CRLF;
            var off := |statusLine| + |serverLine|;
            off + |line| <= |head| && head[off..off + |line|] == FromString(line)
  {
    var front := statusLine + (serverLine + line + "Date: ");
    var off := |statusLine| + |serverLine|;
    assert front[off..off + |line|] == line;
    FrontSlice(front, date, lines, off, off + |line|);
  }

  /** A slice of a head's front is the bytes of the same slice of its text. */
  lemma FrontSlice(front: string, date: seq<Byte>, lines: seq<Byte>, lo: nat, hi: nat)
    requires lo <= hi <= |front|
    ensures var head := FromString(front) + date + CRLF + lines + CRLF;
            hi <= |head| && head[lo..hi] == FromString(front[lo..hi])
  {
    var head := FromString(front) + date + CRLF + lines + CRLF;
    assert head[lo..hi] == FromString(front)[lo..hi];
  }

  // ---------------------------------------------------------------------
  // Decoding a request head

  /**
   * What httparse reports for the buffer: an error, an incomplete head, or
   * a complete head of `amt` bytes with its method, path, minor version
   * and headers.
   */
  datatype ParseStatus =
    | ParseFailed(detail: string)
    | Partial
    | Complete(amt: nat, httpMethod: string, path: string, version: nat, headers: seq<Header>)

  /**
   * httparse's own guarantees: a complete head lies within the buffer, and
   * with 16 slots more than 16 headers are an error, not a complete head.
   */
  predicate ParseFits(status: ParseStatus, src: seq<Byte>)
  {
    status.Complete? ==> status.amt <= |src| && |status.headers| <= MAX_HEADERS
  }

  /** The request head handed to the `http` request builder. */
  datatype RequestHead = RequestHead(httpMethod: string, uri: string, version: Version, headers: seq<Header>)

  /** `HeaderValue::from_bytes` accepts tab and every byte from 32 up, except DEL. */
  predicate ValidHeaderByte(b: Byte)
  {
    (b >= 32 && b != 127) || b == 9
  }

  predicate ValidHeaderValue(v: seq<Byte>)
  {
    forall i :: 0 <= i < |v| ==> ValidHeaderByte(v[i])
  }

  /** The minor version httparse reports: 0 is HTTP/1.0, 1 is HTTP/1.1, nothing else is accepted. */
  function VersionOf(minor: nat): (r: Result<Version, Error>)
    ensures r == Ok(Http10) <==> minor == 0
    ensures r == Ok(Http11) <==> minor == 1
    ensures r.Err? <==> minor > 1
    ensures r.Err? ==> r.error == NewErrorWithKind(DecodeFault, "only HTTP/1.0 or 1.1 accepted")
  {
    if minor == 0 then Ok(Http10)
    else if minor == 1 then Ok(Http11)
    else Err(NewErrorWithKind(DecodeFault, "only HTTP/1.0 or 1.1 accepted"))
  }

  /**
   * What `HttpCodec::decode` answers for what httparse reported.  An
   * httparse error is a DecodeFault and an incomplete head is Ok(None).
   * For a complete head the version is mapped, then each header value is
   * checked, the first invalid one failing the decode.
   */
  function DecodeResult(status: ParseStatus): (r: Result<Option<RequestHead>, Error>)
    ensures status.ParseFailed? ==> r == Err(NewErrorWithKind(DecodeFault, "failed to parse http request: " + status.detail))
    ensures status.Partial? ==> r == Ok(Option.None)
    ensures status.Complete? && VersionOf(status.version).Err? ==> r == Err(VersionOf(status.version).error)
    ensures status.Complete? && VersionOf(status.version).Ok? && !AllValid(status.headers) ==>
              r == Err(NewErrorWithKind(DecodeFault, "header decode error"))
    ensures status.Complete? && VersionOf(status.version).Ok? && AllValid(status.headers) ==>
              r == Ok(Some(RequestHead(status.httpMethod, status.path, VersionOf(status.version).value, status.headers)))
    ensures r.Ok? && r.value.Some? ==> r.value.value.version in {Http10, Http11}
  {
    match status
    case ParseFailed(detail) => Err(NewErrorWithKind(DecodeFault, "failed to parse http request: " + detail))
    case Partial => Ok(Option.None)
    case Complete(_, httpMethod, path, minor, headers) =>
      if VersionOf(minor).Err? then Err(VersionOf(minor).error)
      else if !AllValid(headers) then Err(NewErrorWithKind(DecodeFault, "header decode error"))
      else Ok(Some(RequestHead(httpMethod, path, VersionOf(minor).value, headers)))
  }

  /**
   * `HttpCodec::decode`: the head httparse found is cut off `src` (before
   * the version is looked at, so a rejected version still consumes it),
   * its headers go through the 16 slots, and the answer is
   * `DecodeResult`.  Without a complete head `src` is left as it was.
   */
  method Decode(codec: HttpCodec, src: ByteBuf, status: ParseStatus)
    returns (result: Result<Option<RequestHead>, Error>)
    requires ParseFits(status, src.data)
    modifies src
    ensures result == DecodeResult(status)
    ensures !status.Complete? ==> src.data == old(src.data)
    ensures status.Complete? ==> src.data == old(src.data)[status.amt..]
  {
    match status {
      case ParseFailed(detail) =>
        return Err(NewErrorWithKind(DecodeFault, "failed to parse http request: " + detail));
      case Partial =>
        return Ok(Option.None);
      case Complete(amt, httpMethod, path, minor, parsed) =>
        var slots := new Option<Header>[MAX_HEADERS](_ => Option.None);
        var i := 0;
        while i < |parsed|
          invariant 0 <= i <= |parsed|
          invariant forall j :: 0 <= j < i ==> slots[j] == Some(parsed[j])
          invariant forall j :: i <= j < slots.Length ==> slots[j] == Option.None
          invariant src.data == old(src.data)
        {
          slots[i] := Some(parsed[i]);
          i := i + 1;
        }
        src.data := src.data[amt..];
        var version := VersionOf(minor);
        if version.Err? {
          return Err(version.error);
        }
        var carried: seq<Header> := [];
        var k := 0;
        while k < slots.Length
          invariant 0 <= k <= |parsed|
          invariant forall j :: 0 <= j < |parsed| ==> slots[j] == Some(parsed[j])
          invariant forall j :: |parsed| <= j < slots.Length ==> slots[j] == Option.None
          invariant carried == parsed[..k]
          invariant AllValid(carried)
        {
          match slots[k] {
            case None =>
              break;
            case Some(h) =>
              if !ValidHeaderValue(h.value) {
                assert !AllValid(parsed) by {
                  assert parsed[k] == h;
                }
                return Err(NewErrorWithKind(DecodeFault, "header decode error"));
              }
              assert parsed[..k + 1] == parsed[..k] + [h];
              carried := carried + [h];
          }
          k := k + 1;
        }
        assert carried == parsed;
        return Ok(Some(RequestHead(httpMethod, path, version.value, carried)));
    }
  }

  /** Every header value is acceptable to `HeaderValue::from_bytes`. */
  predicate AllValid(headers: seq<Header>)
  {
    forall i :: 0 <= i < |headers| ==> ValidHeaderValue(headers[i].value)
  }
}
