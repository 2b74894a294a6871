/**
 Reading one response of the cluster discovery exchange (src/autodiscovery.rs): the parser of
 a buffer, and the loop that grows the buffer read by read.
 */
module Discovery {
  import opened Numbers
  import opened Options
  import opened Utf8

  const MAX_RESPONSE: nat := 1048576
  const CR: Byte := 13
  const LF: Byte := 10
  const SPACE: Byte := 32

  datatype Response = Config(body: seq<Byte>) | Empty | Error(line: seq<Byte>)

  datatype Fault = NotUtf8 | BadLength | UnexpectedHeader | BlockTooLong | NoEnd

  datatype Parsed = Incomplete | Done(response: Response) | Faulty(fault: Fault)

  function Bytes(text: string): (bytes: seq<Byte>)
    requires forall i | 0 <= i < |text| :: text[i] as int < 256
    ensures |bytes| == |text| && forall i | 0 <= i < |text| :: bytes[i] == text[i] as int
  {
    seq(|text|, i requires 0 <= i < |text| => text[i] as int)
  }

  const TRAILER: seq<Byte> := Bytes("\r\nEND\r\n")

  // ---- The header line -----------------------------------------------------------------------------

  /** Where the first line break starts. */
  function LineEnd(buf: seq<Byte>): (eol: Option<nat>)
    ensures eol.Some? ==> eol.value + 2 <= |buf| && buf[eol.value] == CR && buf[eol.value + 1] == LF
  {
    if |buf| < 2 then None
    else if buf[0] == CR && buf[1] == LF then Some(0)
    else match LineEnd(buf[1..])
         case None => None
         case Some(i) => Some(i + 1)
  }

  predicate IsBlank(b: Byte) { b == 9 || b == 10 || b == 12 || b == 13 || b == 32 }

  /** How many leading bytes are not blank. */
  function WordLength(s: seq<Byte>): (n: nat)
    ensures n <= |s| && (forall i | 0 <= i < n :: !IsBlank(s[i])) && (n < |s| ==> IsBlank(s[n]))
  {
    if s == [] || IsBlank(s[0]) then 0 else 1 + WordLength(s[1..])
  }

  /** The words between blanks. */
  function Fields(s: seq<Byte>): seq<seq<Byte>>
    decreases |s|
  {
    if s == [] then []
    else if IsBlank(s[0]) then Fields(s[1..])
    else
      var n := WordLength(s);
      [s[..n]] + Fields(s[n..])
  }

  predicate IsDigit(b: Byte) { 48 <= b <= 57 }

  function Digits(s: seq<Byte>): Option<nat> {
    if s == [] then Some(0)
    else
      var last := |s| - 1;
      match Digits(s[..last])
      case None => None
      case Some(n) => if IsDigit(s[last]) then Some(10 * n + (s[last] - 48)) else None
  }

  /** A machine integer in decimal, with or without a plus sign. */
  function ParseUsize(s: seq<Byte>): Option<nat> {
    var digits := if s != [] && s[0] == 43 then s[1..] else s;
    if digits == [] then None
    else match Digits(digits)
         case None => None
         case Some(n) => if n <= U64_MAX then Some(n) else None
  }

  predicate StartsWith(s: seq<Byte>, prefix: seq<Byte>) { prefix <= s }

  // ---- The parser ----------------------------------------------------------------------------------

  /** The length field of a data block's header. */
  function LengthField(header: seq<Byte>): Option<seq<Byte>> {
    var f := Fields(header);
    if |f| == 4 && ((f[0] == Bytes("CONFIG") && f[1] == Bytes("cluster")) || f[0] == Bytes("VALUE")) then Some(f[3])
    else None
  }

  /** What the bytes after the header line come to. */
  function ParseBlock(len: nat, rest: seq<Byte>): Parsed {
    if len > MAX_RESPONSE then Faulty(BlockTooLong)
    else if |rest| < len + |TRAILER| then Incomplete
    else if rest[len..len + |TRAILER|] != TRAILER then Faulty(NoEnd)
    else Done(Config(rest[..len]))
  }

  function ParseHeader(header: seq<Byte>, rest: seq<Byte>): Parsed {
    if !IsUtf8(header) then Faulty(NotUtf8)
    else if header == Bytes("END") then Done(Empty)
    else if header == Bytes("ERROR") || StartsWith(header, Bytes("CLIENT_ERROR")) ||
            StartsWith(header, Bytes("SERVER_ERROR")) then Done(Error(header))
    else match LengthField(header)
         case None => Faulty(UnexpectedHeader)
         case Some(field) =>
           match ParseUsize(field)
           case None => Faulty(BadLength)
           case Some(len) => ParseBlock(len, rest)
  }

  /** One response from `buf`, or `Incomplete`. */
  function ParseResponse(buf: seq<Byte>): Parsed {
    match LineEnd(buf)
    case None => Incomplete
    case Some(eol) => ParseHeader(buf[..eol], buf[eol + 2..])
  }

  // ---- A decided buffer stays decided ---------------------------------------------------------------

  lemma {:induction false} LineEndStays(buf: seq<Byte>, more: seq<Byte>)
    requires LineEnd(buf).Some?
    ensures LineEnd(buf + more) == LineEnd(buf)
  {
    var all := buf + more;
    if !(buf[0] == CR && buf[1] == LF) {
      LineEndStays(buf[1..], more);
      assert all[1..] == buf[1..] + more;
    }
  }

  /** Once a buffer parses to a response or a fault, every extension of it parses to the same. */
  lemma DecidedStays(buf: seq<Byte>, more: seq<Byte>)
    requires !ParseResponse(buf).Incomplete?
    ensures ParseResponse(buf + more) == ParseResponse(buf)
  {
    hide LineEnd, IsUtf8, LengthField, ParseUsize;
    LineEndStays(buf, more);
    var eol := LineEnd(buf).value;
    var all := buf + more;
    assert all[..eol] == buf[..eol];
    assert all[eol + 2..] == buf[eol + 2..] + more;
    BlockStays(buf[..eol], buf[eol + 2..], more);
  }

  lemma BlockStays(header: seq<Byte>, rest: seq<Byte>, more: seq<Byte>)
    requires !ParseHeader(header, rest).Incomplete?
    ensures ParseHeader(header, rest + more) == ParseHeader(header, rest)
  {
    hide IsUtf8, LengthField, ParseUsize;
    if LengthField(header).Some? && ParseUsize(LengthField(header).value).Some? {
      var len := ParseUsize(LengthField(header).value).value;
      if len <= MAX_RESPONSE && |rest| >= len + |TRAILER| {
        assert (rest + more)[len..len + |TRAILER|] == rest[len..len + |TRAILER|];
        assert (rest + more)[..len] == rest[..len];
      }
    }
  }

  // ---- Rendering, and reading back -------------------------------------------------------------------

  /** A header word: printable ASCII, and not empty. */
  predicate IsWord(s: seq<Byte>) {
    s != [] && forall i | 0 <= i < |s| :: 33 <= s[i] <= 126
  }

  function Decimal(n: nat): (s: seq<Byte>)
    ensures s != [] && forall i | 0 <= i < |s| :: IsDigit(s[i])
  {
    if n < 10 then [48 + n] else Decimal(n / 10) + [48 + n % 10]
  }

  /** `CONFIG cluster <flags> <length>` or `VALUE <key> <flags> <length>` */
  function Header(kind: seq<Byte>, key: seq<Byte>, flags: seq<Byte>, len: nat): seq<Byte> {
    kind + [SPACE] + (key + [SPACE] + (flags + [SPACE] + Decimal(len)))
  }

  predicate IsBlockKind(kind: seq<Byte>, key: seq<Byte>) {
    (kind == Bytes("CONFIG") && key == Bytes("cluster")) || (kind == Bytes("VALUE") && IsWord(key))
  }

  function Render(kind: seq<Byte>, key: seq<Byte>, flags: seq<Byte>, body: seq<Byte>): seq<Byte> {
    Header(kind, key, flags, |body|) + [CR, LF] + body + TRAILER
  }

  lemma {:induction false} DecimalReadsBack(n: nat)
    ensures Digits(Decimal(n)) == Some(n)
  {
    if n >= 10 {
      DecimalReadsBack(n / 10);
      var s := Decimal(n);
      assert s[..|s| - 1] == Decimal(n / 10);
    } else {
      assert Decimal(n)[..0] == [];
    }
  }

  lemma {:induction false} WordThenBlank(word: seq<Byte>, rest: seq<Byte>)
    requires forall i | 0 <= i < |word| :: !IsBlank(word[i])
    requires rest == [] || IsBlank(rest[0])
    ensures WordLength(word + rest) == |word|
  {
    if word != [] {
      WordThenBlank(word[1..], rest);
      assert (word + rest)[1..] == word[1..] + rest;
    }
  }

  lemma FirstField(word: seq<Byte>, rest: seq<Byte>)
    requires IsWord(word)
    ensures Fields(word + [SPACE] + rest) == [word] + Fields(rest)
    ensures Fields(word) == [word]
  {
    var s := word + [SPACE] + rest;
    WordThenBlank(word, [SPACE] + rest);
    assert s == word + ([SPACE] + rest);
    assert s[..|word|] == word && s[|word|..] == [SPACE] + rest;
    assert ([SPACE] + rest)[1..] == rest;
    assert Fields([SPACE] + rest) == Fields(rest);
    WordThenBlank(word, []);
    assert word + [] == word && word[..|word|] == word;
  }

  /** The line ends where the header does, as the header has no carriage return. */
  lemma {:induction false} LineEndAfter(header: seq<Byte>, rest: seq<Byte>)
    requires forall i | 0 <= i < |header| :: header[i] != CR
    ensures LineEnd(header + [CR, LF] + rest) == Some(|header|)
  {
    var s := header + [CR, LF] + rest;
    if header != [] {
      LineEndAfter(header[1..], rest);
      assert s[1..] == header[1..] + [CR, LF] + rest;
    }
  }

  lemma {:induction false} NoLineEnd(s: seq<Byte>)
    requires forall i | 0 <= i < |s| - 1 :: s[i] != CR
    ensures LineEnd(s) == None
  {
    if |s| >= 2 {
      NoLineEnd(s[1..]);
    }
  }

  lemma DigitsAreWord(n: nat)
    ensures IsWord(Decimal(n))
  {
  }

  lemma HeaderIsPlain(kind: seq<Byte>, key: seq<Byte>, flags: seq<Byte>, len: nat)
    requires IsBlockKind(kind, key) && IsWord(flags)
    ensures var h := Header(kind, key, flags, len);
            forall i | 0 <= i < |h| :: h[i] != CR && h[i] <= 0x7F
  {
    hide Decimal;
    DigitsAreWord(len);
    assert IsWord(kind) && IsWord(key);
    var tail := flags + [SPACE] + Decimal(len);
    assert forall i | 0 <= i < |tail| :: tail[i] != CR && tail[i] <= 0x7F;
    var middle := key + [SPACE] + tail;
    assert forall i | 0 <= i < |middle| :: middle[i] != CR && middle[i] <= 0x7F;
  }

  lemma HeaderFields(kind: seq<Byte>, key: seq<Byte>, flags: seq<Byte>, len: nat)
    requires IsBlockKind(kind, key) && IsWord(flags)
    ensures Fields(Header(kind, key, flags, len)) == [kind, key, flags, Decimal(len)]
  {
    hide Fields, Decimal;
    DigitsAreWord(len);
    assert IsWord(kind) && IsWord(key);
    var tail := flags + [SPACE] + Decimal(len);
    FirstField(Decimal(len), []);
    FirstField(flags, Decimal(len));
    FirstField(key, tail);
    FirstField(kind, key + [SPACE] + tail);
  }

  /** A rendered header is read as a data block of its length, whatever follows it. */
  lemma HeaderReadsBack(kind: seq<Byte>, key: seq<Byte>, flags: seq<Byte>, len: nat, rest: seq<Byte>)
    requires IsBlockKind(kind, key) && IsWord(flags) && len <= U64_MAX
    ensures ParseHeader(Header(kind, key, flags, len), rest) == ParseBlock(len, rest)
  {
    var header := Header(kind, key, flags, len);
    HeaderIsPlain(kind, key, flags, len);
    AsciiIsUtf8(header);
    HeaderFields(kind, key, flags, len);
    DecimalReadsBack(len);
    NotAnError(kind, key, header);
    hide IsUtf8, Fields, Digits, Header, ParseBlock;
    assert LengthField(header) == Some(Decimal(len));
    assert ParseUsize(Decimal(len)) == Some(len);
  }

  lemma NotAnError(kind: seq<Byte>, key: seq<Byte>, header: seq<Byte>)
    requires IsBlockKind(kind, key) && kind + [SPACE] <= header
    ensures header != Bytes("END") && header != Bytes("ERROR")
    ensures !StartsWith(header, Bytes("CLIENT_ERROR")) && !StartsWith(header, Bytes("SERVER_ERROR"))
  {
    assert kind[0] == 'C' as int || kind[0] == 'V' as int;
    assert kind[1] == 'O' as int || kind[1] == 'A' as int;
    assert header[0] == kind[0] && header[1] == kind[1];
    assert Bytes("CLIENT_ERROR")[1] == 'L' as int && Bytes("SERVER_ERROR")[0] == 'S' as int;
    assert Bytes("END")[0] == 'E' as int && Bytes("ERROR")[0] == 'E' as int;
  }

  /** What a response with this header comes to: too long a block and a block not followed by `END` are faults. */
  lemma BlockFaults(kind: seq<Byte>, key: seq<Byte>, flags: seq<Byte>, len: nat, rest: seq<Byte>)
    requires IsBlockKind(kind, key) && IsWord(flags) && len <= U64_MAX
    ensures var parsed := ParseResponse(Header(kind, key, flags, len) + [CR, LF] + rest);
            && (parsed == Faulty(BlockTooLong) <==> len > MAX_RESPONSE)
            && (parsed == Faulty(NoEnd) <==>
                  len <= MAX_RESPONSE && len + |TRAILER| <= |rest| && !(TRAILER <= rest[len..]))
  {
    var header := Header(kind, key, flags, len);
    var buf := header + [CR, LF] + rest;
    HeaderIsPlain(kind, key, flags, len);
    LineEndAfter(header, rest);
    HeaderReadsBack(kind, key, flags, len, rest);
    hide ParseHeader, LineEnd, Header;
    assert buf[..|header|] == header && buf[|header| + 2..] == rest;
    if len <= MAX_RESPONSE && len + |TRAILER| <= |rest| {
      assert rest[len..len + |TRAILER|] == rest[len..][..|TRAILER|];
    }
  }

  predicate IsStatus(line: seq<Byte>) {
    || line == Bytes("END") || line == Bytes("ERROR")
    || StartsWith(line, Bytes("CLIENT_ERROR")) || StartsWith(line, Bytes("SERVER_ERROR"))
  }

  /** A status line is a whole response as soon as its line break is there: `END` has no data, the others are errors. */
  lemma StatusReadsBack(line: seq<Byte>, rest: seq<Byte>)
    requires IsStatus(line) && IsUtf8(line) && CR !in line
    ensures ParseResponse(line + [CR, LF] + rest) == Done(if line == Bytes("END") then Empty else Error(line))
  {
    var buf := line + [CR, LF] + rest;
    LineEndAfter(line, rest);
    assert buf[..|line|] == line && buf[|line| + 2..] == rest;
    hide LineEnd, IsUtf8;
  }

  lemma {:induction false} DigitsExactly(s: seq<Byte>)
    ensures Digits(s).Some? <==> forall i | 0 <= i < |s| :: 48 <= s[i] <= 57
  {
    if s != [] {
      DigitsExactly(s[..|s| - 1]);
    }
  }

  /** Four words, the first of them `VALUE`, or the first two `CONFIG cluster`. */
  predicate IsBlockHeader(words: seq<seq<Byte>>) {
    && |words| == 4
    && (words[0] == Bytes("VALUE") || (words[0] == Bytes("CONFIG") && words[1] == Bytes("cluster")))
  }

  /** A number of digits, behind a plus sign or not, that fits a machine word. */
  ghost predicate IsLength(word: seq<Byte>) {
    exists digits: seq<Byte> ::
      && (word == digits || word == [43] + digits) && digits != []
      && (forall i | 0 <= i < |digits| :: 48 <= digits[i] <= 57)
      && Digits(digits).Some? && Digits(digits).value < 0x1_0000_0000_0000_0000
  }

  lemma LengthExactly(word: seq<Byte>)
    ensures ParseUsize(word).Some? <==> IsLength(word)
  {
    var digits := if word != [] && word[0] == 43 then word[1..] else word;
    DigitsExactly(digits);
    hide Digits;
    if ParseUsize(word).Some? {
      assert word == digits || word == [43] + digits;
    }
    if IsLength(word) {
      var d: seq<Byte> :|
        && (word == d || word == [43] + d) && d != []
        && (forall i | 0 <= i < |d| :: 48 <= d[i] <= 57)
        && Digits(d).Some? && Digits(d).value < 0x1_0000_0000_0000_0000;
      assert d[0] != 43;
      assert d == digits;
    }
  }

  /**
   What is wrong with a line that is not a status: it is not text, or not the header of a data block, or states no
   length; whatever follows it.
   */
  lemma LineFaults(line: seq<Byte>, rest: seq<Byte>)
    requires CR !in line && !IsStatus(line)
    ensures var parsed := ParseResponse(line + [CR, LF] + rest);
            && (parsed == Faulty(NotUtf8) <==> !IsUtf8(line))
            && (parsed == Faulty(UnexpectedHeader) <==> IsUtf8(line) && !IsBlockHeader(Fields(line)))
            && (parsed == Faulty(BadLength) <==>
                  IsUtf8(line) && IsBlockHeader(Fields(line)) && !IsLength(Fields(line)[3]))
  {
    var buf := line + [CR, LF] + rest;
    LineEndAfter(line, rest);
    assert buf[..|line|] == line && buf[|line| + 2..] == rest;
    hide ParseHeader, LineEnd, IsStatus, IsBlockHeader, IsLength;
    HeaderFaults(line, rest);
  }

  lemma HeaderFaults(line: seq<Byte>, rest: seq<Byte>)
    requires !IsStatus(line)
    ensures var parsed, words := ParseHeader(line, rest), Fields(line);
            && (parsed == Faulty(NotUtf8) <==> !IsUtf8(line))
            && (parsed == Faulty(UnexpectedHeader) <==> IsUtf8(line) && !IsBlockHeader(words))
            && (parsed == Faulty(BadLength) <==> IsUtf8(line) && IsBlockHeader(words) && !IsLength(words[3]))
  {
    hide IsUtf8, Fields, ParseUsize, IsLength, Bytes;
    if |Fields(line)| == 4 {
      LengthExactly(Fields(line)[3]);
    }
  }

  /** Any data block, even one with `END` in it, is read back whole. */
  lemma BlockReadsBack(kind: seq<Byte>, key: seq<Byte>, flags: seq<Byte>, body: seq<Byte>)
    requires IsBlockKind(kind, key) && IsWord(flags) && |body| <= MAX_RESPONSE
    ensures ParseResponse(Render(kind, key, flags, body)) == Done(Config(body))
  {
    var header := Header(kind, key, flags, |body|);
    var rest := body + TRAILER;
    var buf := Render(kind, key, flags, body);
    assert buf == header + [CR, LF] + rest;
    HeaderIsPlain(kind, key, flags, |body|);
    LineEndAfter(header, rest);
    assert buf[..|header|] == header && buf[|header| + 2..] == rest;
    HeaderReadsBack(kind, key, flags, |body|, rest);
    assert rest[..|body|] == body && rest[|body|..|body| + |TRAILER|] == TRAILER;
    hide ParseHeader, LineEnd, Header, Render;
  }

  /** And every proper prefix of it is incomplete. */
  lemma PrefixIsIncomplete(kind: seq<Byte>, key: seq<Byte>, flags: seq<Byte>, body: seq<Byte>, n: nat)
    requires IsBlockKind(kind, key) && IsWord(flags) && |body| <= MAX_RESPONSE
    requires n < |Render(kind, key, flags, body)|
    ensures ParseResponse(Render(kind, key, flags, body)[..n]) == Incomplete
  {
    var header := Header(kind, key, flags, |body|);
    var buf := Render(kind, key, flags, body);
    var part := buf[..n];
    HeaderIsPlain(kind, key, flags, |body|);
    hide ParseHeader, LineEnd, Header, IsUtf8, Decimal;
    if n < |header| + 2 {
      forall i | 0 <= i < n - 1 ensures part[i] != CR {
        assert part[i] == header[i];
      }
      NoLineEnd(part);
    } else {
      var rest := part[|header| + 2..];
      assert part == header + [CR, LF] + rest;
      LineEndAfter(header, rest);
      assert part[..|header|] == header;
      HeaderReadsBack(kind, key, flags, |body|, rest);
    }
  }

  // ---- The read loop ---------------------------------------------------------------------------------

  const READ_MAX: nat := 4096

  /** What a read brings; after the last one the server has closed the connection. */
  datatype Read = Data(bytes: seq<Byte>) | TimedOut | Failed

  datatype Reply =
    | Got(response: Response)
    | Unparsable(fault: Fault)
    | Exceeded
    | AtDeadline(received: nat)
    | ReadFailed
    | ClosedEarly

  predicate IsRead(r: Read) { r.Data? ==> 0 < |r.bytes| <= READ_MAX }

  /** The reply once nothing more is to be read. */
  function Verdict(parsed: Parsed): Reply
    requires !parsed.Incomplete?
  {
    match parsed
    case Done(response) => Got(response)
    case Faulty(fault) => Unparsable(fault)
  }

  /** The loop of a request, from a buffer and what is still to be read. */
  function Answer(buf: seq<Byte>, incoming: seq<Read>): Reply
    decreases |incoming|
  {
    if !ParseResponse(buf).Incomplete? then Verdict(ParseResponse(buf))
    else if |buf| > MAX_RESPONSE then Exceeded
    else if incoming == [] then ClosedEarly
    else match incoming[0]
         case Data(bytes) => Answer(buf + bytes, incoming[1..])
         case TimedOut => if buf == [] then ReadFailed else AtDeadline(|buf|)
         case Failed => ReadFailed
  }

  method Request(incoming: seq<Read>) returns (reply: Reply)
    requires forall i | 0 <= i < |incoming| :: IsRead(incoming[i])
    ensures reply == Answer([], incoming)
  {
    var buf: seq<Byte> := [];
    var next := 0;
    while true
      invariant 0 <= next <= |incoming|
      invariant Answer(buf, incoming[next..]) == Answer([], incoming)
      decreases |incoming| - next
    {
      var parsed := ParseResponse(buf);
      if !parsed.Incomplete? {
        return Verdict(parsed);
      }
      if |buf| > MAX_RESPONSE {
        return Exceeded;
      }
      if next == |incoming| {
        return ClosedEarly;
      }
      assert incoming[next..][0] == incoming[next] && incoming[next..][1..] == incoming[next + 1..];
      match incoming[next] {
        case Data(bytes) => buf := buf + bytes;
        case TimedOut => return if buf == [] then ReadFailed else AtDeadline(|buf|);
        case Failed => return ReadFailed;
      }
      next := next + 1;
    }
  }

  /** The bytes of a list of chunks. */
  function Joined(chunks: seq<seq<Byte>>): seq<Byte> {
    if chunks == [] then [] else chunks[0] + Joined(chunks[1..])
  }

  function AsReads(chunks: seq<seq<Byte>>): (r: seq<Read>)
    ensures |r| == |chunks| && forall i | 0 <= i < |r| :: r[i] == Data(chunks[i])
  {
    seq(|chunks|, i requires 0 <= i < |chunks| => Data(chunks[i]))
  }

  /** The reply when the server sends these bytes and closes, however they are read. */
  function Whole(bytes: seq<Byte>): Reply {
    var parsed := ParseResponse(bytes);
    if parsed.Incomplete? then ClosedEarly else Verdict(parsed)
  }

  /** Some read left the buffer too long and still undecided. */
  ghost predicate Overruns(buf: seq<Byte>, chunks: seq<seq<Byte>>) {
    exists k: nat :: k <= |chunks| && var got := buf + Joined(chunks[..k]);
      ParseResponse(got).Incomplete? && |got| > MAX_RESPONSE
  }

  /** The reply depends on the bytes alone, unless a read leaves the buffer too long and undecided. */
  lemma {:induction false} AnswerIsWhole(buf: seq<Byte>, chunks: seq<seq<Byte>>)
    ensures Answer(buf, AsReads(chunks)) == if Overruns(buf, chunks) then Exceeded else Whole(buf + Joined(chunks))
    decreases |chunks|
  {
    hide ParseResponse;
    if !ParseResponse(buf).Incomplete? {
      DecidedStays(buf, Joined(chunks));
      forall k: nat | k <= |chunks| ensures !ParseResponse(buf + Joined(chunks[..k])).Incomplete? {
        DecidedStays(buf, Joined(chunks[..k]));
      }
    } else if |buf| > MAX_RESPONSE {
      assert buf + Joined(chunks[..0]) == buf;
      assert Overruns(buf, chunks);
    } else if chunks == [] {
      assert buf + Joined(chunks) == buf;
      assert forall k: nat | k <= |chunks| :: buf + Joined(chunks[..k]) == buf;
    } else {
      AnswerIsWhole(buf + chunks[0], chunks[1..]);
      assert AsReads(chunks)[1..] == AsReads(chunks[1..]);
      assert buf + Joined(chunks) == buf + chunks[0] + Joined(chunks[1..]);
      OverrunsLater(buf, chunks);
    }
  }

  lemma OverrunsLater(buf: seq<Byte>, chunks: seq<seq<Byte>>)
    requires chunks != [] && |buf| <= MAX_RESPONSE
    ensures Overruns(buf, chunks) <==> Overruns(buf + chunks[0], chunks[1..])
  {
    hide ParseResponse;
    assert buf + Joined(chunks[..0]) == buf;
    forall k: nat | 1 <= k <= |chunks|
      ensures buf + Joined(chunks[..k]) == buf + chunks[0] + Joined(chunks[1..][..k - 1])
    {
      assert chunks[..k][1..] == chunks[1..][..k - 1];
    }
    if Overruns(buf, chunks) {
      var k: nat :| k <= |chunks| && var got := buf + Joined(chunks[..k]);
        ParseResponse(got).Incomplete? && |got| > MAX_RESPONSE;
      assert k >= 1;
      assert buf + Joined(chunks[..k]) == buf + chunks[0] + Joined(chunks[1..][..k - 1]);
    }
    if Overruns(buf + chunks[0], chunks[1..]) {
      var k: nat :| k <= |chunks| - 1 && var got := buf + chunks[0] + Joined(chunks[1..][..k]);
        ParseResponse(got).Incomplete? && |got| > MAX_RESPONSE;
      assert buf + Joined(chunks[..k + 1]) == buf + chunks[0] + Joined(chunks[1..][..k]);
    }
  }

  /**
   A read that brings no bytes ends the exchange: unless the bytes before it were already decided or too many, the
   reply is a deadline with as many bytes as came, or, when none did or the read itself failed, the read's error.
   */
  lemma {:induction false} AnswerToFault(buf: seq<Byte>, chunks: seq<seq<Byte>>, fault: Read, more: seq<Read>)
    requires !fault.Data?
    ensures var got := buf + Joined(chunks);
            Answer(buf, AsReads(chunks) + [fault] + more) ==
            if Overruns(buf, chunks) then Exceeded
            else if !ParseResponse(got).Incomplete? then Whole(got)
            else if fault.TimedOut? && got != [] then AtDeadline(|got|)
            else ReadFailed
    decreases |chunks|
  {
    hide ParseResponse;
    if !ParseResponse(buf).Incomplete? {
      DecidedStays(buf, Joined(chunks));
      forall k: nat | k <= |chunks| ensures !ParseResponse(buf + Joined(chunks[..k])).Incomplete? {
        DecidedStays(buf, Joined(chunks[..k]));
      }
    } else if |buf| > MAX_RESPONSE {
      assert buf + Joined(chunks[..0]) == buf;
      assert Overruns(buf, chunks);
    } else if chunks == [] {
      assert buf + Joined(chunks) == buf;
      assert forall k: nat | k <= |chunks| :: buf + Joined(chunks[..k]) == buf;
    } else {
      AnswerToFault(buf + chunks[0], chunks[1..], fault, more);
      var incoming := AsReads(chunks) + [fault] + more;
      assert incoming[0] == Data(chunks[0]) && incoming[1..] == AsReads(chunks[1..]) + [fault] + more;
      assert buf + Joined(chunks) == buf + chunks[0] + Joined(chunks[1..]);
      OverrunsLater(buf, chunks);
    }
  }

  lemma {:induction false} JoinedLength(chunks: seq<seq<Byte>>, k: nat)
    requires k <= |chunks|
    ensures |Joined(chunks[..k])| <= |Joined(chunks)|
    decreases |chunks|
  {
    if k > 0 {
      assert chunks[..k][1..] == chunks[1..][..k - 1];
      JoinedLength(chunks[1..], k - 1);
    }
  }

  /** Up to the size limit, the reply is the same however the same bytes are cut into reads. */
  lemma CutsDoNotMatter(a: seq<seq<Byte>>, b: seq<seq<Byte>>)
    requires Joined(a) == Joined(b) && |Joined(a)| <= MAX_RESPONSE
    ensures Answer([], AsReads(a)) == Answer([], AsReads(b)) == Whole(Joined(a))
  {
    hide ParseResponse;
    AnswerIsWhole([], a);
    AnswerIsWhole([], b);
    forall k: nat | k <= |a| ensures |[] + Joined(a[..k])| <= MAX_RESPONSE {
      JoinedLength(a, k);
    }
    forall k: nat | k <= |b| ensures |[] + Joined(b[..k])| <= MAX_RESPONSE {
      JoinedLength(b, k);
    }
    assert [] + Joined(a) == Joined(a) && [] + Joined(b) == Joined(b);
  }

  /** Past the limit they do: of a block that ends past it, a read that stops in between loses the reply. */
  lemma PastTheLimitCutsMatter(kind: seq<Byte>, key: seq<Byte>, flags: seq<Byte>, body: seq<Byte>, n: nat, m: nat)
    requires IsBlockKind(kind, key) && IsWord(flags) && |body| <= MAX_RESPONSE
    requires n <= MAX_RESPONSE < m < |Render(kind, key, flags, body)|
    ensures var all := Render(kind, key, flags, body);
            && Answer(all[..n], [Data(all[n..])]) == Got(Config(body))
            && Answer(all[..n], [Data(all[n..m]), Data(all[m..])]) == Exceeded
  {
    var all := Render(kind, key, flags, body);
    BlockReadsBack(kind, key, flags, body);
    PrefixIsIncomplete(kind, key, flags, body, n);
    PrefixIsIncomplete(kind, key, flags, body, m);
    CutPastTheLimit(all, Config(body), n, m);
  }

  lemma CutPastTheLimit(all: seq<Byte>, response: Response, n: nat, m: nat)
    requires n <= MAX_RESPONSE < m < |all|
    requires ParseResponse(all) == Done(response)
    requires ParseResponse(all[..n]).Incomplete? && ParseResponse(all[..m]).Incomplete?
    ensures Answer(all[..n], [Data(all[n..])]) == Got(response)
    ensures Answer(all[..n], [Data(all[n..m]), Data(all[m..])]) == Exceeded
  {
    hide ParseResponse;
    assert all[..n] + all[n..] == all && all[..n] + all[n..m] == all[..m];
    assert Answer(all[..m], [Data(all[m..])]) == Exceeded;
    assert [Data(all[n..m]), Data(all[m..])][1..] == [Data(all[m..])];
  }
}
