/** The dead-letter marker as bytes: how it is written, how it is read back, and how long it can get. */
module DlqMarker {
  import opened Wrappers
  import opened Decimals
  import SendProtocol

  type Byte = x: int | 0 <= x < 256
  type Bytes = seq<Byte>

  const MAX_MARKER := 8192
  const MAX_DETAIL: nat := 1024

  function Ascii(s: string): Bytes {
    seq(|s|, i requires 0 <= i < |s| => if s[i] as int < 128 then s[i] as int else 0)
  }

  // ---------------------------------------------------------------- UTF-8

  predicate Continues(b: Byte) { 0x80 <= b <= 0xbf }

  predicate SecondOk(first: Byte, second: Byte) {
    if first == 0xe0 then 0xa0 <= second <= 0xbf
    else if first == 0xed then 0x80 <= second <= 0x9f
    else if first == 0xf0 then 0x90 <= second <= 0xbf
    else if first == 0xf4 then 0x80 <= second <= 0x8f
    else Continues(second)
  }

  /** The number of bytes of the first character; 0 when the text does not begin with a valid one. */
  function RuneLength(s: Bytes): (n: nat)
    requires s != []
    ensures n <= |s| && n <= 4
  {
    var b := s[0];
    if b < 0x80 then 1
    else if 0xc2 <= b <= 0xdf && |s| >= 2 && Continues(s[1]) then 2
    else if 0xe0 <= b <= 0xef && |s| >= 3 && SecondOk(b, s[1]) && Continues(s[2]) then 3
    else if 0xf0 <= b <= 0xf4 && |s| >= 4 && SecondOk(b, s[1]) && Continues(s[2]) && Continues(s[3]) then 4
    else 0
  }

  const REPLACEMENT: Bytes := [0xef, 0xbf, 0xbd]

  /** Every byte that is not part of a character becomes the replacement character. */
  function Clean(s: Bytes): Bytes
    decreases |s|
  {
    if s == [] then []
    else if RuneLength(s) == 0 then REPLACEMENT + Clean(s[1..])
    else s[..RuneLength(s)] + Clean(s[RuneLength(s)..])
  }

  /** Every byte that is not part of a character is left out. */
  function Strip(s: Bytes): Bytes
    decreases |s|
  {
    if s == [] then []
    else if RuneLength(s) == 0 then Strip(s[1..])
    else s[..RuneLength(s)] + Strip(s[RuneLength(s)..])
  }

  // ---------------------------------------------------------------- JSON strings

  function HexDigit(d: nat): Byte
    requires d < 16
  {
    if d < 10 then 0x30 + d else 0x57 + d
  }

  function HexValue(b: Byte): Option<nat> {
    if 0x30 <= b <= 0x39 then Some(b - 0x30)
    else if 0x61 <= b <= 0x66 then Some(b - 0x57)
    else if 0x41 <= b <= 0x46 then Some(b - 0x37)
    else None
  }

  /** Written as a four-digit escape. */
  function Unicode(r: nat): Bytes
    requires r < 0x10000
  {
    [0x5c, 0x75, HexDigit(r / 4096), HexDigit(r / 256 % 16), HexDigit(r / 16 % 16), HexDigit(r % 16)]
  }

  /** Backslash, quote and the usual control characters have short escapes. */
  function ShortEscape(b: Byte): Option<Byte> {
    if b == 0x22 || b == 0x5c then Some(b)
    else if b == 8 then Some(0x62)
    else if b == 9 then Some(0x74)
    else if b == 10 then Some(0x6e)
    else if b == 12 then Some(0x66)
    else if b == 13 then Some(0x72)
    else None
  }

  function EscapeAscii(b: Byte): Bytes
    requires b < 0x80
  {
    if ShortEscape(b).Some? then [0x5c, ShortEscape(b).value]
    else if b < 0x20 || b == 0x3c || b == 0x3e || b == 0x26 then Unicode(b)
    else [b]
  }

  predicate IsLineSeparator(rune: Bytes) { rune == [0xe2, 0x80, 0xa8] || rune == [0xe2, 0x80, 0xa9] }

  /** One character, or one byte that belongs to none, as it is written. */
  function EscapeFirst(s: Bytes): Bytes
    requires s != []
  {
    if s[0] < 0x80 then EscapeAscii(s[0])
    else if RuneLength(s) == 0 then Unicode(0xfffd)
    else if IsLineSeparator(s[..RuneLength(s)]) then Unicode(if s[2] == 0xa8 then 0x2028 else 0x2029)
    else s[..RuneLength(s)]
  }

  function Consumed(s: Bytes): (n: nat)
    requires s != []
    ensures 1 <= n <= |s|
  {
    if RuneLength(s) == 0 then 1 else RuneLength(s)
  }

  /** The inside of a JSON string literal. */
  function Escape(s: Bytes): Bytes
    decreases |s|
  {
    if s == [] then [] else EscapeFirst(s) + Escape(s[Consumed(s)..])
  }

  function Utf8(r: nat): Bytes
    requires r < 0x10000
  {
    if r < 0x80 then [r]
    else if r < 0x800 then [0xc0 + r / 64, 0x80 + r % 64]
    else if 0xd800 <= r < 0xe000 then REPLACEMENT
    else [0xe0 + r / 4096, 0x80 + r / 64 % 64, 0x80 + r % 64]
  }

  function FourHex(s: Bytes): Option<nat>
    requires |s| >= 4
    ensures FourHex(s).Some? ==> FourHex(s).value < 0x10000
  {
    var a, b, c, d := HexValue(s[0]), HexValue(s[1]), HexValue(s[2]), HexValue(s[3]);
    if a.None? || b.None? || c.None? || d.None? then None
    else Some(((a.value * 16 + b.value) * 16 + c.value) * 16 + d.value)
  }

  function ShortMeaning(b: Byte): Option<Byte> {
    if b == 0x22 || b == 0x5c || b == 0x2f then Some(b)
    else if b == 0x62 then Some(8)
    else if b == 0x74 then Some(9)
    else if b == 0x6e then Some(10)
    else if b == 0x66 then Some(12)
    else if b == 0x72 then Some(13)
    else None
  }

  /** What one written character means, and how long it is; None at the closing quote or on bad syntax. */
  function ReadOne(s: Bytes): (r: Option<(Bytes, nat)>)
    requires s != []
    ensures r.Some? ==> 1 <= r.value.1 <= |s|
  {
    if s[0] == 0x22 || s[0] < 0x20 then None
    else if s[0] == 0x5c then
      if |s| < 2 then None
      else if s[1] == 0x75 then
        if |s| < 6 || FourHex(s[2..]).None? then None else Some((Utf8(FourHex(s[2..]).value), 6))
      else if ShortMeaning(s[1]).None? then None
      else Some(([ShortMeaning(s[1]).value], 2))
    else if RuneLength(s) == 0 then Some((REPLACEMENT, 1))
    else Some((s[..RuneLength(s)], RuneLength(s)))
  }

  /** Reads up to the closing quote: the text, and what follows the quote. */
  function Unescape(s: Bytes): Option<(Bytes, Bytes)>
    decreases |s|
  {
    if s == [] then None
    else if s[0] == 0x22 then Some(([], s[1..]))
    else match ReadOne(s)
      case None => None
      case Some((first, n)) =>
        match Unescape(s[n..])
        case None => None
        case Some((more, rest)) => Some((first + more, rest))
  }

  /** Escaping makes a text at most six times as long. */
  lemma {:induction false} EscapeGrowsSixfold(s: Bytes)
    ensures |Escape(s)| <= 6 * |s|
    decreases |s|
  {
    if s != [] { EscapeGrowsSixfold(s[Consumed(s)..]); }
  }

  lemma HexRoundTrip(d: nat)
    requires d < 16
    ensures HexValue(HexDigit(d)) == Some(d)
  {}

  lemma {:induction false} UnicodeReads(r: nat, rest: Bytes)
    requires r < 0x10000
    ensures ReadOne(Unicode(r) + rest) == Some((Utf8(r), 6))
  {
    var s := Unicode(r) + rest;
    HexRoundTrip(r / 4096);
    HexRoundTrip(r / 256 % 16);
    HexRoundTrip(r / 16 % 16);
    HexRoundTrip(r % 16);
    assert s[2..][0] == HexDigit(r / 4096) && s[2..][1] == HexDigit(r / 256 % 16);
    assert s[2..][2] == HexDigit(r / 16 % 16) && s[2..][3] == HexDigit(r % 16);
    FourDigits(r);
  }

  lemma FourDigits(r: nat)
    requires r < 0x10000
    ensures ((r / 4096 * 16 + r / 256 % 16) * 16 + r / 16 % 16) * 16 + r % 16 == r
  {}

  lemma UnicodeStarts(r: nat)
    requires r < 0x10000
    ensures |Unicode(r)| == 6 && Unicode(r)[0] == 0x5c
  {}

  lemma ReplacementIs()
    ensures Utf8(0xfffd) == REPLACEMENT
  {}

  lemma SameRune(s: Bytes, rest: Bytes)
    requires s != [] && RuneLength(s) > 0
    ensures RuneLength(s[..RuneLength(s)] + rest) == RuneLength(s)
  {
    var n, t := RuneLength(s), s[..RuneLength(s)] + rest;
    assert t[0] == s[0] && (n > 1 ==> t[1] == s[1]) && (n > 2 ==> t[2] == s[2]) && (n > 3 ==> t[3] == s[3]);
  }

  /** What is written for the first character reads back as that character, cleaned. */
  lemma {:induction false} FirstReadsBack(s: Bytes, rest: Bytes)
    requires s != []
    ensures var first := EscapeFirst(s);
      && first != [] && first[0] != 0x22
      && ReadOne(first + rest) == Some((if RuneLength(s) == 0 then REPLACEMENT else s[..RuneLength(s)], |first|))
  {
    hide ReadOne, Unicode, EscapeAscii, Utf8;
    var n := RuneLength(s);
    UnicodeStarts(0xfffd);
    UnicodeStarts(0x2028);
    UnicodeStarts(0x2029);
    ReplacementIs();
    if s[0] < 0x80 {
      assert s[..1] == [s[0]];
      AsciiReadsBack(s[0], rest);
    } else if n == 0 {
      UnicodeReads(0xfffd, rest);
    } else if IsLineSeparator(s[..n]) {
      SeparatorReadsBack(s, rest);
    } else {
      RuneReadsBack(s, rest);
    }
  }

  lemma SeparatorReadsBack(s: Bytes, rest: Bytes)
    requires s != [] && RuneLength(s) > 0 && IsLineSeparator(s[..RuneLength(s)])
    ensures ReadOne(Unicode(if s[2] == 0xa8 then 0x2028 else 0x2029) + rest) == Some((s[..RuneLength(s)], 6))
  {
    var n := RuneLength(s);
    assert s[..n][2] == s[2] && |s[..n]| == 3;
    UnicodeReads(if s[2] == 0xa8 then 0x2028 else 0x2029, rest);
    hide RuneLength, ReadOne, Unicode;
    assert s[..n] == [0xe2, 0x80, s[2]];
  }

  lemma RuneReadsBack(s: Bytes, rest: Bytes)
    requires s != [] && s[0] >= 0x80 && RuneLength(s) > 0
    ensures ReadOne(s[..RuneLength(s)] + rest) == Some((s[..RuneLength(s)], RuneLength(s)))
  {
    SameRune(s, rest);
    hide RuneLength;
    var n := RuneLength(s);
    assert (s[..n] + rest)[0] == s[0];
    assert (s[..n] + rest)[..n] == s[..n];
  }

  lemma AsciiReadsBack(b: Byte, rest: Bytes)
    requires b < 0x80
    ensures EscapeAscii(b) != [] && EscapeAscii(b)[0] != 0x22
    ensures ReadOne(EscapeAscii(b) + rest) == Some(([b], |EscapeAscii(b)|))
  {
    if ShortEscape(b).Some? {
    } else if b < 0x20 || b == 0x3c || b == 0x3e || b == 0x26 {
      UnicodeReads(b, rest);
    } else {
      var s := [b] + rest;
      assert s[0] == b && s[..1] == [b] && RuneLength(s) == 1;
    }
  }

  /** A written string reads back as its cleaned text, up to exactly its closing quote. */
  lemma {:induction false} EscapeRoundTrip(s: Bytes, rest: Bytes)
    ensures Unescape(Escape(s) + [0x22] + rest) == Some((Clean(s), rest))
    decreases |s|
  {
    hide ReadOne, EscapeFirst, RuneLength;
    if s == [] {
      assert Escape(s) + [0x22] + rest == [0x22] + rest;
      assert ([0x22] + rest)[1..] == rest;
    } else {
      var n := Consumed(s);
      var first, later := EscapeFirst(s), Escape(s[n..]) + [0x22] + rest;
      EscapeRoundTrip(s[n..], rest);
      FirstReadsBack(s, later);
      assert EscapeStep(s) + [0x22] + rest == first + later;
      ReadStep(first, later, if RuneLength(s) == 0 then REPLACEMENT else s[..RuneLength(s)]);
    }
  }

  lemma ReadStep(first: Bytes, later: Bytes, meaning: Bytes)
    requires first != [] && first[0] != 0x22 && ReadOne(first + later) == Some((meaning, |first|))
    ensures Unescape(first + later) ==
      match Unescape(later) case None => None case Some((more, rest)) => Some((meaning + more, rest))
  {
    hide ReadOne;
    assert (first + later)[|first|..] == later;
  }

  function EscapeStep(s: Bytes): Bytes
    requires s != []
    ensures EscapeStep(s) == Escape(s)
  {
    EscapeFirst(s) + Escape(s[Consumed(s)..])
  }

  // ---------------------------------------------------------------- the marker

  datatype Pending = Pending(failureId: Bytes, messageId: Bytes, class_: Bytes, detail: Bytes, attempts: nat, at: Bytes)

  function PrefixText(): Bytes { Ascii("dlq_pending|") }
  function FailureIdField(): Bytes { Ascii("{\"failure_id\":\"") }
  function MessageIdField(): Bytes { Ascii(",\"message_id\":\"") }
  function ClassField(): Bytes { Ascii(",\"class\":\"") }
  function DetailField(): Bytes { Ascii(",\"detail\":\"") }
  function AttemptsField(): Bytes { Ascii(",\"attempts\":") }
  function AtField(): Bytes { Ascii(",\"at\":\"") }
  function TruncatedText(): Bytes { Ascii(" [truncated]") }
  function RetryableText(): Bytes { Ascii("retryable") }
  function RateLimitedText(): Bytes { Ascii("rate_limited") }

  /** How the zero time is written. */
  function ZeroTimeText(): Bytes { Ascii("0001-01-01T00:00:00Z") }

  /** A string field and what follows it. */
  function Field(key: Bytes, value: Bytes, rest: Bytes): Bytes { key + (Escape(value) + [0x22] + rest) }

  function Number(n: nat): Bytes { Ascii(Decimal(n)) }

  function Marker(p: Pending): Bytes {
    PrefixText() + Field(FailureIdField(), p.failureId,
      Field(MessageIdField(), p.messageId, Field(ClassField(), p.class_,
      Field(DetailField(), p.detail, AttemptsField() + (Number(p.attempts) + Field(AtField(), p.at, [0x7d]))))))
  }

  /** Long failure details are cut to a fixed number of bytes, and to whole characters. */
  function Truncated(detail: Bytes): Bytes {
    if |detail| > MAX_DETAIL then Strip(detail[..MAX_DETAIL]) + TruncatedText() else detail
  }

  /** The marker a worker writes when it starts to dead-letter. */
  function Begun(p: Pending, failureId: Bytes): Pending { p.(failureId := failureId, detail := Truncated(p.detail)) }

  function ReadField(key: Bytes, s: Bytes): Option<(Bytes, Bytes)> {
    if key <= s then Unescape(s[|key|..]) else None
  }

  /** Digits up to the first other byte. */
  function ReadNumber(s: Bytes, sofar: nat): (nat, Bytes) {
    if s != [] && 0x30 <= s[0] <= 0x39 then ReadNumber(s[1..], sofar * 10 + (s[0] - 0x30)) else (sofar, s)
  }

  function ReadTail(s: Bytes): Option<(nat, Bytes)> {
    if !(AttemptsField() <= s) then None
    else
      var (n, rest) := ReadNumber(s[|AttemptsField()|..], 0);
      match ReadField(AtField(), rest)
      case None => None
      case Some((at, end)) => if end == [0x7d] then Some((n, at)) else None
  }

  /** The fields in the order in which they are written. */
  function ReadJson(s: Bytes): Option<Pending> {
    match ReadField(FailureIdField(), s)
    case None => None
    case Some((failureId, s1)) =>
      match ReadField(MessageIdField(), s1)
      case None => None
      case Some((messageId, s2)) =>
        match ReadField(ClassField(), s2)
        case None => None
        case Some((class_, s3)) =>
          match ReadField(DetailField(), s3)
          case None => None
          case Some((detail, s4)) =>
            match ReadTail(s4)
            case None => None
            case Some((attempts, at)) => Some(Pending(failureId, messageId, class_, detail, attempts, at))
  }

  predicate IsHex(b: Byte) { HexValue(b).Some? }

  predicate IsUuid(s: Bytes) {
    |s| == 36 && forall i | 0 <= i < 36 :: if i == 8 || i == 13 || i == 18 || i == 23 then s[i] == 0x2d else IsHex(s[i])
  }

  predicate FieldsOk(p: Pending) {
    IsUuid(p.failureId) && p.messageId != [] && p.at != ZeroTimeText() && p.attempts >= SendProtocol.MAX_SEND_ATTEMPTS
    && (p.class_ == RetryableText() || p.class_ == RateLimitedText())
  }

  /** What a worker that resumes the marker makes of it; None leaves the item pending. */
  function ReadMarker(raw: Bytes): Option<Pending> {
    if !(PrefixText() <= raw) || |raw| > MAX_MARKER then None
    else match ReadJson(raw[|PrefixText()|..])
      case None => None
      case Some(p) => if FieldsOk(p) then Some(p) else None
  }

  // ---------------------------------------------------------------- reading back what was written

  /** Printable text that needs no escape. */
  predicate Safe(s: Bytes) {
    forall b | b in s :: 0x20 <= b < 0x7f && b != 0x22 && b != 0x5c && b != 0x3c && b != 0x3e && b != 0x26
  }

  lemma {:induction false} SafeText(s: Bytes)
    requires Safe(s)
    ensures Escape(s) == s && Clean(s) == s
    decreases |s|
  {
    if s != [] {
      assert s[0] in s;
      assert forall b | b in s[1..] :: b in s;
      SafeText(s[1..]);
      SafeFirst(s);
      hide RuneLength, EscapeFirst, Safe;
      assert s == [s[0]] + s[1..] && s[..1] == [s[0]];
    }
  }

  lemma SafeFirst(s: Bytes)
    requires s != [] && Safe(s)
    ensures RuneLength(s) == 1 && EscapeFirst(s) == [s[0]]
  {
    assert s[0] in s;
  }

  lemma CleanKeepsSomething(s: Bytes)
    requires s != []
    ensures Clean(s) != []
  {}

  lemma UuidIsSafe(s: Bytes)
    requires IsUuid(s)
    ensures Safe(s)
  {}

  lemma ClassesAreSafe()
    ensures Safe(RetryableText()) && Safe(RateLimitedText()) && |RetryableText()| == 9 && |RateLimitedText()| == 12
  {}

  lemma {:induction false} FieldReads(key: Bytes, value: Bytes, rest: Bytes)
    ensures ReadField(key, Field(key, value, rest)) == Some((Clean(value), rest))
  {
    hide Escape, Clean, Unescape;
    EscapeRoundTrip(value, rest);
    var s := Field(key, value, rest);
    assert s[..|key|] == key;
    assert s[|key|..] == Escape(value) + [0x22] + rest;
  }

  lemma {:induction false} NumberReads(n: nat, rest: Bytes)
    ensures ReadNumber(Number(n) + rest, 0) == ReadNumber(rest, n)
    decreases n
  {
    var d: Byte := 0x30 + n % 10;
    if n < 10 {
      assert Number(n) == [d];
      assert (Number(n) + rest)[1..] == rest;
    } else {
      NumberReads(n / 10, [d] + rest);
      assert Number(n) == Number(n / 10) + [d];
      assert Number(n) + rest == Number(n / 10) + ([d] + rest);
      assert ([d] + rest)[1..] == rest;
    }
  }

  lemma TailReads(n: nat, at: Bytes)
    ensures ReadTail(AttemptsField() + (Number(n) + Field(AtField(), at, [0x7d]))) == Some((n, Clean(at)))
  {
    var end := Field(AtField(), at, [0x7d]);
    var s := AttemptsField() + (Number(n) + end);
    assert s[..|AttemptsField()|] == AttemptsField();
    assert s[|AttemptsField()|..] == Number(n) + end;
    NumberReads(n, end);
    StartsWithComma(at);
    hide Number, ReadField, Clean, Field, AttemptsField, AtField;
    FieldReads(AtField(), at, [0x7d]);
  }

  lemma StartsWithComma(at: Bytes)
    ensures Field(AtField(), at, [0x7d])[0] == 0x2c
  {
    assert AtField()[0] == 0x2c;
  }

  lemma {:induction false} JsonReads(p: Pending)
    ensures PrefixText() <= Marker(p)
    ensures ReadJson(Marker(p)[|PrefixText()|..])
      == Some(Pending(Clean(p.failureId), Clean(p.messageId), Clean(p.class_), Clean(p.detail), p.attempts,
      Clean(p.at)))
  {
    hide PrefixText, FailureIdField, MessageIdField, ClassField, DetailField, AttemptsField, AtField, Field, ReadField,
      Number, Clean, ReadTail;
    var t := AttemptsField() + (Number(p.attempts) + Field(AtField(), p.at, [0x7d]));
    var d := Field(DetailField(), p.detail, t);
    var c := Field(ClassField(), p.class_, d);
    var m := Field(MessageIdField(), p.messageId, c);
    var f := Field(FailureIdField(), p.failureId, m);
    assert Marker(p) == PrefixText() + f;
    assert (PrefixText() + f)[|PrefixText()|..] == f;
    TailReads(p.attempts, p.at);
    FieldReads(DetailField(), p.detail, t);
    FieldReads(ClassField(), p.class_, d);
    FieldReads(MessageIdField(), p.messageId, c);
    FieldReads(FailureIdField(), p.failureId, m);
  }

  /** What the send loop passes in. */
  predicate Passable(p: Pending) {
    && p.messageId != []
    && (p.class_ == RetryableText() || p.class_ == RateLimitedText())
    && SendProtocol.MAX_SEND_ATTEMPTS <= p.attempts < 10_000_000_000_000_000_000
    && Safe(p.at) && |p.at| <= 35 && p.at != ZeroTimeText()
  }

  /** The record as it comes back: bytes that are no text are replaced. */
  function Recorded(p: Pending): Pending { p.(messageId := Clean(p.messageId), detail := Clean(p.detail)) }

  /** A marker that was written is readable exactly when it is short enough, and then it says what was written. */
  lemma {:induction false} MarkersReadBack(p: Pending, failureId: Bytes)
    requires Passable(p) && IsUuid(failureId)
    ensures var q := Begun(p, failureId);
      ReadMarker(Marker(q)) == if |Marker(q)| <= MAX_MARKER then Some(Recorded(q)) else None
  {
    hide Clean, Marker, ReadJson, PrefixText, RetryableText, RateLimitedText, ZeroTimeText, Truncated, IsUuid, Safe;
    var q := Begun(p, failureId);
    JsonReads(q);
    UuidIsSafe(failureId);
    SafeText(failureId);
    ClassesAreSafe();
    SafeText(p.class_);
    SafeText(p.at);
    CleanKeepsSomething(p.messageId);
  }

  lemma KeyLengths()
    ensures |PrefixText()| == 12 && |FailureIdField()| == 15 && |MessageIdField()| == 15 && |ClassField()| == 10
    ensures |DetailField()| == 11 && |AttemptsField()| == 12 && |AtField()| == 7 && |TruncatedText()| == 12
  {}

  lemma NineteenDigits(n: nat)
    requires n < 10_000_000_000_000_000_000
    ensures |Number(n)| <= 19
  {
    assert Pow10(19) == 10_000_000_000_000_000_000 by {
      assert Pow10(9) == 1_000_000_000;
      assert Pow10(14) == 100_000_000_000_000;
    }
    DecimalFits(n, 19);
  }

  lemma {:induction false} EscapeOfSafeTail(s: Bytes, tail: Bytes)
    requires Safe(tail)
    ensures |Escape(Strip(s) + tail)| <= 6 * |s| + |tail|
    decreases |s|
  {
    if s == [] {
      assert Strip(s) + tail == tail;
      SafeText(tail);
    } else if RuneLength(s) == 0 {
      EscapeOfSafeTail(s[1..], tail);
    } else {
      var n := RuneLength(s);
      EscapeOfSafeTail(s[n..], tail);
      var t := Strip(s[n..]) + tail;
      assert Strip(s) + tail == s[..n] + t;
      SameRune(s, t);
      assert (s[..n] + t)[n..] == t;
    }
  }

  lemma TruncationIsSafe()
    ensures Safe(TruncatedText())
  {}

  /** However long and whatever the failure detail is, its written form is bounded. */
  lemma DetailIsBounded(detail: Bytes)
    ensures |Escape(Truncated(detail))| <= 6156
  {
    hide Escape, Strip, TruncatedText;
    if |detail| > MAX_DETAIL {
      TruncationIsSafe();
      EscapeOfSafeTail(detail[..MAX_DETAIL], TruncatedText());
      KeyLengths();
    } else {
      EscapeGrowsSixfold(detail);
    }
  }

  /** Every marker for a message id of at most 300 bytes, a UUID in particular, fits. */
  lemma {:induction false} MarkersFit(p: Pending, failureId: Bytes)
    requires Passable(p) && IsUuid(failureId) && |p.messageId| <= 300
    ensures |Marker(Begun(p, failureId))| <= MAX_MARKER
    ensures ReadMarker(Marker(Begun(p, failureId))) == Some(Recorded(Begun(p, failureId)))
  {
    hide Escape, Truncated, PrefixText, FailureIdField, MessageIdField, ClassField, DetailField, AttemptsField,
      AtField, Number, RetryableText, RateLimitedText, ZeroTimeText, Safe, ReadMarker;
    MarkersReadBack(p, failureId);
    UuidIsSafe(failureId);
    SafeText(failureId);
    ClassesAreSafe();
    SafeText(p.class_);
    SafeText(p.at);
    EscapeGrowsSixfold(p.messageId);
    DetailIsBounded(p.detail);
    NineteenDigits(p.attempts);
    KeyLengths();
  }
}
