/** RESP2 framing as simpleredis/resp.go writes and reads it (Redis serialization protocol
    specification, sections "Bulk strings" and "Arrays"). The functions say what a reply decodes to;
    a stream is everything the peer will ever send. */
module RespCodec {
  import opened Basics

  type Byte = b: int | 0 <= b < 256
  type Bytes = seq<Byte>

  const CR: Byte := 13
  const LF: Byte := 10
  const PLUS: Byte := 43
  const COLON: Byte := 58
  const MINUS: Byte := 45
  const DOLLAR: Byte := 36
  const STAR: Byte := 42
  const ZERO: Byte := 48
  const CRLF: Bytes := [13, 10]

  /** The reader's buffer size; a line must fit it. */
  const LINE_MAX := 4096
  const MAX_BULK := 0x400_0000
  const MAX_ARRAY := 0x10_0000
  const MAX_INT := 0x7fff_ffff_ffff_ffff

  // ---------------------------------------------------------------- numerals

  predicate IsDigit(b: Byte) { 48 <= b <= 57 }

  ghost predicate Digital(d: Bytes) { forall i :: 0 <= i < |d| ==> IsDigit(d[i]) }

  /** The number a digit string denotes. */
  ghost function Decimal(d: Bytes): nat
    requires Digital(d)
  {
    if d == [] then 0 else Decimal(d[..|d| - 1]) * 10 + (d[|d| - 1] - 48)
  }

  /** An optionally signed, non-empty digit string. */
  ghost predicate Numeral(d: Bytes) {
    var m := Magnitude(d);
    m != [] && Digital(m)
  }

  function Magnitude(d: Bytes): Bytes { if d != [] && d[0] == 45 then d[1..] else d }

  /** The value of a length field: exactly the numerals whose magnitude fits a machine integer. */
  ghost function Length(d: Bytes): Option<int> {
    if Numeral(d) && Decimal(Magnitude(d)) <= MAX_INT then
      var m: int := Decimal(Magnitude(d));
      Some(if d[0] == 45 then -m else m)
    else None
  }

  /** strconv.AppendInt of a non-negative number. */
  function Digits(n: nat): (d: Bytes)
    ensures d != []
  {
    if n < 10 then [48 + n] else Digits(n / 10) + [48 + n % 10]
  }

  lemma {:induction false} DigitsDigital(n: nat)
    ensures Digital(Digits(n)) && Decimal(Digits(n)) == n
  {
    if n < 10 {
      assert Digits(n)[..0] == [];
    } else {
      DigitsDigital(n / 10);
      var d := Digits(n);
      assert d[..|d| - 1] == Digits(n / 10);
    }
  }

  lemma {:induction false} DigitsShort(n: nat, k: nat, bound: nat)
    requires n < bound && bound == Pow10(k) && k > 0
    ensures |Digits(n)| <= k
  {
    if n >= 10 { DigitsShort(n / 10, k - 1, Pow10(k - 1)); }
  }

  function Pow10(k: nat): nat { if k == 0 then 1 else 10 * Pow10(k - 1) }

  /** A header's number reads back. */
  lemma LengthOfDigits(n: nat)
    requires n <= MAX_INT
    ensures Length(Digits(n)) == Some(n)
  {
    DigitsDigital(n);
    assert IsDigit(Digits(n)[0]);
  }

  // ---------------------------------------------------------------- lines

  function NewlineAt(s: Bytes): (r: Option<nat>)
    ensures r.Some? ==> r.value < |s| && s[r.value] == LF && forall j :: 0 <= j < r.value ==> s[j] != LF
    ensures r.None? ==> LF !in s
  {
    if s == [] then None
    else if s[0] == LF then Some(0)
    else match NewlineAt(s[1..]) case None => None case Some(i) => Some(i + 1)
  }

  /** Why a reply cannot be used: malformed, a type this client does not decode, or the stream ended. */
  datatype Fault = Issue | Unsupported | Io

  datatype Line = Line(text: Bytes, used: nat) | BadLine(fault: Fault)

  function ReadLine(s: Bytes): (r: Line)
    ensures r.Line? ==> 2 <= r.used <= |s| && r.used <= LINE_MAX && s[..r.used] == r.text + CRLF && LF !in r.text
  {
    var window := if |s| <= LINE_MAX then s else s[..LINE_MAX];
    match NewlineAt(window)
    case None => BadLine(if |s| >= LINE_MAX then Issue else Io)
    case Some(i) => if i == 0 || s[i - 1] != CR then BadLine(Issue) else Line(s[..i - 1], i + 1)
  }

  // ---------------------------------------------------------------- bulk strings

  datatype Bulk = Data(data: Bytes, used: nat) | Miss | BadBulk(fault: Fault)

  /** `s` is the stream after the header line. */
  ghost function ReadBulk(s: Bytes, head: Bytes): (r: Bulk)
    ensures r.Data? ==> r.used <= |s| && s[..r.used] == r.data + CRLF && |r.data| <= MAX_BULK
  {
    if head == [] || head[0] != DOLLAR then BadBulk(Issue)
    else match Length(head[1..])
      case None => BadBulk(Issue)
      case Some(n) =>
        if n < 0 then Miss
        else if n > MAX_BULK then BadBulk(Issue)
        else if |s| < n + 2 then BadBulk(Io)
        else if s[n] != CR || s[n + 1] != LF then BadBulk(Issue)
        else Data(s[..n], n + 2)
  }

  // ---------------------------------------------------------------- replies

  /** A value is a byte string or nil. */
  type Value = Option<Bytes>

  /** A copied line is nil when it is empty. */
  function Copied(text: Bytes): Value { if text == [] then None else Some(text) }

  datatype Failure = NoAuth | Text(text: Bytes)

  /** A clean reply is values or an error the peer sent; a dirty one is a fault and no values. */
  datatype Reply = Values(values: seq<Value>, used: nat) | Failed(error: Failure, used: nat) | Dirty(fault: Fault)

  predicate Clean(r: Reply) { !r.Dirty? }

  datatype Element = Element(value: Value, used: nat) | BadElement(fault: Fault)

  /** One element of an array. */
  ghost function ReadElement(s: Bytes): (r: Element)
    ensures r.Element? ==> 0 < r.used <= |s|
  {
    match ReadLine(s)
    case BadLine(f) => BadElement(f)
    case Line(head, n) =>
      if head == [] then BadElement(Issue)
      else if head[0] == DOLLAR then
        match ReadBulk(s[n..], head)
        case Miss => Element(None, n)
        case BadBulk(f) => BadElement(f)
        case Data(data, m) => Element(Some(data), n + m)
      else if head[0] == COLON || head[0] == PLUS then Element(Copied(head[1..]), n)
      else BadElement(Unsupported)
  }

  ghost function ReadElements(s: Bytes, count: nat): (r: Reply)
    ensures r.Values? ==> |r.values| == count && r.used <= |s|
    ensures !r.Failed?
  {
    if count == 0 then Values([], 0)
    else match ReadElement(s)
      case BadElement(f) => Dirty(f)
      case Element(v, n) =>
        var rest := ReadElements(s[n..], count - 1);
        if rest.Values? then Values([v] + rest.values, n + rest.used) else rest
  }

  const NOAUTH: Bytes := [78, 79, 65, 85, 84, 72]
  const WRONGPASS: Bytes := [87, 82, 79, 78, 71, 80, 65, 83, 83]
  const NOPERM: Bytes := [78, 79, 80, 69, 82, 77]
  const ERR_AUTH: Bytes := [69, 82, 82, 32, 67, 108, 105, 101, 110, 116, 32, 115, 101, 110, 116, 32, 65, 85, 84, 72]

  function ReplyError(message: Bytes): Failure {
    if NOAUTH <= message || WRONGPASS <= message || NOPERM <= message || ERR_AUTH <= message then NoAuth else Text(message)
  }

  /** readReply */
  ghost function Decode(s: Bytes): (r: Reply)
    ensures Clean(r) ==> 0 < r.used <= |s|
  {
    match ReadLine(s)
    case BadLine(f) => Dirty(f)
    case Line(line, n) =>
      if line == [] then Dirty(Issue)
      else if line[0] == PLUS || line[0] == COLON then Values([Copied(line[1..])], n)
      else if line[0] == MINUS then Failed(ReplyError(line[1..]), n)
      else if line[0] == DOLLAR then
        match ReadBulk(s[n..], line)
        case Miss => Values([None], n)
        case BadBulk(f) => Dirty(f)
        case Data(data, m) => Values([Some(data)], n + m)
      else if line[0] == STAR then
        match Length(line[1..])
        case None => Dirty(Issue)
        case Some(count) =>
          if count < 0 || count > MAX_ARRAY then Dirty(Issue)
          else match ReadElements(s[n..], count)
            case Values(vs, m) => Values(vs, n + m)
            case other => other
      else Dirty(Unsupported)
  }

  // ---------------------------------------------------------------- the encoder

  function EncodeBulk(arg: Bytes): Bytes { [DOLLAR] + Digits(|arg|) + CRLF + arg + CRLF }

  function EncodeBulks(args: seq<Bytes>): Bytes {
    if args == [] then [] else EncodeBulk(args[0]) + EncodeBulks(args[1..])
  }

  /** writeCommand */
  function Encode(args: seq<Bytes>): Bytes { [STAR] + Digits(|args|) + CRLF + EncodeBulks(args) }

  predicate InCaps(args: seq<Bytes>) { |args| <= MAX_ARRAY && forall i :: 0 <= i < |args| ==> |args[i]| <= MAX_BULK }

  function AsValues(args: seq<Bytes>): seq<Value> { seq(|args|, i requires 0 <= i < |args| => Some(args[i])) }
}
