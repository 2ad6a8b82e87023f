/** What a RESP2 server may answer, written out byte by byte, and what each answer decodes to. */
module RespWire {
  import opened Basics
  import opened RespCodec
  import opened RespTheorems

  /** The bytes of a text. */
  function Ascii(text: string): Bytes
    requires forall i :: 0 <= i < |text| ==> text[i] as int < 256
  {
    seq(|text|, i requires 0 <= i < |text| => text[i] as int)
  }

  /** A bulk string, the nil bulk string, an integer or a simple string. */
  datatype Item = BulkItem(data: Bytes) | NilItem | IntItem(text: Bytes) | SimpleItem(text: Bytes)

  datatype Answer = One(item: Item) | Refusal(text: Bytes) | Many(items: seq<Item>)

  // ---------------------------------------------------------------- the wire

  function SentItem(e: Item): Bytes {
    match e
    case BulkItem(data) => Ascii("$") + Digits(|data|) + Ascii("\r\n") + data + Ascii("\r\n")
    case NilItem => Ascii("$-1\r\n")
    case IntItem(text) => Ascii(":") + text + Ascii("\r\n")
    case SimpleItem(text) => Ascii("+") + text + Ascii("\r\n")
  }

  function SentItems(es: seq<Item>): Bytes { if es == [] then [] else SentItem(es[0]) + SentItems(es[1..]) }

  function Sent(a: Answer): Bytes {
    match a
    case One(e) => SentItem(e)
    case Refusal(text) => Ascii("-") + text + Ascii("\r\n")
    case Many(es) => Ascii("*") + Digits(|es|) + Ascii("\r\n") + SentItems(es)
  }

  /** A text that fits a line of the 4096-byte buffer. */
  predicate LineText(text: Bytes) { 10 !in text && |text| <= 4093 }

  predicate ItemFits(e: Item) {
    match e
    case BulkItem(data) => |data| <= 64 * 1024 * 1024
    case NilItem => true
    case IntItem(text) => LineText(text)
    case SimpleItem(text) => LineText(text)
  }

  ghost predicate Fits(a: Answer) {
    match a
    case One(e) => ItemFits(e)
    case Refusal(text) => LineText(text)
    case Many(es) => |es| <= 1024 * 1024 && forall i :: 0 <= i < |es| ==> ItemFits(es[i])
  }

  // ---------------------------------------------------------------- what it means

  /** An empty line of text is nil, like the nil bulk string. */
  function ItemValue(e: Item): Value {
    match e
    case BulkItem(data) => Some(data)
    case NilItem => None
    case IntItem(text) => if text == [] then None else Some(text)
    case SimpleItem(text) => if text == [] then None else Some(text)
  }

  /** The peer wants authentication. */
  predicate AuthText(text: Bytes) {
    Ascii("NOAUTH") <= text || Ascii("WRONGPASS") <= text || Ascii("NOPERM") <= text || Ascii("ERR Client sent AUTH") <= text
  }

  function Meant(a: Answer): Reply {
    match a
    case One(e) => Values([ItemValue(e)], |Sent(a)|)
    case Refusal(text) => Failed(if AuthText(text) then NoAuth else Text(text), |Sent(a)|)
    case Many(es) => Values(seq(|es|, i requires 0 <= i < |es| => ItemValue(es[i])), |Sent(a)|)
  }

  // ---------------------------------------------------------------- the proof

  lemma Marks()
    ensures Ascii("$") == [DOLLAR] && Ascii(":") == [COLON] && Ascii("+") == [PLUS] && Ascii("-") == [MINUS] && Ascii("*") == [STAR]
    ensures Ascii("\r\n") == CRLF && Ascii("$-1\r\n") == [DOLLAR, MINUS, 49] + CRLF
  {
  }

  lemma AuthWords()
    ensures Ascii("NOAUTH") == NOAUTH && Ascii("WRONGPASS") == WRONGPASS && Ascii("NOPERM") == NOPERM
    ensures Ascii("ERR Client sent AUTH") == ERR_AUTH
  {
  }

  lemma TextLine(x: Byte, text: Bytes, tail: Bytes)
    requires x != LF && LineText(text)
    ensures ReadLine([x] + text + CRLF + tail) == Line([x] + text, |text| + 3)
  {
    hide ReadLine;
    WholeLine([x] + text, tail);
  }

  lemma NilHeader(s: Bytes)
    ensures ReadBulk(s, [DOLLAR, MINUS, 49]) == Miss
  {
    var head := [DOLLAR, MINUS, 49];
    assert head[1..] == [MINUS, 49] && Magnitude(head[1..]) == [49];
    assert Digital([49]) && [49][..0] == [];
    assert Decimal([49]) == 1;
  }

  lemma ItemDecodes(e: Item, tail: Bytes)
    requires ItemFits(e)
    ensures ReadElement(SentItem(e) + tail) == Element(ItemValue(e), |SentItem(e)|)
  {
    hide ReadLine, ReadBulk, Ascii;
    Marks();
    var s := SentItem(e) + tail;
    match e
    case BulkItem(data) => ElementBack(data, tail);
    case NilItem =>
      WholeLine([DOLLAR, MINUS, 49], tail);
      NilHeader(s[5..]);
    case IntItem(text) =>
      TextLine(COLON, text, tail);
      assert ([COLON] + text)[1..] == text;
    case SimpleItem(text) =>
      TextLine(PLUS, text, tail);
      assert ([PLUS] + text)[1..] == text;
  }

  lemma {:induction false} ItemsDecode(es: seq<Item>, tail: Bytes)
    requires forall i :: 0 <= i < |es| ==> ItemFits(es[i])
    ensures ReadElements(SentItems(es) + tail, |es|) == Values(seq(|es|, i requires 0 <= i < |es| => ItemValue(es[i])), |SentItems(es)|)
  {
    hide ReadElement, SentItem, ItemValue, ItemFits;
    if es != [] {
      var more := SentItems(es[1..]) + tail;
      var s := SentItems(es) + tail;
      assert s == SentItem(es[0]) + more;
      ItemDecodes(es[0], more);
      assert s[|SentItem(es[0])|..] == more;
      ItemsDecode(es[1..], tail);
      var rest := seq(|es| - 1, i requires 0 <= i < |es| - 1 => ItemValue(es[1..][i]));
      assert seq(|es|, i requires 0 <= i < |es| => ItemValue(es[i])) == [ItemValue(es[0])] + rest;
    }
  }

  /** What follows a bulk header decides. */
  lemma BulkHead(n: nat, after: Bytes)
    requires n <= MAX_BULK
    ensures Decode(Header(DOLLAR, n) + after) ==
            match ReadBulk(after, [DOLLAR] + Digits(n))
            case Miss => Values([None], |Digits(n)| + 3)
            case BadBulk(f) => Dirty(f)
            case Data(data, m) => Values([Some(data)], |Digits(n)| + 3 + m)
  {
    hide ReadLine, ReadBulk, Digits;
    SmallHeader(n);
    HeaderLine(DOLLAR, n, after);
    assert (Header(DOLLAR, n) + after)[|Digits(n)| + 3..] == after;
  }

  /** What follows an array header decides. */
  lemma ManyHead(count: nat, after: Bytes)
    requires count <= MAX_ARRAY
    ensures Decode(Header(STAR, count) + after) ==
            match ReadElements(after, count)
            case Values(vs, m) => Values(vs, |Digits(count)| + 3 + m)
            case other => other
  {
    hide ReadLine, ReadElements, Digits, Length;
    SmallHeader(count);
    LengthOfDigits(count);
    HeaderLine(STAR, count, after);
    assert ([STAR] + Digits(count))[1..] == Digits(count);
    assert (Header(STAR, count) + after)[|Digits(count)| + 3..] == after;
  }

  lemma TextDecodes(x: Byte, text: Bytes, tail: Bytes)
    requires LineText(text) && (x == PLUS || x == COLON)
    ensures Decode([x] + text + CRLF + tail) == Values([if text == [] then None else Some(text)], |text| + 3)
  {
    hide ReadLine, ReadBulk, ReadElements;
    TextLine(x, text, tail);
    assert ([x] + text)[1..] == text;
  }

  lemma NilDecodes(tail: Bytes)
    ensures Decode([DOLLAR, MINUS, 49] + CRLF + tail) == Values([None], 5)
  {
    hide ReadLine, ReadBulk, ReadElements;
    WholeLine([DOLLAR, MINUS, 49], tail);
    NilHeader(([DOLLAR, MINUS, 49] + CRLF + tail)[5..]);
  }

  lemma BulkDecodes(data: Bytes, tail: Bytes)
    requires |data| <= MAX_BULK
    ensures Decode(Header(DOLLAR, |data|) + data + CRLF + tail) == Values([Some(data)], |Digits(|data|)| + 5 + |data|)
  {
    hide Decode, ReadBulk, Digits, Header;
    BulkHead(|data|, data + CRLF + tail);
    BulkBack(data, tail);
    assert Header(DOLLAR, |data|) + data + CRLF + tail == Header(DOLLAR, |data|) + (data + CRLF + tail);
  }

  lemma OneDecodes(e: Item, tail: Bytes)
    requires ItemFits(e)
    ensures Decode(SentItem(e) + tail) == Values([ItemValue(e)], |SentItem(e)|)
  {
    hide Decode, Ascii, Digits;
    Marks();
    match e
    case BulkItem(data) => BulkDecodes(data, tail);
    case NilItem => NilDecodes(tail);
    case IntItem(text) => TextDecodes(COLON, text, tail);
    case SimpleItem(text) => TextDecodes(PLUS, text, tail);
  }

  lemma RefusalDecodes(text: Bytes, tail: Bytes)
    requires LineText(text)
    ensures Decode(Sent(Refusal(text)) + tail) == Meant(Refusal(text))
  {
    hide ReadLine, Ascii;
    Marks();
    AuthWords();
    TextLine(MINUS, text, tail);
    assert ([MINUS] + text)[1..] == text;
  }

  lemma ManyDecodes(es: seq<Item>, tail: Bytes)
    requires Fits(Many(es))
    ensures Decode(Sent(Many(es)) + tail) == Meant(Many(es))
  {
    hide Decode, ReadElements, Digits, Ascii, ItemValue;
    Marks();
    ManyHead(|es|, SentItems(es) + tail);
    assert Sent(Many(es)) + tail == Header(STAR, |es|) + (SentItems(es) + tail);
    ItemsDecode(es, tail);
  }

  /** Whatever a server may answer within the caps decodes to what it says, whole, with nothing after it
      touched. */
  lemma AnswersDecode(a: Answer, tail: Bytes)
    requires Fits(a)
    ensures Decode(Sent(a) + tail) == Meant(a)
  {
    hide Decode;
    match a
    case One(e) => OneDecodes(e, tail);
    case Refusal(text) => RefusalDecodes(text, tail);
    case Many(es) => ManyDecodes(es, tail);
  }

  /** A command goes out as an array of bulk strings. */
  lemma {:induction false} CommandsAreArrays(args: seq<Bytes>)
    ensures EncodeBulks(args) == SentItems(seq(|args|, i requires 0 <= i < |args| => BulkItem(args[i])))
    ensures Encode(args) == Sent(Many(seq(|args|, i requires 0 <= i < |args| => BulkItem(args[i]))))
  {
    hide Digits, Ascii;
    Marks();
    if args != [] {
      CommandsAreArrays(args[1..]);
      var items := seq(|args|, i requires 0 <= i < |args| => BulkItem(args[i]));
      assert items[1..] == seq(|args| - 1, i requires 0 <= i < |args| - 1 => BulkItem(args[1..][i]));
    }
  }

  /** Numbers are written in decimal without leading zeros. */
  lemma {:induction false} PlainDecimal(n: nat)
    ensures Digital(Digits(n)) && Decimal(Digits(n)) == n && (|Digits(n)| > 1 ==> Digits(n)[..1] != Ascii("0"))
  {
    DigitsDigital(n);
    if n >= 10 {
      PlainDecimal(n / 10);
      assert Digits(n)[0] == Digits(n / 10)[0];
      if n < 100 { assert Digits(n / 10) == [48 + n / 10]; }
      assert Digits(n)[..1] == [Digits(n)[0]] && Digits(n / 10)[..1] == [Digits(n / 10)[0]];
    }
  }

  // ---------------------------------------------------------------- a stream that ends early

  lemma LineCut(s: Bytes, k: nat)
    requires ReadLine(s).Line? && k < ReadLine(s).used
    ensures ReadLine(s[..k]) == BadLine(Io)
  {
    var n := ReadLine(s).used;
    forall j | 0 <= j < k ensures s[..k][j] != LF {
      assert s[j] == s[..n][j];
      if j < |ReadLine(s).text| { assert s[j] == ReadLine(s).text[j]; }
    }
  }

  lemma Cut(s: Bytes, n: nat, k: nat)
    requires n <= k <= |s|
    ensures s[..k][n..] == s[n..][..k - n] && s[..k][..n] == s[..n]
  {
  }

  lemma BulkCut(s: Bytes, head: Bytes, k: nat)
    requires ReadBulk(s, head).Data? && k < ReadBulk(s, head).used
    ensures ReadBulk(s[..k], head) == BadBulk(Io)
  {
    hide Length;
  }

  lemma ElementCut(s: Bytes, k: nat)
    requires ReadElement(s).Element? && k < ReadElement(s).used
    ensures ReadElement(s[..k]) == BadElement(Io)
  {
    hide ReadLine, ReadBulk;
    var n := ReadLine(s).used;
    if k < n { LineCut(s, k); }
    else {
      Cut(s, n, k);
      LineLocal(s, s[..k]);
      BulkCut(s[n..], ReadLine(s).text, k - n);
    }
  }

  lemma {:induction false} ElementsCut(s: Bytes, count: nat, k: nat)
    requires ReadElements(s, count).Values? && k < ReadElements(s, count).used
    ensures ReadElements(s[..k], count) == Dirty(Io)
  {
    hide ReadElement;
    var n := ReadElement(s).used;
    if k < n { ElementCut(s, k); }
    else {
      Cut(s, n, k);
      ElementLocal(s, s[..k]);
      ElementsCut(s[n..], count - 1, k - n);
    }
  }

  /** A stream that ends anywhere inside a reply is an I/O failure, never a reply and never a malformed
      one. */
  lemma CutShortIsIo(s: Bytes, k: nat)
    requires Clean(Decode(s)) && k < Decode(s).used
    ensures Decode(s[..k]) == Dirty(Io)
  {
    hide ReadLine, ReadBulk, ReadElements, Length;
    var n := ReadLine(s).used;
    if k < n { LineCut(s, k); }
    else {
      Cut(s, n, k);
      LineLocal(s, s[..k]);
      var line := ReadLine(s).text;
      if line[0] == DOLLAR { BulkCut(s[n..], line, k - n); }
      else { ElementsCut(s[n..], Length(line[1..]).value, k - n); }
    }
  }

  // ---------------------------------------------------------------- what is refused

  /** A line that opens with none of the five marks is a reply this client does not decode. */
  lemma OtherMarksAreRefused(x: Byte, text: Bytes, tail: Bytes)
    requires x != LF && LineText(text) && [x] != Ascii("+") && [x] != Ascii(":") && [x] != Ascii("-") && [x] != Ascii("$") && [x] != Ascii("*")
    ensures Decode([x] + text + Ascii("\r\n") + tail) == Dirty(Unsupported)
  {
    hide ReadLine, Ascii;
    Marks();
    TextLine(x, text, tail);
  }

  /** So is an array that holds an error, an array or any other mark after elements that fit. */
  lemma OtherElementsAreRefused(es: seq<Item>, count: nat, x: Byte, text: Bytes, tail: Bytes)
    requires |es| < count <= 1024 * 1024 && (forall i :: 0 <= i < |es| ==> ItemFits(es[i]))
    requires x != LF && LineText(text) && [x] != Ascii("+") && [x] != Ascii(":") && [x] != Ascii("$")
    ensures Decode(Ascii("*") + Digits(count) + Ascii("\r\n") + SentItems(es) + ([x] + text + Ascii("\r\n")) + tail) == Dirty(Unsupported)
  {
    hide Decode, ReadElements, Digits, Ascii, Header;
    Marks();
    var bad := [x] + text + CRLF + tail;
    var items := SentItems(es);
    assert items + ([x] + text + Ascii("\r\n")) + tail == items + bad;
    BadElementEnds(es, count, x, text, tail);
    ManyHead(count, items + bad);
    Regroup(STAR, count, items, bad);
    assert [STAR] + Digits(count) + CRLF + items + ([x] + text + CRLF) + tail == [STAR] + Digits(count) + CRLF + items + bad;
  }

  lemma {:induction false} BadElementEnds(es: seq<Item>, count: nat, x: Byte, text: Bytes, tail: Bytes)
    requires |es| < count && (forall i :: 0 <= i < |es| ==> ItemFits(es[i]))
    requires x != LF && LineText(text) && x != PLUS && x != COLON && x != DOLLAR
    ensures ReadElements(SentItems(es) + ([x] + text + CRLF + tail), count) == Dirty(Unsupported)
  {
    hide ReadElement, SentItem, ItemFits, ItemValue;
    var bad := [x] + text + CRLF + tail;
    if es == [] {
      OtherElement(x, text, tail);
      assert SentItems(es) + bad == bad;
    } else {
      var more := SentItems(es[1..]) + bad;
      assert SentItems(es) + bad == SentItem(es[0]) + more;
      ItemDecodes(es[0], more);
      assert (SentItem(es[0]) + more)[|SentItem(es[0])|..] == more;
      BadElementEnds(es[1..], count - 1, x, text, tail);
    }
  }

  lemma OtherElement(x: Byte, text: Bytes, tail: Bytes)
    requires x != LF && LineText(text) && x != PLUS && x != COLON && x != DOLLAR
    ensures ReadElement([x] + text + CRLF + tail) == BadElement(Unsupported)
  {
    hide ReadLine, ReadBulk;
    TextLine(x, text, tail);
  }

  /** A header whose number is no numeral, is negative for an array, or is over the cap is malformed. */
  lemma BadHeadersAreRefused(text: Bytes, tail: Bytes)
    requires LineText(text)
    ensures Length(text).None? || Length(text).value > 64 * 1024 * 1024 ==> Decode(Ascii("$") + text + Ascii("\r\n") + tail) == Dirty(Issue)
    ensures Length(text).None? || Length(text).value > 1024 * 1024 || Length(text).value < 0 ==>
              Decode(Ascii("*") + text + Ascii("\r\n") + tail) == Dirty(Issue)
    ensures Length(text).Some? && Length(text).value < 0 ==> Decode(Ascii("$") + text + Ascii("\r\n") + tail) == Values([None], |text| + 3)
  {
    hide ReadLine, ReadElements, Length, Ascii;
    Marks();
    TextLine(DOLLAR, text, tail);
    TextLine(STAR, text, tail);
    assert ([DOLLAR] + text)[1..] == text && ([STAR] + text)[1..] == text;
  }

  /** So is an empty line, a newline without a carriage return, a first line that does not end within 4096
      bytes, and a bulk string that its CRLF does not follow. */
  lemma BadFramesAreRefused(text: Bytes, data: Bytes, tail: Bytes)
    ensures Decode(Ascii("\r\n") + tail) == Dirty(Issue)
    ensures LineText(text) && (text == [] || text[|text| - 1] != CR) ==> Decode(text + Ascii("\n") + tail) == Dirty(Issue)
    ensures |text| >= 4096 && LF !in text[..4096] ==> Decode(text) == Dirty(Issue)
    ensures |data| <= 64 * 1024 * 1024 && |tail| >= 2 && tail[..2] != CRLF ==>
              Decode(Ascii("$") + Digits(|data|) + Ascii("\r\n") + data + tail) == Dirty(Issue)
  {
    hide Digits, Length;
    Marks();
    assert Ascii("\n") == [LF];
    WholeLine([], tail);
    assert [] + CRLF + tail == CRLF + tail;
    if LineText(text) && (text == [] || text[|text| - 1] != CR) { BareNewline(text, tail); }
    if |text| >= 4096 && LF !in text[..4096] { LongLine(text); }
    if |data| <= 64 * 1024 * 1024 && |tail| >= 2 && tail[..2] != CRLF { BadTrailer(data, tail); }
  }

  lemma BareNewline(text: Bytes, tail: Bytes)
    requires LineText(text) && (text == [] || text[|text| - 1] != CR)
    ensures Decode(text + [LF] + tail) == Dirty(Issue)
  {
    var s := text + [LF] + tail;
    var window := if |s| <= LINE_MAX then s else s[..LINE_MAX];
    assert window[|text|] == LF && forall j :: 0 <= j < |text| ==> window[j] == text[j];
    assert NewlineAt(window) == Some(|text|);
  }

  lemma LongLine(text: Bytes)
    requires |text| >= 4096 && LF !in text[..4096]
    ensures Decode(text) == Dirty(Issue)
  {
    var window := if |text| <= LINE_MAX then text else text[..LINE_MAX];
    assert window == text[..4096];
  }

  lemma BulkTrailer(s: Bytes, head: Bytes, n: nat)
    requires head != [] && head[0] == DOLLAR && Length(head[1..]) == Some(n) && n <= MAX_BULK
    requires |s| >= n + 2 && !(s[n] == CR && s[n + 1] == LF)
    ensures ReadBulk(s, head) == BadBulk(Issue)
  {
    hide Length;
  }

  lemma BadTrailer(data: Bytes, tail: Bytes)
    requires |data| <= 64 * 1024 * 1024 && |tail| >= 2 && tail[..2] != CRLF
    ensures Decode([DOLLAR] + Digits(|data|) + CRLF + data + tail) == Dirty(Issue)
  {
    hide Decode, ReadBulk, Digits, Length, Header;
    LengthOfDigits(|data|);
    var after, head := data + tail, [DOLLAR] + Digits(|data|);
    assert head[1..] == Digits(|data|);
    assert after[|data|] == tail[0] && after[|data| + 1] == tail[1];
    assert tail[..2] == [tail[0], tail[1]];
    BulkTrailer(after, head, |data|);
    BulkHead(|data|, after);
    Regroup(DOLLAR, |data|, data, tail);
  }

  lemma Regroup(x: Byte, n: nat, a: Bytes, b: Bytes)
    ensures [x] + Digits(n) + CRLF + a + b == Header(x, n) + (a + b)
  {
    hide Digits;
  }
}
