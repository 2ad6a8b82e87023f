/** The codec's laws: the decoder inverts the encoder, a clean decode depends only on the bytes it
    consumes, and a concatenation of replies decodes to their decodings. */
module RespTheorems {
  import opened Basics
  import opened RespCodec

  // ---------------------------------------------------------------- a clean decode is local

  /** Both streams begin with the same n bytes. */
  ghost predicate Agree(s: Bytes, t: Bytes, n: nat) { n <= |s| && n <= |t| && s[..n] == t[..n] }

  lemma AgreeAfter(s: Bytes, t: Bytes, n: nat, k: nat)
    requires Agree(s, t, n + k)
    ensures Agree(s, t, n) && Agree(s[n..], t[n..], k)
  {
    assert s[..n] == s[..n + k][..n] && t[..n] == t[..n + k][..n];
    assert s[n..][..k] == s[..n + k][n..] && t[n..][..k] == t[..n + k][n..];
  }

  lemma LineLocal(s: Bytes, t: Bytes)
    requires ReadLine(s).Line? && Agree(s, t, ReadLine(s).used)
    ensures ReadLine(t) == ReadLine(s)
  {
    var n := ReadLine(s).used;
    var window := if |t| <= LINE_MAX then t else t[..LINE_MAX];
    assert forall j :: 0 <= j < n ==> s[j] == s[..n][j] && t[j] == t[..n][j] && window[j] == t[j];
    var i := n - 1;
    assert window[i] == LF;
    assert NewlineAt(window) == Some(i);
    assert t[..i - 1] == t[..n][..i - 1] && s[..i - 1] == s[..n][..i - 1];
  }

  lemma BulkLocal(s: Bytes, t: Bytes, head: Bytes)
    requires ReadBulk(s, head).Miss? || (ReadBulk(s, head).Data? && Agree(s, t, ReadBulk(s, head).used))
    ensures ReadBulk(t, head) == ReadBulk(s, head)
  {
    if ReadBulk(s, head).Data? {
      var n := ReadBulk(s, head).used;
      assert forall j :: 0 <= j < n ==> s[j] == s[..n][j] && t[j] == t[..n][j];
      assert t[..n - 2] == t[..n][..n - 2] && s[..n - 2] == s[..n][..n - 2];
    }
  }

  lemma ElementLocal(s: Bytes, t: Bytes)
    requires ReadElement(s).Element? && Agree(s, t, ReadElement(s).used)
    ensures ReadElement(t) == ReadElement(s)
  {
    hide ReadLine, ReadBulk;
    var n := ReadLine(s).used;
    AgreeAfter(s, t, n, ReadElement(s).used - n);
    LineLocal(s, t);
    var head := ReadLine(s).text;
    if head[0] == DOLLAR { BulkLocal(s[n..], t[n..], head); }
  }

  lemma {:induction false} ElementsLocal(s: Bytes, t: Bytes, count: nat)
    requires ReadElements(s, count).Values? && Agree(s, t, ReadElements(s, count).used)
    ensures ReadElements(t, count) == ReadElements(s, count)
  {
    hide ReadElement;
    if count > 0 {
      var n := ReadElement(s).used;
      AgreeAfter(s, t, n, ReadElements(s, count).used - n);
      ElementLocal(s, t);
      ElementsLocal(s[n..], t[n..], count - 1);
    }
  }

  lemma DecodeLocal(s: Bytes, t: Bytes)
    requires Clean(Decode(s)) && Agree(s, t, Decode(s).used)
    ensures Decode(t) == Decode(s)
  {
    hide ReadLine, ReadBulk, ReadElements;
    var n := ReadLine(s).used;
    AgreeAfter(s, t, n, Decode(s).used - n);
    LineLocal(s, t);
    var line := ReadLine(s).text;
    if line[0] == DOLLAR { BulkLocal(s[n..], t[n..], line); }
    else if line[0] == STAR { ElementsLocal(s[n..], t[n..], Length(line[1..]).value); }
  }

  /** The bytes a clean decode consumed, followed by anything, decode the same and leave the rest alone. */
  lemma CleanDecodeIsLocal(s: Bytes, tail: Bytes)
    requires Clean(Decode(s))
    ensures Decode(s[..Decode(s).used] + tail) == Decode(s)
  {
    var n := Decode(s).used;
    assert (s[..n] + tail)[..n] == s[..n];
    DecodeLocal(s, s[..n] + tail);
  }

  // ---------------------------------------------------------------- concatenation

  ghost function DecodeMany(s: Bytes, k: nat): seq<Reply> {
    if k == 0 then []
    else
      var r := Decode(s);
      if Clean(r) then [r] + DecodeMany(s[r.used..], k - 1) else [r]
  }

  function Concat(parts: seq<Bytes>): Bytes { if parts == [] then [] else parts[0] + Concat(parts[1..]) }

  /** The bytes are one whole clean reply. */
  ghost predicate Whole(part: Bytes) { Clean(Decode(part)) && Decode(part).used == |part| }

  /** Replies sent back to back decode to the list of their decodings, whatever follows them. */
  lemma {:induction false} RepliesDecodeInTurn(parts: seq<Bytes>, tail: Bytes)
    requires forall i :: 0 <= i < |parts| ==> Whole(parts[i])
    ensures DecodeMany(Concat(parts) + tail, |parts|) == seq(|parts|, i requires 0 <= i < |parts| => Decode(parts[i]))
  {
    hide Decode;
    if parts != [] {
      assert Whole(parts[0]);
      var rest := Concat(parts[1..]) + tail;
      assert Concat(parts) + tail == parts[0] + rest;
      assert parts[0][..|parts[0]|] == parts[0];
      CleanDecodeIsLocal(parts[0], rest);
      assert (parts[0] + rest)[|parts[0]|..] == rest;
      RepliesDecodeInTurn(parts[1..], tail);
    }
  }

  // ---------------------------------------------------------------- the decoder inverts the encoder

  function Header(x: Byte, n: nat): Bytes { [x] + Digits(n) + CRLF }

  /** A line that fits the reader's buffer and has its only newline at the end reads back whole. */
  lemma WholeLine(text: Bytes, rest: Bytes)
    requires LF !in text && |text| + 2 <= LINE_MAX
    ensures ReadLine(text + CRLF + rest) == Line(text, |text| + 2)
  {
    var s := text + CRLF + rest;
    var i := |text| + 1;
    var window := if |s| <= LINE_MAX then s else s[..LINE_MAX];
    assert window[i] == LF && window[i - 1] == CR;
    assert forall j :: 0 <= j < |text| ==> window[j] == text[j];
    assert NewlineAt(window) == Some(i);
    assert s[..|text|] == text;
  }

  lemma HeaderLine(x: Byte, n: nat, rest: Bytes)
    requires x != LF && |Digits(n)| + 3 <= LINE_MAX
    ensures ReadLine(Header(x, n) + rest) == Line([x] + Digits(n), |Digits(n)| + 3)
  {
    hide ReadLine, Digits;
    DigitsDigital(n);
    var text := [x] + Digits(n);
    forall j | 0 <= j < |text| ensures text[j] != LF { if j > 0 { assert IsDigit(Digits(n)[j - 1]); } }
    assert Header(x, n) + rest == text + CRLF + rest;
    WholeLine(text, rest);
  }

  lemma SmallHeader(n: nat)
    requires n <= MAX_BULK
    ensures |Digits(n)| <= 8
  {
    assert Pow10(8) == 1_0000_0000;
    DigitsShort(n, 8, Pow10(8));
  }

  lemma BulkData(s: Bytes, head: Bytes, n: nat)
    requires head != [] && head[0] == DOLLAR && Length(head[1..]) == Some(n) && n <= MAX_BULK
    requires |s| >= n + 2 && s[n] == CR && s[n + 1] == LF
    ensures ReadBulk(s, head) == Data(s[..n], n + 2)
  {
    hide Length;
  }

  lemma BulkBack(arg: Bytes, rest: Bytes)
    requires |arg| <= MAX_BULK
    ensures ReadBulk(arg + CRLF + rest, [DOLLAR] + Digits(|arg|)) == Data(arg, |arg| + 2)
  {
    hide Digits, Length, ReadBulk;
    LengthOfDigits(|arg|);
    var head := [DOLLAR] + Digits(|arg|);
    assert head[1..] == Digits(|arg|);
    var s := arg + CRLF + rest;
    assert s[..|arg|] == arg;
    BulkData(s, head, |arg|);
  }

  lemma ElementBack(arg: Bytes, rest: Bytes)
    requires |arg| <= MAX_BULK
    ensures ReadElement(EncodeBulk(arg) + rest) == Element(Some(arg), |EncodeBulk(arg)|)
  {
    hide ReadLine, ReadBulk;
    SmallHeader(|arg|);
    var after := arg + CRLF + rest;
    var s := EncodeBulk(arg) + rest;
    assert s == Header(DOLLAR, |arg|) + after;
    HeaderLine(DOLLAR, |arg|, after);
    assert s[|Digits(|arg|)| + 3..] == after;
    BulkBack(arg, rest);
  }

  lemma {:induction false} ElementsBack(args: seq<Bytes>, rest: Bytes)
    requires forall i :: 0 <= i < |args| ==> |args[i]| <= MAX_BULK
    ensures ReadElements(EncodeBulks(args) + rest, |args|) == Values(AsValues(args), |EncodeBulks(args)|)
  {
    hide ReadElement, EncodeBulk;
    if args != [] {
      var more := EncodeBulks(args[1..]) + rest;
      var s := EncodeBulks(args) + rest;
      assert s == EncodeBulk(args[0]) + more;
      ElementBack(args[0], more);
      assert s[|EncodeBulk(args[0])|..] == more;
      ElementsBack(args[1..], rest);
      assert AsValues(args) == [Some(args[0])] + AsValues(args[1..]);
    }
  }

  /** Decoding an encoded command gives back its arguments, clean, with every byte of it consumed and
      nothing after it touched, whatever bytes the arguments hold. */
  lemma RoundTrip(args: seq<Bytes>, tail: Bytes)
    requires InCaps(args)
    ensures Decode(Encode(args) + tail) == Values(AsValues(args), |Encode(args)|)
  {
    hide ReadLine, ReadElements, Digits, Length;
    SmallHeader(|args|);
    LengthOfDigits(|args|);
    var after := EncodeBulks(args) + tail;
    var s := Encode(args) + tail;
    assert s == Header(STAR, |args|) + after;
    HeaderLine(STAR, |args|, after);
    assert ([STAR] + Digits(|args|))[1..] == Digits(|args|);
    assert s[|Digits(|args|)| + 3..] == after;
    ElementsBack(args, tail);
  }

  // ---------------------------------------------------------------- beyond the caps

  lemma LongHeader(x: Byte, n: nat, rest: Bytes)
    requires x != LF && |Digits(n)| + 3 > LINE_MAX
    ensures ReadLine(Header(x, n) + rest).BadLine?
  {
    hide Digits;
    DigitsDigital(n);
    var s := Header(x, n) + rest;
    forall j | 0 <= j < LINE_MAX ensures s[j] != LF { if 1 <= j <= |Digits(n)| { assert s[j] == Digits(n)[j - 1] && IsDigit(Digits(n)[j - 1]); } }
    assert forall j :: 0 <= j < LINE_MAX ==> s[..LINE_MAX][j] == s[j];
  }

  /** An over-cap number is refused as a length field. */
  lemma LengthOver(n: nat)
    ensures Length(Digits(n)).None? || Length(Digits(n)) == Some(n)
  {
    DigitsDigital(n);
    assert IsDigit(Digits(n)[0]);
  }

  lemma ElementOver(arg: Bytes, rest: Bytes)
    requires |arg| > MAX_BULK
    ensures ReadElement(EncodeBulk(arg) + rest).BadElement?
  {
    hide ReadLine, Digits, Length;
    var after := arg + CRLF + rest;
    assert EncodeBulk(arg) + rest == Header(DOLLAR, |arg|) + after;
    if |Digits(|arg|)| + 3 > LINE_MAX {
      LongHeader(DOLLAR, |arg|, after);
    } else {
      HeaderLine(DOLLAR, |arg|, after);
      LengthOver(|arg|);
      assert ([DOLLAR] + Digits(|arg|))[1..] == Digits(|arg|);
    }
  }

  lemma {:induction false} ElementsOver(args: seq<Bytes>, i: nat, rest: Bytes)
    requires i < |args| && |args[i]| > MAX_BULK
    ensures ReadElements(EncodeBulks(args) + rest, |args|).Dirty?
  {
    hide ReadElement, EncodeBulk;
    var more := EncodeBulks(args[1..]) + rest;
    assert EncodeBulks(args) + rest == EncodeBulk(args[0]) + more;
    if |args[0]| > MAX_BULK {
      ElementOver(args[0], more);
    } else {
      ElementBack(args[0], more);
      assert (EncodeBulk(args[0]) + more)[|EncodeBulk(args[0])|..] == more;
      ElementsOver(args[1..], i - 1, rest);
    }
  }

  lemma ArrayOver(args: seq<Bytes>, tail: Bytes)
    requires |args| > MAX_ARRAY
    ensures Decode(Encode(args) + tail).Dirty?
  {
    hide ReadLine, Digits, Length, ReadElements;
    var after := EncodeBulks(args) + tail;
    assert Encode(args) + tail == Header(STAR, |args|) + after;
    if |Digits(|args|)| + 3 > LINE_MAX {
      LongHeader(STAR, |args|, after);
    } else {
      HeaderLine(STAR, |args|, after);
      LengthOver(|args|);
      assert ([STAR] + Digits(|args|))[1..] == Digits(|args|);
    }
  }

  /** The caps are exact: the round trip holds for precisely the commands within them, and every other
      encoded command is refused as a dirty stream. */
  lemma RoundTripExactly(args: seq<Bytes>, tail: Bytes)
    ensures Decode(Encode(args) + tail) == Values(AsValues(args), |Encode(args)|) <==> InCaps(args)
    ensures Decode(Encode(args) + tail).Dirty? <==> !InCaps(args)
    ensures InCaps(args) <==> |args| <= 1024 * 1024 && forall i :: 0 <= i < |args| ==> |args[i]| <= 64 * 1024 * 1024
  {
    hide Decode, Encode;
    if InCaps(args) { RoundTrip(args, tail); }
    else if |args| > MAX_ARRAY { ArrayOver(args, tail); }
    else {
      var i :| 0 <= i < |args| && |args[i]| > MAX_BULK;
      BulkOver(args, i, tail);
    }
  }

  lemma BulkOver(args: seq<Bytes>, i: nat, tail: Bytes)
    requires |args| <= MAX_ARRAY && i < |args| && |args[i]| > MAX_BULK
    ensures Decode(Encode(args) + tail).Dirty?
  {
    hide ReadLine, ReadElements, Digits, Length;
    SmallHeader(|args|);
    LengthOfDigits(|args|);
    var after := EncodeBulks(args) + tail;
    var s := Encode(args) + tail;
    assert s == Header(STAR, |args|) + after;
    HeaderLine(STAR, |args|, after);
    assert ([STAR] + Digits(|args|))[1..] == Digits(|args|);
    assert s[|Digits(|args|)| + 3..] == after;
    ElementsOver(args, i, tail);
  }

  /** An empty simple string decodes to nil, which is also what a null bulk string decodes to; a
      non-empty one decodes to its text. */
  lemma EmptySimpleIsNil(text: Bytes, tail: Bytes)
    requires LF !in text && |text| + 3 <= LINE_MAX
    ensures Decode([PLUS] + text + CRLF + tail) == Values([if text == [] then None else Some(text)], |text| + 3)
    ensures Decode([DOLLAR, MINUS, 49] + CRLF + tail) == Values([None], 5)
  {
    hide ReadLine;
    var line := [PLUS] + text;
    WholeLine(line, tail);
    assert line[1..] == text;
    var miss := [DOLLAR, MINUS, 49];
    WholeLine(miss, tail);
    assert miss[1..] == [MINUS, 49] && Magnitude(miss[1..]) == [49];
    assert Digital([49]) && [49][..0] == [];
    assert Decimal([49]) == 1;
  }
}
