/** The reader and writer of simpleredis/resp.go, loop by loop, against the codec's functions. */
module RespReader {
  import opened Basics
  import opened RespCodec

  lemma {:induction false} DecimalGrows(d: Bytes, k: nat)
    requires Digital(d) && k <= |d|
    ensures Digital(d[..k]) && Decimal(d[..k]) <= Decimal(d)
  {
    if k == |d| { assert d[..k] == d; } else {
      DecimalGrows(d[..|d| - 1], k);
      assert d[..|d| - 1][..k] == d[..k];
    }
  }

  /** parseLen. No intermediate value exceeds the largest machine integer. */
  method ParseLen(digits: Bytes) returns (length: int, ok: bool)
    ensures ok <==> Length(digits).Some?
    ensures ok ==> length == Length(digits).value
    ensures !ok ==> length == 0
  {
    if |digits| == 0 { return 0, false; }
    var i := 0;
    var negative := false;
    if digits[0] == MINUS {
      negative := true;
      i := i + 1;
      if i == |digits| { return 0, false; }
    }
    ghost var m, skip := Magnitude(digits), i;
    length := 0;
    while i < |digits|
      invariant skip <= i <= |digits| && |m| == |digits| - skip && m == digits[skip..]
      invariant Digital(m[..i - skip]) && length == Decimal(m[..i - skip])
      invariant 0 <= length <= MAX_INT
    {
      var digitByte := digits[i];
      ghost var k := i - skip;
      assert m[k] == digitByte && m[..k + 1][..k] == m[..k];
      if digitByte < 48 || digitByte > 57 {
        assert !IsDigit(m[k]);
        return 0, false;
      }
      var digit := digitByte - 48;
      if length > (MAX_INT - digit) / 10 {
        if Digital(m) { DecimalGrows(m, k + 1); }
        return 0, false;
      }
      length := length * 10 + digit;
      i := i + 1;
    }
    assert m[..|m|] == m;
    if negative { length := -length; }
    ok := true;
  }

  class Writer {
    var out: Bytes

    /** writeCommand, up to the flush. */
    method WriteCommand(args: seq<Bytes>)
      modifies this
      ensures out == old(out) + Encode(args)
    {
      hide Digits;
      out := out + [STAR];
      out := out + Digits(|args|);
      out := out + CRLF;
      ghost var head := out;
      assert head == old(out) + ([STAR] + Digits(|args|) + CRLF);
      var i := 0;
      while i < |args|
        invariant 0 <= i <= |args| && out == head + EncodeBulks(args[..i])
      {
        ghost var before := out;
        out := out + [DOLLAR];
        out := out + Digits(|args[i]|);
        out := out + CRLF;
        out := out + args[i];
        out := out + CRLF;
        assert out == before + EncodeBulk(args[i]);
        OneMoreBulk(args, i);
        i := i + 1;
      }
      assert args[..i] == args;
    }
  }

  lemma {:induction false} BulksAppend(xs: seq<Bytes>, y: Bytes)
    ensures EncodeBulks(xs + [y]) == EncodeBulks(xs) + EncodeBulk(y)
  {
    hide EncodeBulk;
    if xs == [] {
      assert xs + [y] == [y] && [y][1..] == [];
    } else {
      assert (xs + [y])[1..] == xs[1..] + [y];
      BulksAppend(xs[1..], y);
    }
  }

  lemma OneMoreBulk(args: seq<Bytes>, i: nat)
    requires i < |args|
    ensures EncodeBulks(args[..i + 1]) == EncodeBulks(args[..i]) + EncodeBulk(args[i])
  {
    assert args[..i + 1] == args[..i] + [args[i]];
    BulksAppend(args[..i], args[i]);
  }

  // ---------------------------------------------------------------- the reader

  /** What readReply returns: values, whether the stream is still usable, and an error. */
  datatype Error = Protocol(fault: Fault) | Peer(failure: Failure)

  /** Where a scan for the newline stops decides the line. */
  lemma ScanEnds(s: Bytes, i: nat)
    requires i <= |s| && i <= LINE_MAX && LF !in s[..i] && (i == |s| || i == LINE_MAX || s[i] == LF)
    ensures ReadLine(s) == if i == LINE_MAX then BadLine(Issue) else if i == |s| then BadLine(Io)
                           else if i == 0 || s[i - 1] != CR then BadLine(Issue) else Line(s[..i - 1], i + 1)
  {
    var window := if |s| <= LINE_MAX then s else s[..LINE_MAX];
    assert forall j :: 0 <= j < i ==> window[j] == s[..i][j];
    if i == LINE_MAX || i == |s| { assert window == s[..i]; } else { assert window[i] == LF; }
  }

  /** A buffered reader over everything the peer will send. */
  class Reader {
    const stream: Bytes
    var pos: nat

    ghost predicate Valid()
      reads this
    {
      pos <= |stream|
    }

    ghost function Rest(): Bytes
      reads this
      requires Valid()
    {
      stream[pos..]
    }

    /** readLine: the scan for the newline stops when the buffer is full. */
    method NextLine() returns (line: Bytes, fault: Option<Fault>)
      requires Valid()
      modifies this
      ensures Valid() && old(pos) <= pos
      ensures match ReadLine(old(Rest()))
              case Line(text, n) => fault.None? && line == text && pos == old(pos) + n
              case BadLine(f) => fault == Some(f)
    {
      hide ReadLine;
      ghost var s := Rest();
      var start, at := pos, pos;
      while at < |stream| && at - start < LINE_MAX && stream[at] != LF
        invariant start <= at <= |stream| && at - start <= LINE_MAX && pos == start
        invariant LF !in stream[start..at]
      {
        assert stream[start..at + 1] == stream[start..at] + [stream[at]];
        at := at + 1;
      }
      assert s[..at - start] == stream[start..at];
      ScanEnds(s, at - start);
      if at - start == LINE_MAX { return [], Some(Issue); }
      if at == |stream| { return [], Some(Io); }
      if at == start || stream[at - 1] != CR { return [], Some(Issue); }
      pos := at + 1;
      line, fault := stream[start..at - 1], None;
      assert s[..at - start - 1] == line;
    }

    /** readBulk, after its header line. */
    method NextBulk(head: Bytes) returns (data: Value, fault: Option<Fault>)
      requires Valid()
      modifies this
      ensures Valid() && old(pos) <= pos
      ensures match ReadBulk(old(Rest()), head)
              case Miss => fault.None? && data == None && pos == old(pos)
              case Data(d, n) => fault.None? && data == Some(d) && pos == old(pos) + n
              case BadBulk(f) => fault == Some(f)
    {
      if |head| == 0 || head[0] != DOLLAR { return None, Some(Issue); }
      var length, ok := ParseLen(head[1..]);
      if !ok { return None, Some(Issue); }
      if length < 0 { return None, None; }
      if length > MAX_BULK { return None, Some(Issue); }
      if |stream| - pos < length + 2 { return None, Some(Io); }
      ghost var s := Rest();
      data := Some(stream[pos..pos + length]);
      assert s[..length] == stream[pos..pos + length];
      if stream[pos + length] != CR || stream[pos + length + 1] != LF { return None, Some(Issue); }
      pos := pos + length + 2;
      fault := None;
    }

    /** One element of an array reply. */
    method NextElement() returns (value: Value, fault: Option<Fault>)
      requires Valid()
      modifies this
      ensures Valid() && old(pos) <= pos
      ensures match ReadElement(old(Rest()))
              case Element(v, n) => fault.None? && value == v && pos == old(pos) + n
              case BadElement(f) => fault == Some(f)
    {
      hide ReadLine, ReadBulk;
      ghost var s := Rest();
      var head, bad := NextLine();
      if bad.Some? { return None, bad; }
      if |head| == 0 { return None, Some(Issue); }
      assert Rest() == s[pos - old(pos)..];
      if head[0] == DOLLAR { value, fault := NextBulk(head); }
      else if head[0] == COLON || head[0] == PLUS { value, fault := Copied(head[1..]), None; }
      else { value, fault := None, Some(Unsupported); }
    }

    /** The element loop of an array reply. */
    method NextArray(count: nat) returns (values: seq<Value>, fault: Option<Fault>)
      requires Valid()
      modifies this
      ensures Valid() && old(pos) <= pos
      ensures match ReadElements(old(Rest()), count)
              case Values(vs, n) => fault.None? && values == vs && pos == old(pos) + n
              case Failed(_, _) => false
              case Dirty(f) => fault == Some(f) && values == []
    {
      hide ReadElement;
      ghost var s, start := Rest(), pos;
      var cells := new Value[count](_ => None);
      var i := 0;
      while i < count
        invariant 0 <= i <= count && Valid() && start <= pos
        invariant ReadElements(s, count) == Joined(cells[..i], pos - start, ReadElements(Rest(), count - i))
      {
        ghost var rest, at := Rest(), pos;
        ghost var done := cells[..i];
        var value, bad := NextElement();
        if bad.Some? { return [], bad; }
        assert Rest() == rest[pos - at..];
        cells[i] := value;
        assert cells[..i + 1] == done + [value];
        JoinedOnce(done, at - start, value, pos - at, ReadElements(Rest(), count - i - 1));
        i := i + 1;
      }
      assert cells[..] == cells[..count];
      return cells[..], None;
    }

    /** readReply */
    method ReadReply() returns (values: seq<Value>, clean: bool, err: Option<Error>)
      requires Valid()
      modifies this
      ensures Valid() && (!clean ==> values == [])
      ensures match Decode(old(Rest()))
              case Values(vs, n) => clean && err.None? && values == vs && pos == old(pos) + n
              case Failed(f, n) => clean && err == Some(Peer(f)) && values == [] && pos == old(pos) + n
              case Dirty(f) => !clean && err == Some(Protocol(f))
    {
      hide ReadLine, ReadBulk, ReadElements, Length;
      ghost var s := Rest();
      var line, bad := NextLine();
      if bad.Some? { return [], false, Some(Protocol(bad.value)); }
      if |line| == 0 { return [], false, Some(Protocol(Issue)); }
      assert Rest() == s[pos - old(pos)..];
      if line[0] == PLUS || line[0] == COLON {
        return [Copied(line[1..])], true, None;
      } else if line[0] == MINUS {
        return [], true, Some(Peer(ReplyError(line[1..])));
      } else if line[0] == DOLLAR {
        var data, fault := NextBulk(line);
        if fault.Some? { return [], false, Some(Protocol(fault.value)); }
        return [data], true, None;
      } else if line[0] == STAR {
        var count, ok := ParseLen(line[1..]);
        if !ok || count < 0 || count > MAX_ARRAY { return [], false, Some(Protocol(Issue)); }
        var elements, fault := NextArray(count);
        if fault.Some? { return [], false, Some(Protocol(fault.value)); }
        return elements, true, None;
      } else {
        return [], false, Some(Protocol(Unsupported));
      }
    }
  }

  function Joined(vs: seq<Value>, n: nat, r: Reply): Reply {
    if r.Values? then Values(vs + r.values, n + r.used) else r
  }

  lemma JoinedOnce(vs: seq<Value>, n: nat, v: Value, m: nat, r: Reply)
    ensures Joined(vs, n, if r.Values? then Values([v] + r.values, m + r.used) else r) == Joined(vs + [v], n + m, r)
  {
    if r.Values? { assert vs + ([v] + r.values) == vs + [v] + r.values; }
  }
}
