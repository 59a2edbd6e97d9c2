/**
 `fixed_buffer` (src/base/log_stream.h), the digit loops of `convert` and `convert_hex`, and
 the insertion operators of `log_stream` (src/base/log_stream.cpp) over one such buffer.
 */
module LogStream {
  import opened Prelude
  import opened Numerals

  const SMALL_BUFFER: nat := 4000
  const LARGE_BUFFER: nat := 4000 * 1000
  const MAX_NUMERIC_SIZE: nat := 48

  // ----- what insertions do to the contents -----

  /** `fixed_buffer::append`: all of `s` if it leaves room to spare, or nothing. */
  function AppendText(contents: string, size: nat, s: string): string {
    if size - |contents| > |s| then contents + s else contents
  }

  datatype Item = Integer(v: int) | Pointer(p: nat) | Text(s: string)

  function TextOf(item: Item): string {
    match item
    case Integer(v) => Decimal(v)
    case Pointer(p) => PointerText(p)
    case Text(s) => s
  }

  /** A 64-bit integer of either sign, a 64-bit pointer, any text. */
  predicate InWidth(item: Item) {
    match item
    case Integer(v) => INT64_MIN <= v <= UINT64_MAX
    case Pointer(p) => p <= UINT64_MAX
    case Text(_) => true
  }

  /** Text needs more free characters than it has; a number asks for 48, however long it is. */
  predicate Accepted(contents: string, size: nat, item: Item) {
    if item.Text? then size - |contents| > |item.s| else size - |contents| >= MAX_NUMERIC_SIZE
  }

  function Insert(contents: string, size: nat, item: Item): string {
    if Accepted(contents, size, item) then contents + TextOf(item) else contents
  }

  function InsertAll(contents: string, size: nat, items: seq<Item>): string
    decreases |items|
  {
    if items == [] then contents else InsertAll(Insert(contents, size, items[0]), size, items[1..])
  }

  /** Every item is written whole or not at all, in order: `kept[i]` says which. */
  function Joined(items: seq<Item>, kept: seq<bool>): string
    requires |items| == |kept|
  {
    if items == [] then "" else (if kept[0] then TextOf(items[0]) else "") + Joined(items[1..], kept[1..])
  }

  lemma NumbersFit(item: Item)
    requires InWidth(item) && !item.Text?
    ensures |TextOf(item)| + 1 <= 21
  {
    match item
    case Integer(v) => DecimalLength(v);
    case Pointer(p) => PointerLength(p);
    case Text(_) =>
  }

  lemma OneInsertionStaysInside(contents: string, size: nat, item: Item)
    requires |contents| < size && InWidth(item)
    ensures |Insert(contents, size, item)| < size
    ensures !Accepted(contents, size, item) ==> size - |contents| < Max(MAX_NUMERIC_SIZE, |TextOf(item)| + 1)
  {
    if !item.Text? { NumbersFit(item); }
  }

  /** No sequence of insertions moves the cursor to the end of the buffer, let alone past it. */
  lemma {:induction false} InsertionsStayInside(contents: string, size: nat, items: seq<Item>) returns (kept: seq<bool>)
    requires |contents| < size && forall i :: 0 <= i < |items| ==> InWidth(items[i])
    ensures |InsertAll(contents, size, items)| < size
    ensures |kept| == |items| && InsertAll(contents, size, items) == contents + Joined(items, kept)
    ensures forall i :: 0 <= i < |items| ==> (kept[i] <==> HasRoom(contents, size, items, i))
    decreases |items|
  {
    hide Accepted, TextOf, InWidth;
    if items == [] {
      kept := [];
    } else {
      var c := Insert(contents, size, items[0]);
      OneInsertionStaysInside(contents, size, items[0]);
      var rest := InsertionsStayInside(c, size, items[1..]);
      kept := [Accepted(contents, size, items[0])] + rest;
      assert kept[1..] == rest;
      forall i | 0 <= i < |items| ensures kept[i] <==> HasRoom(contents, size, items, i) {
        if i == 0 {
          FirstHasRoom(contents, size, items);
        } else {
          assert rest[i - 1] <==> HasRoom(c, size, items[1..], i - 1);
          assert items[..i][1..] == items[1..][..i - 1];
        }
      }
    }
  }

  lemma FirstHasRoom(contents: string, size: nat, items: seq<Item>)
    requires items != []
    ensures HasRoom(contents, size, items, 0) <==> Accepted(contents, size, items[0])
  {
    assert items[..0] == [];
  }

  /** When item `i` comes, more characters are free than the text has, or the 48 that a number asks for. */
  predicate HasRoom(contents: string, size: nat, items: seq<Item>, i: nat)
    requires i < |items|
  {
    var avail := size - |InsertAll(contents, size, items[..i])|;
    if items[i].Text? then avail > |items[i].s| else avail >= 48
  }

  // ----- writing digits -----

  /** `std::reverse` on a range of the array. */
  method ReverseRange(buf: array<char>, lo: nat, hi: nat)
    requires lo <= hi <= buf.Length
    modifies buf
    ensures buf[lo..hi] == Rev(old(buf[lo..hi]))
    ensures forall k :: 0 <= k < buf.Length && !(lo <= k < hi) ==> buf[k] == old(buf[k])
  {
    ghost var was := buf[lo..hi];
    var first, last := lo, hi;
    while first < last
      invariant lo <= first <= hi && lo <= last <= hi && first - lo == hi - last && first <= last + 1
      invariant forall k :: lo <= k < first ==> buf[k] == was[hi - 1 - k]
      invariant forall k :: last <= k < hi ==> buf[k] == was[hi - 1 - k]
      invariant forall k :: first <= k < last ==> buf[k] == was[k - lo]
      invariant forall k :: 0 <= k < buf.Length && !(lo <= k < hi) ==> buf[k] == old(buf[k])
    {
      last := last - 1;
      buf[first], buf[last] := buf[last], buf[first];
      first := first + 1;
    }
    RevLength(was);
    forall k | 0 <= k < |was| ensures Rev(was)[k] == buf[lo..hi][k] { RevIndex(was, k); }
  }

  /** The digit that `zero[lsd]` picks for a remainder of either sign. */
  lemma ZeroIndexes(i: int)
    ensures var lsd := CMod(i, 10); -9 <= lsd <= 9 && DIGITS[ZERO + lsd] == DIGITS_HEX[Abs(i) % 10]
    ensures Abs(CDiv(i, 10)) == Abs(i) / 10
  {
  }

  /** One more digit of the number, the least significant first. */
  lemma DigitTaken(base: Base, n: nat, written: string)
    ensures Digits(base, n) + Rev(written) ==
            (if n / base == 0 then "" else Digits(base, n / base)) + Rev(written + [DIGITS_HEX[n % base]])
  {
    RevShift(if n / base == 0 then "" else Digits(base, n / base), DIGITS_HEX[n % base], written);
  }

  lemma RevShift(q: string, c: char, written: string)
    ensures q + [c] + Rev(written) == q + Rev(written + [c])
  {
    RevSnoc(written, c);
    assert q + [c] + Rev(written) == q + ([c] + Rev(written));
  }

  predicate Fits(buf: array<char>, at: nat, text: string) { at + |text| < buf.Length }

  /** The digit loop of `convert`: the remainders of a negative number are negative. */
  method WriteDigits(buf: array<char>, at: nat, value: int) returns (p: nat)
    requires Fits(buf, at, Digits(10, Abs(value)))
    modifies buf
    ensures p == at + |Digits(10, Abs(value))|
    ensures Rev(buf[at..p]) == Digits(10, Abs(value))
    ensures forall k :: 0 <= k < buf.Length && !(at <= k < p) ==> buf[k] == old(buf[k])
  {
    hide CMod, CDiv;
    ghost var digits := Digits(10, Abs(value));
    var i := value;
    p := at;
    var more := true;
    while more
      invariant at <= p <= at + |digits|
      invariant digits == (if more then Digits(10, Abs(i)) else "") + Rev(buf[at..p])
      invariant forall k :: 0 <= k < buf.Length && !(at <= k < p) ==> buf[k] == old(buf[k])
      decreases more, Abs(i)
    {
      ghost var written := buf[at..p];
      RevLength(written);
      ZeroIndexes(i);
      DigitTaken(10, Abs(i), written);
      hide Digits;
      var lsd := CMod(i, 10);
      buf[p] := DIGITS[ZERO + lsd];
      assert buf[at..p + 1] == written + [DIGITS_HEX[Abs(i) % 10]];
      i := CDiv(i, 10);
      p := p + 1;
      RevLength(buf[at..p]);
      more := i != 0;
    }
    RevLength(buf[at..p]);
  }

  /** The end of both conversions: the terminator, and the reversal. */
  method EndText(buf: array<char>, at: nat, p: nat)
    requires at <= p < buf.Length
    modifies buf
    ensures buf[at..p] == Rev(old(buf[at..p])) && buf[p] == '\0'
    ensures forall k :: 0 <= k < buf.Length && !(at <= k <= p) ==> buf[k] == old(buf[k])
  {
    hide Rev;
    ghost var was := buf[at..p];
    buf[p] := '\0';
    assert buf[at..p] == was;
    ReverseRange(buf, at, p);
  }

  method Convert(buf: array<char>, at: nat, value: int) returns (len: nat)
    requires Fits(buf, at, Decimal(value))
    modifies buf
    ensures len == |Decimal(value)| && buf[at..at + len] == Decimal(value) && buf[at + len] == '\0'
    ensures forall k :: 0 <= k < buf.Length && !(at <= k <= at + len) ==> buf[k] == old(buf[k])
  {
    hide Rev, Digits;
    var p := WriteDigits(buf, at, value);
    ghost var body := buf[at..p];
    if value < 0 {
      buf[p] := '-';
      p := p + 1;
      assert buf[at..p] == body + ['-'];
      RevSnoc(body, '-');
    }
    EndText(buf, at, p);
    len := p - at;
  }

  method WriteHexDigits(buf: array<char>, at: nat, value: nat) returns (p: nat)
    requires Fits(buf, at, Digits(16, value))
    modifies buf
    ensures p == at + |Digits(16, value)|
    ensures Rev(buf[at..p]) == Digits(16, value)
    ensures forall k :: 0 <= k < buf.Length && !(at <= k < p) ==> buf[k] == old(buf[k])
  {
    ghost var digits := Digits(16, value);
    var i := value;
    p := at;
    var more := true;
    while more
      invariant at <= p <= at + |digits|
      invariant digits == (if more then Digits(16, i) else "") + Rev(buf[at..p])
      invariant forall k :: 0 <= k < buf.Length && !(at <= k < p) ==> buf[k] == old(buf[k])
      decreases more, i
    {
      ghost var written := buf[at..p];
      RevLength(written);
      DigitTaken(16, i, written);
      hide Digits;
      var lsd := i % 16;
      buf[p] := DIGITS_HEX[lsd];
      assert buf[at..p + 1] == written + [DIGITS_HEX[lsd]];
      i := i / 16;
      p := p + 1;
      RevLength(buf[at..p]);
      more := i != 0;
    }
    RevLength(buf[at..p]);
  }

  method ConvertHex(buf: array<char>, at: nat, value: nat) returns (len: nat)
    requires Fits(buf, at, Digits(16, value))
    modifies buf
    ensures len == |Digits(16, value)| && buf[at..at + len] == Digits(16, value) && buf[at + len] == '\0'
    ensures forall k :: 0 <= k < buf.Length && !(at <= k <= at + len) ==> buf[k] == old(buf[k])
  {
    hide Rev, Digits;
    var p := WriteHexDigits(buf, at, value);
    EndText(buf, at, p);
    len := p - at;
  }

  // ----- fixed_buffer -----

  class FixedBuffer {
    const data: array<char>
    var cur: nat

    ghost predicate Valid()
      reads this
    {
      cur <= data.Length
    }

    ghost function Contents(): string
      requires Valid()
      reads this, data
    {
      data[..cur]
    }

    constructor (size: nat)
      ensures Valid() && fresh(data) && data.Length == size && Contents() == ""
    {
      data := new char[size](_ => '\0');
      cur := 0;
    }

    method Avail() returns (n: nat)
      requires Valid()
      ensures n == data.Length - |Contents()|
    {
      n := data.Length - cur;
    }

    method Append(buf: string)
      requires Valid()
      modifies this`cur, data
      ensures Valid() && Contents() == AppendText(old(Contents()), data.Length, buf)
    {
      var avail := Avail();
      if avail > |buf| {
        ghost var was := data[..cur];
        forall i | 0 <= i < |buf| {
          data[cur + i] := buf[i];
        }
        cur := cur + |buf|;
        assert data[..cur] == was + buf;
      }
    }

    /** `add`: the caller has written `len` characters at the cursor. */
    method Add(len: nat)
      requires Valid() && cur + len <= data.Length
      modifies this`cur
      ensures Valid() && Contents() == old(Contents()) + old(data[cur..cur + len])
    {
      cur := cur + len;
    }

    method Reset()
      requires Valid()
      modifies this`cur
      ensures Valid() && Contents() == ""
    {
      cur := 0;
    }
  }

  // ----- log_stream -----

  class Stream {
    const buffer: FixedBuffer

    ghost predicate Valid()
      reads this, buffer
    {
      buffer.Valid() && buffer.data.Length == SMALL_BUFFER
    }

    ghost function Contents(): string
      requires Valid()
      reads this, buffer, buffer.data
    {
      buffer.Contents()
    }

    constructor ()
      ensures Valid() && fresh(buffer) && fresh(buffer.data) && Contents() == ""
    {
      buffer := new FixedBuffer(SMALL_BUFFER);
    }

    /** `format_integer`, for every integer type no wider than 64 bits. */
    method InsertInteger(v: int)
      requires Valid() && INT64_MIN <= v <= UINT64_MAX
      modifies buffer`cur, buffer.data
      ensures Valid() && Contents() == Insert(old(Contents()), SMALL_BUFFER, Integer(v))
    {
      var avail := buffer.Avail();
      if avail >= MAX_NUMERIC_SIZE {
        NumbersFit(Integer(v));
        ghost var was := buffer.Contents();
        var len := Convert(buffer.data, buffer.cur, v);
        assert buffer.Contents() == was;
        buffer.Add(len);
      }
    }

    method InsertPointer(p: nat)
      requires Valid() && p <= UINT64_MAX
      modifies buffer`cur, buffer.data
      ensures Valid() && Contents() == Insert(old(Contents()), SMALL_BUFFER, Pointer(p))
    {
      var avail := buffer.Avail();
      if avail >= MAX_NUMERIC_SIZE {
        NumbersFit(Pointer(p));
        ghost var was := buffer.Contents();
        var at := buffer.cur;
        buffer.data[at] := '0';
        buffer.data[at + 1] := 'x';
        var len := ConvertHex(buffer.data, at + 2, p);
        assert buffer.data[at..at + len + 2] == "0x" + buffer.data[at + 2..at + 2 + len];
        assert buffer.Contents() == was;
        buffer.Add(len + 2);
      }
    }

    method InsertText(s: string)
      requires Valid()
      modifies buffer`cur, buffer.data
      ensures Valid() && Contents() == Insert(old(Contents()), SMALL_BUFFER, Text(s))
    {
      buffer.Append(s);
    }

    /** Any sequence of insertions: the cursor stays inside the buffer. */
    method InsertItems(items: seq<Item>)
      requires Valid() && |Contents()| < SMALL_BUFFER && forall i :: 0 <= i < |items| ==> InWidth(items[i])
      modifies buffer`cur, buffer.data
      ensures Valid() && Contents() == InsertAll(old(Contents()), SMALL_BUFFER, items)
      ensures |Contents()| < SMALL_BUFFER
    {
      ghost var start := Contents();
      var i := 0;
      while i < |items|
        invariant 0 <= i <= |items| && Valid()
        invariant InsertAll(Contents(), SMALL_BUFFER, items[i..]) == InsertAll(start, SMALL_BUFFER, items)
      {
        assert items[i..][0] == items[i] && items[i..][1..] == items[i + 1..];
        match items[i] {
          case Integer(v) => InsertInteger(v);
          case Pointer(p) => InsertPointer(p);
          case Text(s) => InsertText(s);
        }
        i := i + 1;
      }
      ghost var _ := InsertionsStayInside(start, SMALL_BUFFER, items);
    }
  }
}
