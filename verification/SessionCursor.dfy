/** The strict text form of a session cursor: `v1.<digest>.<index>.<digest>`. Text is a
    sequence of bytes, written as characters. */
module SessionCursor {

  const MAX_SESSION_CURSOR_BYTES: nat := 160
  const USIZE_MAX: nat := 0xffff_ffff_ffff_ffff

  datatype Option<+T> = None | Some(value: T)

  datatype Cursor = Cursor(snapshot: string, index: nat, last: string)

  type byte = x: int | 0 <= x < 0x100

  // ---------------------------------------------------------------------
  // Hexadecimal digests
  // ---------------------------------------------------------------------

  function HexDigit(n: nat): char
    requires n < 16
  {
    if n < 10 then (n + 48) as char else (n - 10 + 97) as char
  }

  function Hex(bytes: seq<byte>): (text: string)
    ensures |text| == 2 * |bytes|
  {
    if bytes == [] then ""
    else Hex(bytes[..|bytes| - 1]) + [HexDigit(bytes[|bytes| - 1] / 16), HexDigit(bytes[|bytes| - 1] % 16)]
  }

  method CompatHex(bytes: seq<byte>) returns (encoded: string)
    ensures encoded == Hex(bytes)
  {
    encoded := "";
    for i := 0 to |bytes|
      invariant encoded == Hex(bytes[..i])
    {
      assert bytes[..i + 1][..i] == bytes[..i];
      encoded := encoded + [HexDigit(bytes[i] / 16)];
      encoded := encoded + [HexDigit(bytes[i] % 16)];
    }
    assert bytes[..|bytes|] == bytes;
  }

  /** Byte `i` is written as its high and then its low digit, in the usual order of digits. */
  lemma {:induction false} HexAt(bytes: seq<byte>, i: nat)
    requires i < |bytes|
    ensures Hex(bytes)[2 * i] == "0123456789abcdef"[bytes[i] / 16]
    ensures Hex(bytes)[2 * i + 1] == "0123456789abcdef"[bytes[i] % 16]
  {
    var front := bytes[..|bytes| - 1];
    if i < |front| {
      HexAt(front, i);
      assert Hex(bytes)[2 * i] == Hex(front)[2 * i] && Hex(bytes)[2 * i + 1] == Hex(front)[2 * i + 1];
    } else {
      DigitAt(bytes[i] / 16);
      DigitAt(bytes[i] % 16);
    }
  }

  lemma DigitAt(n: nat)
    requires n < 16
    ensures HexDigit(n) == "0123456789abcdef"[n]
  {
  }

  predicate IsLowerHex(c: char) {
    '0' <= c <= '9' || 'a' <= c <= 'f'
  }

  predicate IsDigest(text: string) {
    |text| == 64 && forall i :: 0 <= i < |text| ==> IsLowerHex(text[i])
  }

  lemma {:induction false} HexIsLower(bytes: seq<byte>)
    ensures forall i :: 0 <= i < |Hex(bytes)| ==> IsLowerHex(Hex(bytes)[i])
  {
    if bytes != [] {
      HexIsLower(bytes[..|bytes| - 1]);
    }
  }

  /** Two byte strings with one hexadecimal form are one. */
  lemma {:induction false} HexInjective(a: seq<byte>, b: seq<byte>)
    requires Hex(a) == Hex(b)
    ensures a == b
  {
    assert |a| == |b|;
    if a != [] {
      var n := |a| - 1;
      LastByte(a);
      LastByte(b);
      hide Hex;
      HexInjective(a[..n], b[..n]);
      ByteInjective(a[n], b[n]);
      assert a == a[..n] + [a[n]] && b == b[..n] + [b[n]];
    }
  }

  lemma LastByte(a: seq<byte>)
    requires a != []
    ensures var n := |a| - 1;
            && Hex(a)[..2 * n] == Hex(a[..n])
            && Hex(a)[2 * n] == HexDigit(a[n] / 16)
            && Hex(a)[2 * n + 1] == HexDigit(a[n] % 16)
  {
    hide HexDigit;
  }

  lemma ByteInjective(a: byte, b: byte)
    requires HexDigit(a / 16) == HexDigit(b / 16) && HexDigit(a % 16) == HexDigit(b % 16)
    ensures a == b
  {
  }

  // ---------------------------------------------------------------------
  // Decimal indices
  // ---------------------------------------------------------------------

  predicate IsDigit(c: char) {
    '0' <= c <= '9'
  }

  predicate AllDigits(s: string) {
    forall i :: 0 <= i < |s| ==> IsDigit(s[i])
  }

  function Decimal(n: nat): (s: string)
    ensures |s| >= 1 && AllDigits(s)
  {
    var digit := [(n % 10 + 48) as char];
    if n < 10 then digit else Decimal(n / 10) + digit
  }

  function Number(s: string): nat
    requires AllDigits(s)
  {
    if s == "" then 0 else Number(s[..|s| - 1]) * 10 + (s[|s| - 1] as int - 48)
  }

  /** The standard library's parse of a machine word: an optional plus, then digits that fit. */
  function ParseUsize(s: string): Option<nat> {
    var digits := if s != "" && s[0] == '+' then s[1..] else s;
    if digits == "" || !AllDigits(digits) then None
    else if Number(digits) > USIZE_MAX then None
    else Some(Number(digits))
  }

  lemma {:induction false} DecimalNumber(n: nat)
    ensures Number(Decimal(n)) == n
  {
    if n >= 10 {
      DecimalNumber(n / 10);
      assert Decimal(n)[..|Decimal(n)| - 1] == Decimal(n / 10);
    }
  }

  function Pow10(k: nat): nat {
    if k == 0 then 1 else 10 * Pow10(k - 1)
  }

  lemma {:induction false} DecimalLength(n: nat, k: nat)
    requires 1 <= k && n < Pow10(k)
    ensures |Decimal(n)| <= k
  {
    if n >= 10 && k > 1 {
      DecimalLength(n / 10, k - 1);
    }
  }

  lemma WordLength(n: nat)
    requires n <= USIZE_MAX
    ensures |Decimal(n)| <= 20
  {
    assert Pow10(5) == 100_000;
    assert Pow10(10) == 100_000 * Pow10(5);
    assert Pow10(15) == 100_000 * Pow10(10);
    assert Pow10(20) == 100_000 * Pow10(15);
    DecimalLength(n, 20);
  }

  // ---------------------------------------------------------------------
  // Fields
  // ---------------------------------------------------------------------

  function Split(s: string): (parts: seq<string>)
    ensures |parts| >= 1
  {
    if s == "" then [""]
    else
      var rest := Split(s[1..]);
      if s[0] == '.' then [""] + rest else [[s[0]] + rest[0]] + rest[1..]
  }

  function Join(parts: seq<string>): string
    requires |parts| >= 1
  {
    if |parts| == 1 then parts[0] else parts[0] + "." + Join(parts[1..])
  }

  lemma {:induction false} JoinSplit(s: string)
    ensures Join(Split(s)) == s
  {
    if s != "" {
      JoinSplit(s[1..]);
      var rest, parts := Split(s[1..]), Split(s);
      if s[0] == '.' {
        assert parts[1..] == rest;
      } else {
        assert parts[1..] == rest[1..];
        if |rest| > 1 {
          assert Join(parts) == [s[0]] + (rest[0] + "." + Join(rest[1..]));
        }
      }
    }
  }

  predicate Plain(part: string) {
    forall i :: 0 <= i < |part| ==> part[i] != '.'
  }

  lemma {:induction false} SplitPlain(part: string, tail: string)
    requires Plain(part)
    ensures Split(part) == [part]
    ensures Split(part + "." + tail) == [part] + Split(tail)
  {
    var s := part + "." + tail;
    if part == "" {
      assert s[1..] == tail;
    } else {
      SplitPlain(part[1..], tail);
      assert s[1..] == part[1..] + "." + tail;
      assert [part[0]] + part[1..] == part;
    }
  }

  // ---------------------------------------------------------------------
  // Print and parse
  // ---------------------------------------------------------------------

  function Print(c: Cursor): string {
    "v1" + "." + (c.snapshot + "." + (Decimal(c.index) + "." + c.last))
  }

  function Parse(text: string): Option<Cursor> {
    if text == "" || |text| > MAX_SESSION_CURSOR_BYTES then None
    else
      var parts := Split(text);
      if |parts| != 4 then None
      else if parts[0] != "v1" || !IsDigest(parts[1]) || !IsDigest(parts[3]) || parts[2] == "" then None
      else
        var index := ParseUsize(parts[2]);
        if index.None? || Decimal(index.value) != parts[2] then None
        else Some(Cursor(parts[1], index.value, parts[3]))
  }

  predicate WellFormed(c: Cursor) {
    IsDigest(c.snapshot) && IsDigest(c.last) && c.index <= USIZE_MAX
  }

  lemma JoinFour(parts: seq<string>)
    requires |parts| == 4
    ensures Join(parts) == parts[0] + "." + (parts[1] + "." + (parts[2] + "." + parts[3]))
  {
    var tail := parts[1..];
    assert Join(tail[1..][1..]) == parts[3];
    assert Join(tail[1..]) == parts[2] + "." + parts[3];
    assert Join(tail) == parts[1] + "." + Join(tail[1..]);
  }

  lemma DigestIsPlain(text: string)
    requires IsDigest(text)
    ensures Plain(text)
  {
  }

  lemma DecimalIsPlain(n: nat)
    ensures Plain(Decimal(n))
  {
  }

  lemma SplitPrinted(c: Cursor)
    requires WellFormed(c)
    ensures Split(Print(c)) == ["v1", c.snapshot, Decimal(c.index), c.last]
  {
    DigestIsPlain(c.snapshot);
    DigestIsPlain(c.last);
    DecimalIsPlain(c.index);
    hide Split, Decimal, IsDigest;
    var t3 := Decimal(c.index) + "." + c.last;
    SplitPlain(c.last, "");
    SplitPlain(Decimal(c.index), c.last);
    SplitPlain(c.snapshot, t3);
    assert Plain("v1");
    SplitPlain("v1", c.snapshot + "." + t3);
  }

  lemma PrintParses(c: Cursor)
    requires WellFormed(c)
    ensures Parse(Print(c)) == Some(c)
  {
    hide Split, Decimal;
    WordLength(c.index);
    SplitPrinted(c);
    DecimalNumber(c.index);
    assert Decimal(c.index)[0] != '+' by {
      assert IsDigit(Decimal(c.index)[0]);
    }
  }

  /** Parsing accepts exactly the canonical strings and inverts printing. */
  lemma ParseExactly(text: string, c: Cursor)
    ensures Parse(text) == Some(c) <==> WellFormed(c) && text == Print(c)
  {
    hide Split, Decimal, IsDigest, Number, AllDigits;
    if Parse(text) == Some(c) {
      JoinSplit(text);
      JoinFour(Split(text));
    }
    if WellFormed(c) && text == Print(c) {
      PrintParses(c);
    }
  }
}
