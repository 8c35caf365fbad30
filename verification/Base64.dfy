/** Standard base64 as the attachment calls use it (section 4 of RFC 4648): the encoder of
    the API and the decoder of the attachment input. */
module Base64 {

  datatype Option<+T> = None | Some(value: T)

  type u64 = x: int | 0 <= x < 0x1_0000_0000_0000_0000
  const U64_MAX: u64 := 0xffff_ffff_ffff_ffff

  const PAD: bv8 := 0x3d

  /** The code of the symbol for six bits. */
  function Symbol(v: bv8): bv8 {
    if v < 26 then v + 65
    else if v < 52 then v - 26 + 97
    else if v < 62 then v - 52 + 48
    else if v == 62 then 43
    else 47
  }

  /** The six bits behind a symbol, or nothing for any other byte. */
  function Value(c: bv8): Option<bv8> {
    if 65 <= c <= 90 then Some(c - 65)
    else if 97 <= c <= 122 then Some(c - 97 + 26)
    else if 48 <= c <= 57 then Some(c - 48 + 52)
    else if c == 43 then Some(62)
    else if c == 47 then Some(63)
    else None
  }

  lemma SymbolValue(v: bv8)
    requires v < 64
    ensures Value(Symbol(v)) == Some(v) && Symbol(v) != PAD
  {
  }

  lemma ValueSymbol(c: bv8)
    requires Value(c).Some?
    ensures Value(c).value < 64 && Symbol(Value(c).value) == c && c != PAD
  {
  }

  /** The 64 symbols in the order of their values. */
  function Alphabet(): string {
    "ABCDEFGHIJKLMNOPQRSTUVWXYZ" + "abcdefghijklmnopqrstuvwxyz" + "0123456789" + "+/"
  }

  function Code(n: nat): nat {
    if n < 26 then n + 65 else if n < 52 then n - 26 + 97 else if n < 62 then n - 52 + 48 else if n == 62 then 43 else 47
  }

  lemma AlphabetAt(n: nat)
    requires n < 64
    ensures |Alphabet()| == 64 && Alphabet()[n] as int == Code(n)
  {
    UpperAt("ABCDEFGHIJKLMNOPQRSTUVWXYZ");
    LowerAt("abcdefghijklmnopqrstuvwxyz");
    JoinedAt("ABCDEFGHIJKLMNOPQRSTUVWXYZ", "abcdefghijklmnopqrstuvwxyz", "0123456789", "+/", n);
  }

  lemma UpperAt(s: string)
    requires s == "ABCDEFGHIJKLMNOPQRSTUVWXYZ"
    ensures |s| == 26 && forall n :: 0 <= n < 26 ==> s[n] as int == n + 65
  {
  }

  lemma LowerAt(s: string)
    requires s == "abcdefghijklmnopqrstuvwxyz"
    ensures |s| == 26 && forall n :: 0 <= n < 26 ==> s[n] as int == n + 97
  {
  }

  lemma JoinedAt(upper: string, lower: string, digits: string, marks: string, n: nat)
    requires n < 64 && |upper| == 26 && |lower| == 26 && digits == "0123456789" && marks == "+/"
    requires forall n :: 0 <= n < 26 ==> upper[n] as int == n + 65
    requires forall n :: 0 <= n < 26 ==> lower[n] as int == n + 97
    ensures |upper + lower + digits + marks| == 64 && (upper + lower + digits + marks)[n] as int == Code(n)
  {
  }

  /** The encoder's symbols are those of the alphabet, and the decoder gives back exactly the
      place of a symbol in it. */
  lemma AlphabetExact(v: bv8, c: bv8)
    requires v < 64
    ensures v as nat < 64 && |Alphabet()| == 64 && Symbol(v) as int == Alphabet()[v as nat] as int
    ensures Value(c) == Some(v) <==> c as int == Alphabet()[v as nat] as int
  {
    hide Alphabet;
    AlphabetAt(v as nat);
    SymbolCode(v);
    if Value(c).Some? {
      ValueSymbol(c);
    }
    SymbolValue(v);
  }

  lemma SymbolCode(v: bv8)
    requires v < 64
    ensures v as int < 64 && Symbol(v) as int == Code(v as int)
  {
  }

  // ---------------------------------------------------------------------
  // Encoding
  // ---------------------------------------------------------------------

  // Twenty-four bits cut into four sixes.

  function Six0(a: bv8): bv8 { a >> 2 }

  function Six1(a: bv8, b: bv8): bv8 { ((a & 0x03) << 4) | (b >> 4) }

  function Six2(b: bv8, c: bv8): bv8 { ((b & 0x0f) << 2) | (c >> 6) }

  function Six3(c: bv8): bv8 { c & 0x3f }

  // Four sixes put together to three bytes.

  function Byte0(v0: bv8, v1: bv8): bv8 { (v0 << 2) | (v1 >> 4) }

  function Byte1(v1: bv8, v2: bv8): bv8 { (v1 << 4) | (v2 >> 2) }

  function Byte2(v2: bv8, v3: bv8): bv8 { (v2 << 6) | v3 }

  /** Four symbols for one to three bytes. */
  function EncodeGroup(chunk: seq<bv8>): (text: seq<bv8>)
    requires 1 <= |chunk| <= 3
    ensures |text| == 4
  {
    var first := chunk[0];
    var second := if |chunk| > 1 then chunk[1] else 0;
    var third := if |chunk| > 2 then chunk[2] else 0;
    [ Symbol(Six0(first)),
      Symbol(Six1(first, second)),
      if |chunk| > 1 then Symbol(Six2(second, third)) else PAD,
      if |chunk| > 2 then Symbol(Six3(third)) else PAD ]
  }

  function Encode(bytes: seq<bv8>): seq<bv8> {
    if bytes == [] then []
    else if |bytes| <= 3 then EncodeGroup(bytes)
    else EncodeGroup(bytes[..3]) + Encode(bytes[3..])
  }

  method AppendGroup(text: seq<bv8>, chunk: seq<bv8>) returns (output: seq<bv8>)
    requires 1 <= |chunk| <= 3
    ensures output == text + EncodeGroup(chunk)
  {
    hide Symbol, Six0, Six1, Six2, Six3;
    var first := chunk[0];
    output := text + [Symbol(Six0(first))];
    var second: bv8 := if |chunk| > 1 then chunk[1] else 0;
    output := output + [Symbol(Six1(first, second))];
    if |chunk| > 1 {
      var third: bv8 := if |chunk| > 2 then chunk[2] else 0;
      output := output + [Symbol(Six2(second, third))];
    } else {
      output := output + [PAD];
    }
    if |chunk| > 2 {
      output := output + [Symbol(Six3(chunk[2]))];
    } else {
      output := output + [PAD];
    }
  }

  method EncodeBase64(bytes: seq<bv8>) returns (output: seq<bv8>)
    ensures output == Encode(bytes)
  {
    hide EncodeGroup;
    output := [];
    var i := 0;
    assert bytes[0..] == bytes;
    while i < |bytes|
      invariant 0 <= i <= |bytes|
      invariant Encode(bytes) == output + Encode(bytes[i..])
    {
      hide Encode;
      var end := if i + 3 <= |bytes| then i + 3 else |bytes|;
      FrontGroup(bytes[i..]);
      assert bytes[i..][..end - i] == bytes[i..end] && bytes[i..][end - i..] == bytes[end..];
      ghost var before, group := output, EncodeGroup(bytes[i..end]);
      output := AppendGroup(output, bytes[i..end]);
      assert before + (group + Encode(bytes[end..])) == before + group + Encode(bytes[end..]);
      i := end;
    }
    assert bytes[i..] == [];
  }

  lemma FrontGroup(bytes: seq<bv8>)
    requires bytes != []
    ensures var n := if |bytes| < 3 then |bytes| else 3;
            Encode(bytes) == EncodeGroup(bytes[..n]) + Encode(bytes[n..])
  {
    hide EncodeGroup;
    if |bytes| <= 3 {
      assert bytes[..|bytes|] == bytes && bytes[|bytes|..] == [];
      assert EncodeGroup(bytes) + [] == EncodeGroup(bytes);
    }
  }

  /** Sixteen bits from byte `k` on, first byte first, with zeros after the end. */
  function Window(bytes: seq<bv8>, k: nat): bv16 {
    var first: bv8, second: bv8 := if k < |bytes| then bytes[k] else 0, if k + 1 < |bytes| then bytes[k + 1] else 0;
    Pair(first, second)
  }

  function Pair(first: bv8, second: bv8): bv16 {
    (first as bv16 << 8) | second as bv16
  }

  /** The six bits of `window` after its first `skip` bits. */
  function SixBits(window: bv16, skip: nat): bv8
    requires skip <= 10
  {
    ((window >> (10 - skip)) & 0x3f) as bv8
  }

  lemma SixBitsCut(a: bv8, b: bv8)
    ensures SixBits(Pair(a, b), 0) == Six0(a)
    ensures SixBits(Pair(a, b), 6) == Six1(a, b)
    ensures SixBits(Pair(a, b), 4) == Six2(a, b)
    ensures SixBits(Pair(a, b), 2) == Six3(a)
  {
  }

  /** Symbol `i` of an encoding stands for the bits 6i to 6i + 5 of the input, the highest bit
      of each byte first, and is a pad exactly when all of them lie after the end. */
  lemma {:induction false} EncodedAt(bytes: seq<bv8>, i: nat)
    requires i < (|bytes| + 2) / 3 * 4
    ensures i < |Encode(bytes)|
    ensures 6 * i % 8 <= 10 && SixBits(Window(bytes, 6 * i / 8), 6 * i % 8) < 64
    ensures Encode(bytes)[i]
         == if 6 * i >= 8 * |bytes| then PAD else Symbol(SixBits(Window(bytes, 6 * i / 8), 6 * i % 8))
  {
    hide Symbol, SixBits, Pair, Six0, Six1, Six2, Six3;
    EncodeLength(bytes);
    FrontGroup(bytes);
    var n := if |bytes| < 3 then |bytes| else 3;
    if i < 4 {
      GroupAt(bytes, n, i);
    } else {
      EncodedAt(bytes[3..], i - 4);
      assert 6 * (i - 4) / 8 == 6 * i / 8 - 3 && 6 * (i - 4) % 8 == 6 * i % 8;
      assert Window(bytes[3..], 6 * i / 8 - 3) == Window(bytes, 6 * i / 8);
    }
  }

  lemma GroupAt(bytes: seq<bv8>, n: nat, i: nat)
    requires i < 4 && 0 < n <= |bytes| && n == (if |bytes| < 3 then |bytes| else 3)
    ensures SixBits(Window(bytes, 6 * i / 8), 6 * i % 8) < 64
    ensures EncodeGroup(bytes[..n])[i]
         == if 6 * i >= 8 * |bytes| then PAD else Symbol(SixBits(Window(bytes, 6 * i / 8), 6 * i % 8))
  {
    hide Symbol, SixBits, Pair, Six0, Six1, Six2, Six3;
    var a := bytes[0];
    var b: bv8 := if |bytes| > 1 then bytes[1] else 0;
    var c: bv8 := if |bytes| > 2 then bytes[2] else 0;
    var d: bv8 := if |bytes| > 3 then bytes[3] else 0;
    SixBitsCut(a, b);
    SixBitsCut(b, c);
    SixBitsCut(c, d);
    SixesAreSmall(a, b, c);
    assert i == 0 || i == 1 || i == 2 || i == 3;
  }

  function EncodedLen(bytes: u64): u64 {
    var padded: u64 := if bytes + 2 > U64_MAX then U64_MAX else bytes + 2;
    var groups: u64 := padded / 3;
    if groups * 4 > U64_MAX then U64_MAX else groups * 4
  }

  lemma {:induction false} EncodeLength(bytes: seq<bv8>)
    ensures |Encode(bytes)| == (|bytes| + 2) / 3 * 4
  {
    if |bytes| > 3 {
      EncodeLength(bytes[3..]);
    }
  }

  /** The predicted length is exact for every length a slice can have, and in general
      exactly as long as the true length is a 64-bit number. */
  lemma EncodedLenExact(bytes: seq<bv8>)
    requires |bytes| <= U64_MAX
    ensures EncodedLen(|bytes|) == |Encode(bytes)| <==> |Encode(bytes)| <= U64_MAX
    ensures |bytes| < 0x8000_0000_0000_0000 ==> EncodedLen(|bytes|) == |Encode(bytes)|
  {
    EncodeLength(bytes);
  }

  // ---------------------------------------------------------------------
  // Decoding
  // ---------------------------------------------------------------------

  /** The number of pads a group of four ends with, if the group is well formed. */
  function Padding(group: seq<bv8>, last: bool): Option<nat>
    requires |group| == 4
  {
    if Value(group[0]).None? || Value(group[1]).None? then None
    else if Value(group[2]).Some? && Value(group[3]).Some? then Some(0)
    else if !last || group[3] != PAD then None
    else if Value(group[2]).Some? then Some(1)
    else if group[2] == PAD then Some(2)
    else None
  }

  function Bits(c: bv8): bv8 {
    if Value(c).Some? then Value(c).value else 0
  }

  function GroupBytes(group: seq<bv8>, padding: nat): seq<bv8>
    requires |group| == 4
  {
    var v0, v1, v2, v3 := Bits(group[0]), Bits(group[1]), Bits(group[2]), Bits(group[3]);
    if padding == 0 then [Byte0(v0, v1), Byte1(v1, v2), Byte2(v2, v3)]
    else if padding == 1 then [Byte0(v0, v1), Byte1(v1, v2)]
    else [Byte0(v0, v1)]
  }

  function DecodeGroups(text: seq<bv8>): Option<seq<bv8>> {
    if text == [] then Some([])
    else if |text| < 4 then None
    else
      var padding := Padding(text[..4], |text| == 4);
      var rest := DecodeGroups(text[4..]);
      if padding.None? || rest.None? then None else Some(GroupBytes(text[..4], padding.value) + rest.value)
  }

  function Decode(text: seq<bv8>): Option<seq<bv8>> {
    if text == [] then None else DecodeGroups(text)
  }

  /** One group, slot by slot. */
  method ReadGroup(chunk: seq<bv8>, last: bool) returns (ok: bool, values: seq<bv8>, padding: nat)
    requires |chunk| == 4
    ensures ok <==> Padding(chunk, last).Some?
    ensures ok ==> padding == Padding(chunk, last).value
    ensures ok ==> values == [Bits(chunk[0]), Bits(chunk[1]), Bits(chunk[2]), Bits(chunk[3])]
  {
    hide Value;
    var slots := new bv8[4](_ => 0);
    padding := 0;
    assert Value(PAD).None? by { PadHasNoValue(); }
    for slot := 0 to 4
      invariant padding <= slot && (padding > 0 ==> last && padding <= slot - 2)
      invariant forall j :: 0 <= j < slot ==> slots[j] == Bits(chunk[j])
      invariant forall j :: 0 <= j < slot - padding ==> Value(chunk[j]).Some?
      invariant forall j :: slot - padding <= j < slot ==> chunk[j] == PAD
    {
      var byte := chunk[slot];
      if byte == PAD {
        if !last || slot < 2 {
          return false, [], 0;
        }
        padding := padding + 1;
        slots[slot] := 0;
      } else {
        if padding != 0 {
          assert chunk[slot - 1] == PAD;
          return false, [], 0;
        }
        var value := Value(byte);
        if value.None? {
          return false, [], 0;
        }
        slots[slot] := value.value;
      }
    }
    assert !(padding > 2 || (padding == 1 && chunk[3] != PAD) || (padding == 2 && chunk[2] != PAD));
    assert slots[..] == [slots[0], slots[1], slots[2], slots[3]];
    ok, values := true, slots[..];
  }

  lemma PadHasNoValue()
    ensures Value(PAD).None?
  {
  }

  method DecodeBase64(text: seq<bv8>) returns (output: Option<seq<bv8>>)
    ensures output == Decode(text)
  {
    hide Padding, GroupBytes, Bits, Byte0, Byte1, Byte2;
    if text == [] {
      return None;
    }
    if |text| % 4 != 0 {
      Misaligned(text);
      return None;
    }
    var bytes: seq<bv8> := [];
    assert text[4 * 0..] == text;
    var index := 0;
    PrependNothing(DecodeGroups(text));
    while index < |text| / 4
      invariant 0 <= index <= |text| / 4
      invariant DecodeGroups(text) == Prepend(bytes, DecodeGroups(text[4 * index..]))
    {
      var rest := text[4 * index..];
      var chunk := rest[..4];
      assert rest[4..] == text[4 * (index + 1)..];
      var ok, values, padding := ReadGroup(chunk, index + 1 == |text| / 4);
      if !ok {
        return None;
      }
      ghost var before := bytes;
      bytes := AppendBytes(bytes, chunk, values, padding);
      PrependTwice(before, GroupBytes(chunk, padding), DecodeGroups(rest[4..]));
      index := index + 1;
    }
    assert text[4 * index..] == [] && bytes + [] == bytes;
    output := Some(bytes);
  }

  method AppendBytes(bytes: seq<bv8>, ghost chunk: seq<bv8>, values: seq<bv8>, padding: nat) returns (output: seq<bv8>)
    requires |chunk| == 4 && values == [Bits(chunk[0]), Bits(chunk[1]), Bits(chunk[2]), Bits(chunk[3])]
    ensures output == bytes + GroupBytes(chunk, padding)
  {
    hide Bits, Byte0, Byte1, Byte2;
    output := bytes + [Byte0(values[0], values[1])];
    if padding < 2 {
      output := output + [Byte1(values[1], values[2])];
    }
    if padding == 0 {
      output := output + [Byte2(values[2], values[3])];
    }
  }

  lemma PrependNothing(rest: Option<seq<bv8>>)
    ensures Prepend([], rest) == rest
  {
    if rest.Some? {
      assert [] + rest.value == rest.value;
    }
  }

  function Prepend(front: seq<bv8>, rest: Option<seq<bv8>>): Option<seq<bv8>> {
    if rest.None? then None else Some(front + rest.value)
  }

  lemma PrependTwice(a: seq<bv8>, b: seq<bv8>, rest: Option<seq<bv8>>)
    ensures Prepend(a + b, rest) == Prepend(a, Prepend(b, rest))
  {
    if rest.Some? {
      assert a + b + rest.value == a + (b + rest.value);
    }
  }

  lemma {:induction false} Misaligned(text: seq<bv8>)
    requires |text| % 4 != 0
    ensures DecodeGroups(text).None?
  {
    if |text| >= 4 {
      Misaligned(text[4..]);
    }
  }

  // ---------------------------------------------------------------------
  // Theorems
  // ---------------------------------------------------------------------

  lemma GroupRoundTrip(chunk: seq<bv8>, last: bool)
    requires 1 <= |chunk| <= 3 && (|chunk| < 3 ==> last)
    ensures Padding(EncodeGroup(chunk), last) == Some(3 - |chunk|)
    ensures GroupBytes(EncodeGroup(chunk), 3 - |chunk|) == chunk
  {
    hide Symbol, Value, Six0, Six1, Six2, Six3, Byte0, Byte1, Byte2;
    var first := chunk[0];
    var second: bv8 := if |chunk| > 1 then chunk[1] else 0;
    var third: bv8 := if |chunk| > 2 then chunk[2] else 0;
    SixesAreSmall(first, second, third);
    SymbolValue(Six0(first));
    SymbolValue(Six1(first, second));
    SymbolValue(Six2(second, third));
    SymbolValue(Six3(third));
    PadHasNoValue();
    Reassemble(first, second, third);
    var group := EncodeGroup(chunk);
    assert Bits(group[0]) == Six0(first) && Bits(group[1]) == Six1(first, second);
  }

  lemma SixesAreSmall(a: bv8, b: bv8, c: bv8)
    ensures Six0(a) < 64 && Six1(a, b) < 64 && Six2(b, c) < 64 && Six3(c) < 64
  {
  }

  lemma Reassemble(a: bv8, b: bv8, c: bv8)
    ensures Byte0(Six0(a), Six1(a, b)) == a
    ensures Byte1(Six1(a, b), Six2(b, c)) == b
    ensures Byte2(Six2(b, c), Six3(c)) == c
    ensures Byte0(Six0(a), Six1(a, 0)) == a && Byte1(Six1(a, b), Six2(b, 0)) == b
  {
  }

  lemma {:induction false} GroupsRoundTrip(bytes: seq<bv8>)
    ensures DecodeGroups(Encode(bytes)) == Some(bytes)
  {
    hide EncodeGroup, Padding, GroupBytes;
    if bytes != [] {
      var n := if |bytes| < 3 then |bytes| else 3;
      var chunk, rest := bytes[..n], bytes[n..];
      FrontGroup(bytes);
      EncodeLength(rest);
      var text := Encode(bytes);
      assert text[..4] == EncodeGroup(chunk) && text[4..] == Encode(rest);
      GroupRoundTrip(chunk, |text| == 4);
      GroupsRoundTrip(rest);
      assert chunk + rest == bytes;
    }
  }

  /** Decoding what was encoded gives the bytes back; only the empty string is refused. */
  lemma RoundTrip(bytes: seq<bv8>)
    ensures bytes != [] ==> Decode(Encode(bytes)) == Some(bytes)
    ensures bytes == [] ==> Decode(Encode(bytes)) == None
  {
    EncodeLength(bytes);
    GroupsRoundTrip(bytes);
  }

  /** All symbols up to at most two pads at the very end. */
  predicate WellFormed(text: seq<bv8>, pads: nat) {
    && text != []
    && |text| % 4 == 0
    && pads <= 2
    && (forall i :: 0 <= i < |text| - pads ==> Value(text[i]).Some?)
    && (forall i :: |text| - pads <= i < |text| ==> text[i] == PAD)
  }

  lemma {:induction false} AcceptedForms(text: seq<bv8>) returns (pads: nat)
    requires text != [] && DecodeGroups(text).Some?
    ensures WellFormed(text, pads) && |DecodeGroups(text).value| == |text| / 4 * 3 - pads
  {
    if |text| == 4 {
      assert text[..4] == text;
      pads := Padding(text, true).value;
    } else {
      pads := AcceptedForms(text[4..]);
      assert forall i :: 4 <= i < |text| ==> text[i] == text[4..][i - 4];
      assert forall i :: 0 <= i < 4 ==> text[i] == text[..4][i];
      assert Padding(text[..4], false) == Some(0);
    }
  }

  lemma {:induction false} FormsAccepted(text: seq<bv8>, pads: nat)
    requires WellFormed(text, pads)
    ensures DecodeGroups(text).Some?
  {
    assert forall i :: 0 <= i < 4 ==> text[..4][i] == text[i];
    if |text| == 4 {
      assert text[..4] == text && text[4..] == [];
      assert Value(PAD).None?;
      assert forall i :: 0 <= i < 4 - pads ==> Value(text[i]).Some?;
    } else {
      assert forall i :: 0 <= i < |text[4..]| ==> text[4..][i] == text[i + 4];
      FormsAccepted(text[4..], pads);
      assert forall i :: 0 <= i < 4 ==> Value(text[..4][i]).Some?;
    }
  }

  /** The decoder accepts exactly the non-empty texts of whole groups whose padding, if any,
      ends the last group; the unused bits before a pad are not looked at. */
  lemma AcceptsExactly(text: seq<bv8>)
    ensures Decode(text).Some? <==> exists pads :: WellFormed(text, pads)
  {
    if Decode(text).Some? {
      var pads := AcceptedForms(text);
      assert WellFormed(text, pads);
    }
    if pads :| WellFormed(text, pads) {
      FormsAccepted(text, pads);
    }
  }

  /** No bits set in the unused part of the last symbol. */
  predicate CanonicalGroup(group: seq<bv8>, padding: nat)
    requires |group| == 4
  {
    && (padding == 1 ==> Bits(group[2]) & 0x03 == 0)
    && (padding == 2 ==> Bits(group[1]) & 0x0f == 0)
  }

  predicate Canonical(text: seq<bv8>) {
    |text| >= 4 && Padding(text[|text| - 4..], true).Some? && CanonicalGroup(text[|text| - 4..], Padding(text[|text| - 4..], true).value)
  }

  lemma GroupReencodes(group: seq<bv8>, last: bool)
    requires |group| == 4 && Padding(group, last).Some?
    ensures var padding := Padding(group, last).value;
            var chunk := GroupBytes(group, padding);
            && padding <= 2
            && |chunk| == 3 - padding
            && (EncodeGroup(chunk) == group <==> CanonicalGroup(group, padding))
  {
    hide Symbol, Value, Six0, Six1, Six2, Six3, Byte0, Byte1, Byte2;
    var padding := Padding(group, last).value;
    var v0, v1, v2, v3 := Bits(group[0]), Bits(group[1]), Bits(group[2]), Bits(group[3]);
    ValueSymbol(group[0]);
    ValueSymbol(group[1]);
    PadHasNoValue();
    if padding < 2 {
      ValueSymbol(group[2]);
    }
    if padding < 1 {
      ValueSymbol(group[3]);
    }
    Resplit(v0, v1, v2, v3);
    LowBits(v1, v2);
    var again := EncodeGroup(GroupBytes(group, padding));
    if padding == 0 {
      assert again == [Symbol(v0), Symbol(v1), Symbol(v2), Symbol(v3)];
    } else if padding == 1 {
      SymbolsDiffer(v2, v2 & 0x3c);
      assert again == [Symbol(v0), Symbol(v1), Symbol(v2 & 0x3c), PAD];
    } else {
      SymbolsDiffer(v1, v1 & 0x30);
      assert again == [Symbol(v0), Symbol(v1 & 0x30), PAD, PAD];
    }
    assert group == [group[0], group[1], group[2], group[3]];
  }

  lemma SymbolsDiffer(v: bv8, w: bv8)
    requires v < 64 && w < 64
    ensures Symbol(v) == Symbol(w) <==> v == w
  {
    SymbolValue(v);
    SymbolValue(w);
  }

  lemma LowBits(v1: bv8, v2: bv8)
    requires v1 < 64 && v2 < 64
    ensures v2 & 0x03 == 0 <==> v2 & 0x3c == v2
    ensures v1 & 0x0f == 0 <==> v1 & 0x30 == v1
    ensures v2 & 0x3c < 64 && v1 & 0x30 < 64
  {
  }

  /** Bytes assembled from six-bit values and cut again. */
  lemma Resplit(v0: bv8, v1: bv8, v2: bv8, v3: bv8)
    requires v0 < 64 && v1 < 64 && v2 < 64 && v3 < 64
    ensures Six0(Byte0(v0, v1)) == v0
    ensures Six1(Byte0(v0, v1), Byte1(v1, v2)) == v1
    ensures Six1(Byte0(v0, v1), 0) == v1 & 0x30
    ensures Six2(Byte1(v1, v2), Byte2(v2, v3)) == v2
    ensures Six2(Byte1(v1, v2), 0) == v2 & 0x3c
    ensures Six3(Byte2(v2, v3)) == v3
  {
  }

  /** Encoding a decoded text gives that text back exactly when its unused pad bits are zero. */
  lemma {:induction false} Reencodes(text: seq<bv8>)
    requires text != [] && DecodeGroups(text).Some?
    ensures Encode(DecodeGroups(text).value) == text <==> Canonical(text)
  {
    hide EncodeGroup, GroupBytes, CanonicalGroup, Padding;
    var group, rest := text[..4], text[4..];
    var padding := Padding(group, |text| == 4).value;
    var chunk := GroupBytes(group, padding);
    GroupReencodes(group, |text| == 4);
    assert text == group + rest;
    if |text| == 4 {
      assert text[|text| - 4..] == group;
      assert rest == [] && chunk + [] == chunk;
      assert Encode(chunk) == EncodeGroup(chunk);
    } else {
      InnerGroup(group);
      Reencodes(rest);
      var tail := DecodeGroups(rest).value;
      assert text[|text| - 4..] == rest[|rest| - 4..];
      var p := AcceptedForms(rest);
      FrontGroup(chunk + tail);
      assert (chunk + tail)[..3] == chunk && (chunk + tail)[3..] == tail;
      assert EncodeGroup(chunk) + Encode(tail) == group + rest <==> Encode(tail) == rest by {
        if EncodeGroup(chunk) + Encode(tail) == group + rest {
          assert (EncodeGroup(chunk) + Encode(tail))[4..] == Encode(tail);
        }
      }
    }
  }

  lemma InnerGroup(group: seq<bv8>)
    requires |group| == 4 && Padding(group, false).Some?
    ensures Padding(group, false).value == 0 && CanonicalGroup(group, 0)
  {
  }
}
