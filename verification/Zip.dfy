/** The stored ZIP writer of the session export, and an independent reader that follows
    sections 4.3.7, 4.3.12 and 4.3.16 of the PKWARE APPNOTE. The checksum is a parameter. */
module Zip {

  type byte = x: int | 0 <= x < 0x100
  type u16 = x: int | 0 <= x < 0x1_0000
  type u32 = x: int | 0 <= x < 0x1_0000_0000
  type Checksum = seq<byte> -> u32

  const MAX_PROMPT_FRAME_BYTES: nat := 64 * 1024 * 1024

  const LOCAL: u32 := 0x0403_4b50
  const CENTRAL: u32 := 0x0201_4b50
  const END: u32 := 0x0605_4b50

  datatype Option<+T> = None | Some(value: T)

  datatype Entry = Entry(path: seq<byte>, bytes: seq<byte>)

  /** What a reader learns about one member. */
  datatype Item = Item(path: seq<byte>, checksum: u32, size: nat, bytes: seq<byte>)

  // ---------------------------------------------------------------------
  // Paths
  // ---------------------------------------------------------------------

  const SLASH: byte := 0x2f
  const BACKSLASH: byte := 0x5c
  const DOT: byte := 0x2e

  /** The pieces between slashes; always at least one. */
  function Split(path: seq<byte>): (segments: seq<seq<byte>>)
    ensures |segments| >= 1
  {
    if path == [] then [[]]
    else
      var rest := Split(path[1..]);
      if path[0] == SLASH then [[]] + rest else [[path[0]] + rest[0]] + rest[1..]
  }

  predicate SafeSegment(segment: seq<byte>) {
    && segment != []
    && segment != [DOT]
    && segment != [DOT, DOT]
    && forall b :: b in segment ==> 0x20 <= b && b != 0x7f
  }

  predicate SafeArchivePath(path: seq<byte>) {
    && path != []
    && path[0] != SLASH
    && BACKSLASH !in path
    && forall segment :: segment in Split(path) ==> SafeSegment(segment)
  }

  function Join(segments: seq<seq<byte>>): seq<byte>
    requires |segments| >= 1
  {
    if |segments| == 1 then segments[0] else segments[0] + [SLASH] + Join(segments[1..])
  }

  /** The pieces contain no slash and make up the path again. */
  lemma {:induction false} SplitJoins(path: seq<byte>)
    ensures Join(Split(path)) == path
    ensures forall segment :: segment in Split(path) ==> SLASH !in segment
  {
    if path != [] {
      var rest := Split(path[1..]);
      SplitJoins(path[1..]);
      assert path == [path[0]] + path[1..];
      if path[0] == SLASH {
        assert ([[]] + rest)[1..] == rest;
      } else {
        var segments := [[path[0]] + rest[0]] + rest[1..];
        assert segments[1..] == rest[1..];
        if |rest| > 1 {
          assert Join(segments) == [path[0]] + (rest[0] + [SLASH] + Join(rest[1..]));
        }
        assert forall segment :: segment in segments ==> segment == [path[0]] + rest[0] || segment in rest;
        assert rest[0] in rest;
      }
    }
  }

  /** Positions `from` to `to` of a path are one component: a maximal stretch without slashes. */
  ghost predicate Component(path: seq<byte>, from: nat, to: nat) {
    && from <= to <= |path|
    && (from == 0 || path[from - 1] == SLASH)
    && (to == |path| || path[to] == SLASH)
    && forall i :: from <= i < to ==> path[i] != SLASH
  }

  lemma Shift(path: seq<byte>, from: nat, to: nat)
    requires from <= to < |path|
    ensures path[1..][from..to] == path[from + 1..to + 1]
  {
  }

  lemma {:induction false} ComponentIsPiece(path: seq<byte>, from: nat, to: nat) returns (k: nat)
    requires Component(path, from, to)
    ensures k < |Split(path)| && Split(path)[k] == path[from..to] && (k == 0 <==> from == 0)
  {
    k := 0;
    if path != [] {
      var tail := path[1..];
      if from > 0 {
        Shift(path, from - 1, to - 1);
        k := ComponentIsPiece(tail, from - 1, to - 1);
        if path[0] == SLASH { k := k + 1; }
      } else if to > 0 {
        k := ComponentIsPiece(tail, 0, to - 1);
        assert path[0..to] == [path[0]] + tail[0..to - 1];
      }
    }
  }

  lemma {:induction false} PieceIsComponent(path: seq<byte>, k: nat) returns (from: nat, to: nat)
    requires k < |Split(path)|
    ensures Component(path, from, to) && Split(path)[k] == path[from..to] && (k == 0 <==> from == 0)
  {
    from, to := 0, 0;
    if path != [] {
      var tail := path[1..];
      if path[0] == SLASH {
        if k > 0 {
          from, to := PieceIsComponent(tail, k - 1);
          assert tail[from..to] == path[from + 1..to + 1];
          from, to := from + 1, to + 1;
        }
      } else {
        from, to := PieceIsComponent(tail, k);
        if k == 0 {
          assert path[0..to + 1] == [path[0]] + tail[0..to];
          to := to + 1;
        } else {
          assert tail[from..to] == path[from + 1..to + 1];
          from, to := from + 1, to + 1;
        }
      }
    }
  }

  ghost predicate PlainComponent(path: seq<byte>, from: nat, to: nat) {
    Component(path, from, to) ==>
      && from < to
      && !(to == from + 1 && path[from] == DOT)
      && !(to == from + 2 && path[from] == DOT && path[from + 1] == DOT)
  }

  ghost predicate PlainComponents(path: seq<byte>) {
    forall from: nat, to: nat :: PlainComponent(path, from, to)
  }

  /** A path is safe if and only if it has no backslash and no control byte, and none of its
      components is empty, one dot or two dots. */
  lemma SafePathMeans(path: seq<byte>)
    ensures SafeArchivePath(path)
        <==> BACKSLASH !in path && (forall b :: b in path ==> 0x20 <= b && b != 0x7f) && PlainComponents(path)
  {
    hide Split, Component;
    if SafeArchivePath(path) {
      forall from: nat, to: nat ensures PlainComponent(path, from, to) {
        if Component(path, from, to) { SafeComponent(path, from, to); }
      }
      forall i | 0 <= i < |path| ensures 0x20 <= path[i] && path[i] != 0x7f {
        SafeByte(path, i);
      }
    }
    if PlainComponents(path) && BACKSLASH !in path && forall b :: b in path ==> 0x20 <= b && b != 0x7f {
      forall segment | segment in Split(path) ensures SafeSegment(segment) {
        var k :| 0 <= k < |Split(path)| && Split(path)[k] == segment;
        var from, to := PieceIsComponent(path, k);
        PlainIsSafe(path, from, to);
      }
      NoLeadingSlash(path);
    }
  }

  lemma Dots(path: seq<byte>, from: nat, to: nat)
    requires from <= to <= |path|
    ensures path[from..to] == [DOT] <==> to == from + 1 && path[from] == DOT
    ensures path[from..to] == [DOT, DOT] <==> to == from + 2 && path[from] == DOT && path[from + 1] == DOT
  {
    var segment := path[from..to];
    assert forall i :: 0 <= i < |segment| ==> segment[i] == path[from + i];
    assert |segment| == 2 ==> segment == [segment[0], segment[1]];
    assert |segment| == 1 ==> segment == [segment[0]];
    assert |[DOT]| == 1 && [DOT][0] == DOT && |[DOT, DOT]| == 2 && [DOT, DOT][0] == DOT && [DOT, DOT][1] == DOT;
  }

  lemma SafeComponent(path: seq<byte>, from: nat, to: nat)
    requires SafeArchivePath(path) && Component(path, from, to)
    ensures PlainComponent(path, from, to)
  {
    hide Split;
    var k := ComponentIsPiece(path, from, to);
    Dots(path, from, to);
    assert SafeSegment(Split(path)[k]);
  }

  lemma PlainIsSafe(path: seq<byte>, from: nat, to: nat)
    requires Component(path, from, to) && PlainComponent(path, from, to)
    requires forall b :: b in path ==> 0x20 <= b && b != 0x7f
    ensures SafeSegment(path[from..to])
  {
    var segment := path[from..to];
    Dots(path, from, to);
    assert forall b :: b in segment ==> b in path;
  }

  lemma NoLeadingSlash(path: seq<byte>)
    requires PlainComponents(path)
    ensures path != [] && path[0] != SLASH
  {
    assert PlainComponent(path, 0, 0);
  }

  /** Every byte of a safe path is a slash or lies in a safe segment. */
  lemma SafeByte(path: seq<byte>, i: nat)
    requires SafeArchivePath(path) && i < |path|
    ensures 0x20 <= path[i] && path[i] != 0x7f
  {
    hide Split;
    if path[i] != SLASH {
      var from, to := Around(path, i);
      var k := ComponentIsPiece(path, from, to);
      assert SafeSegment(Split(path)[k]);
      assert path[from..to][i - from] == path[i];
      assert path[i] in Split(path)[k];
    }
  }

  lemma Around(path: seq<byte>, i: nat) returns (from: nat, to: nat)
    requires i < |path| && path[i] != SLASH
    ensures from <= i < to && Component(path, from, to)
  {
    from, to := i, i + 1;
    while from > 0 && path[from - 1] != SLASH
      invariant from <= i && forall j :: from <= j <= i ==> path[j] != SLASH
    {
      from := from - 1;
    }
    while to < |path| && path[to] != SLASH
      invariant i < to <= |path| && forall j :: from <= j < to ==> path[j] != SLASH
    {
      to := to + 1;
    }
  }

  // ---------------------------------------------------------------------
  // Little-endian fields
  // ---------------------------------------------------------------------

  /** The low two bytes, least significant first. */
  function Le16(v: nat): (s: seq<byte>)
    ensures |s| == 2
  {
    [v % 0x100, v / 0x100 % 0x100]
  }

  /** The low four bytes, least significant first. */
  function Le32(v: nat): (s: seq<byte>)
    ensures |s| == 4
  {
    [v % 0x100, v / 0x100 % 0x100, v / 0x100 / 0x100 % 0x100, v / 0x100 / 0x100 / 0x100 % 0x100]
  }

  function Get16(a: seq<byte>, p: nat): u16
    requires p + 2 <= |a|
  {
    a[p] as int + 0x100 * a[p + 1] as int
  }

  function Get32(a: seq<byte>, p: nat): u32
    requires p + 4 <= |a|
  {
    a[p] as int + 0x100 * a[p + 1] as int + 0x1_0000 * a[p + 2] as int + 0x100_0000 * a[p + 3] as int
  }

  /** `part` stands in `a` at position `p`. */
  predicate At(a: seq<byte>, p: nat, part: seq<byte>) {
    p + |part| <= |a| && a[p..p + |part|] == part
  }

  lemma AtSplit(a: seq<byte>, p: nat, s: seq<byte>, t: seq<byte>)
    requires At(a, p, s + t)
    ensures At(a, p, s) && At(a, p + |s|, t)
  {
    assert a[p..p + |s|] == (s + t)[..|s|];
    assert a[p + |s|..p + |s + t|] == (s + t)[|s|..];
  }

  lemma ReadBack16(a: seq<byte>, p: nat, v: u16)
    requires At(a, p, Le16(v))
    ensures Get16(a, p) == v
  {
    assert a[p] == Le16(v)[0] && a[p + 1] == Le16(v)[1];
  }

  lemma ReadBack32(a: seq<byte>, p: nat, v: u32)
    requires At(a, p, Le32(v))
    ensures Get32(a, p) == v
  {
    assert a[p] == Le32(v)[0] && a[p + 1] == Le32(v)[1] && a[p + 2] == Le32(v)[2] && a[p + 3] == Le32(v)[3];
  }

  lemma Field16(a: seq<byte>, p: nat, v: u16, rest: seq<byte>)
    requires At(a, p, Le16(v) + rest)
    ensures p + 2 <= |a| && Get16(a, p) == v && At(a, p + 2, rest)
  {
    AtSplit(a, p, Le16(v), rest);
    ReadBack16(a, p, v);
  }

  lemma Field32(a: seq<byte>, p: nat, v: u32, rest: seq<byte>)
    requires At(a, p, Le32(v) + rest)
    ensures p + 4 <= |a| && Get32(a, p) == v && At(a, p + 4, rest)
  {
    AtSplit(a, p, Le32(v), rest);
    ReadBack32(a, p, v);
  }

  // ---------------------------------------------------------------------
  // The format
  // ---------------------------------------------------------------------

  /** Checksum, sizes and name length: the part both kinds of header share. */
  function Common(sum: u32, size: nat, name: nat): (s: seq<byte>)
    ensures |s| == 24
  {
    Le16(0x0800) + (Le16(0) + (Le16(0) + (Le16(0) + (Le32(sum) + (Le32(size) + (Le32(size) + (Le16(name) + Le16(0))))))))
  }

  function LocalHeader(sum: u32, size: nat, name: nat): (s: seq<byte>)
    ensures |s| == 30
  {
    Le32(LOCAL) + (Le16(20) + Common(sum, size, name))
  }

  function CentralHeader(sum: u32, size: nat, name: nat, offset: nat): (s: seq<byte>)
    ensures |s| == 46
  {
    Le32(CENTRAL) + (Le16(0x0314) + (Le16(20) + (Common(sum, size, name)
    + (Le16(0) + (Le16(0) + (Le16(0) + (Le32(0) + Le32(offset))))))))
  }

  function EndRecord(count: nat, size: nat, offset: nat): (s: seq<byte>)
    ensures |s| == 22
  {
    Le32(END) + (Le16(0) + (Le16(0) + (Le16(count) + (Le16(count) + (Le32(size) + (Le32(offset) + Le16(0)))))))
  }

  predicate Short(e: Entry) {
    |e.path| < 0x1_0000 && |e.bytes| < 0x1_0000_0000
  }

  function LocalSize(e: Entry): nat {
    30 + |e.path| + |e.bytes|
  }

  function CentralSize(e: Entry): nat {
    46 + |e.path|
  }

  function LocalsSize(entries: seq<Entry>): nat {
    if entries == [] then 0 else LocalsSize(entries[..|entries| - 1]) + LocalSize(entries[|entries| - 1])
  }

  function CentralsSize(entries: seq<Entry>): nat {
    if entries == [] then 0 else CentralsSize(entries[..|entries| - 1]) + CentralSize(entries[|entries| - 1])
  }

  function LocalRecord(crc: Checksum, e: Entry): (s: seq<byte>)
    ensures |s| == LocalSize(e)
  {
    LocalHeader(crc(e.bytes), |e.bytes|, |e.path|) + e.path + e.bytes
  }

  function Locals(crc: Checksum, entries: seq<Entry>): (s: seq<byte>)
    ensures |s| == LocalsSize(entries)
  {
    if entries == [] then []
    else Locals(crc, entries[..|entries| - 1]) + LocalRecord(crc, entries[|entries| - 1])
  }

  function CentralRecord(crc: Checksum, e: Entry, offset: nat): (s: seq<byte>)
    ensures |s| == CentralSize(e)
  {
    CentralHeader(crc(e.bytes), |e.bytes|, |e.path|, offset) + e.path
  }

  /** The directory: each record points to where the records before it end. */
  function Centrals(crc: Checksum, entries: seq<Entry>): (s: seq<byte>)
    ensures |s| == CentralsSize(entries)
  {
    if entries == [] then []
    else
      var before := entries[..|entries| - 1];
      Centrals(crc, before) + CentralRecord(crc, entries[|entries| - 1], LocalsSize(before))
  }

  /** The end record closes what the local records and the directory began. */
  function ArchiveOf(crc: Checksum, entries: seq<Entry>): (s: seq<byte>)
    ensures |s| == LocalsSize(entries) + CentralsSize(entries) + 22
  {
    Locals(crc, entries) + Centrals(crc, entries) + EndRecord(|entries|, CentralsSize(entries), LocalsSize(entries))
  }

  predicate Nameable(entries: seq<Entry>) {
    forall i :: 0 <= i < |entries| ==> SafeArchivePath(entries[i].path) && |entries[i].path| < 0x1_0000
  }

  /** What the writer accepts: names and a count that fit, and a total within the limit. */
  predicate Fits(entries: seq<Entry>) {
    && |entries| < 0x1_0000
    && Nameable(entries)
    && LocalsSize(entries) + CentralsSize(entries) + 22 <= MAX_PROMPT_FRAME_BYTES
  }

  lemma {:induction false} SizesPrefix(entries: seq<Entry>, i: nat)
    requires i <= |entries|
    ensures LocalsSize(entries[..i]) <= LocalsSize(entries)
    ensures CentralsSize(entries[..i]) <= CentralsSize(entries)
  {
    if i < |entries| {
      SizesPrefix(entries[..|entries| - 1], i);
      assert entries[..|entries| - 1][..i] == entries[..i];
    } else {
      assert entries[..i] == entries;
    }
  }

  lemma PrefixStep(crc: Checksum, entries: seq<Entry>, i: nat)
    requires i < |entries|
    ensures LocalsSize(entries[..i + 1]) == LocalsSize(entries[..i]) + LocalSize(entries[i]) <= LocalsSize(entries)
    ensures CentralsSize(entries[..i + 1]) == CentralsSize(entries[..i]) + CentralSize(entries[i]) <= CentralsSize(entries)
    ensures Locals(crc, entries[..i + 1]) == Locals(crc, entries[..i]) + LocalRecord(crc, entries[i])
    ensures Centrals(crc, entries[..i + 1]) ==
            Centrals(crc, entries[..i]) + CentralRecord(crc, entries[i], LocalsSize(entries[..i]))
  {
    hide LocalRecord, CentralRecord, LocalSize, CentralSize;
    SizesPrefix(entries, i + 1);
    var front := entries[..i + 1];
    assert front != [] && front[..|front| - 1] == entries[..i] && front[|front| - 1] == entries[i];
  }

  /** Whatever fits in the archive has a size that fits in its header. */
  lemma FittingIsShort(entries: seq<Entry>, i: nat)
    requires Fits(entries) && i < |entries|
    ensures Short(entries[i])
  {
    hide SafeArchivePath;
    PrefixStep(_ => 0, entries, i);
  }

  // ---------------------------------------------------------------------
  // The writer
  // ---------------------------------------------------------------------

  datatype Indexed = Indexed(path: seq<byte>, checksum: u32, size: u32, offset: u32)

  /** The index entry the first loop leaves for the second. */
  predicate Indexes(crc: Checksum, entries: seq<Entry>, i: nat, x: Indexed)
    requires i < |entries|
  {
    && x.path == entries[i].path
    && x.checksum == crc(entries[i].bytes)
    && x.size == |entries[i].bytes|
    && x.offset == LocalsSize(entries[..i])
  }

  method AppendCommon(output: seq<byte>, sum: u32, size: u32, name: u16) returns (archive: seq<byte>)
    ensures archive == output + Common(sum, size, name)
  {
    archive := output + Le16(0x0800);
    archive := archive + Le16(0);
    archive := archive + Le16(0);
    archive := archive + Le16(0);
    archive := archive + Le32(sum);
    archive := archive + Le32(size);
    archive := archive + Le32(size);
    archive := archive + Le16(name);
    archive := archive + Le16(0);
    hide Le16, Le32;
  }

  method AppendLocal(output: seq<byte>, sum: u32, size: u32, name: u16) returns (archive: seq<byte>)
    ensures archive == output + LocalHeader(sum, size, name)
  {
    hide Le16, Le32, Common;
    archive := output + Le32(LOCAL);
    archive := archive + Le16(20);
    archive := AppendCommon(archive, sum, size, name);
  }

  method AppendCentral(output: seq<byte>, sum: u32, size: u32, name: u16, offset: u32) returns (archive: seq<byte>)
    ensures archive == output + CentralHeader(sum, size, name, offset)
  {
    hide Le16, Le32, Common;
    archive := output + Le32(CENTRAL);
    archive := archive + Le16(0x0314);
    archive := archive + Le16(20);
    archive := AppendCommon(archive, sum, size, name);
    archive := archive + Le16(0);
    archive := archive + Le16(0);
    archive := archive + Le16(0);
    archive := archive + Le32(0);
    archive := archive + Le32(offset);
  }

  method AppendEnd(output: seq<byte>, count: u16, size: u32, offset: u32) returns (archive: seq<byte>)
    ensures archive == output + EndRecord(count, size, offset)
  {
    hide Le16, Le32;
    archive := output + Le32(END);
    archive := archive + Le16(0);
    archive := archive + Le16(0);
    archive := archive + Le16(count);
    archive := archive + Le16(count);
    archive := archive + Le32(size);
    archive := archive + Le32(offset);
    archive := archive + Le16(0);
  }

  predicate Listed(crc: Checksum, entries: seq<Entry>, index: seq<Indexed>) {
    |index| <= |entries| && forall i :: 0 <= i < |index| ==> Indexes(crc, entries, i, index[i])
  }

  /** The local records: nothing is converted that does not fit, and nothing is refused that does. */
  method WriteLocals(crc: Checksum, entries: seq<Entry>) returns (ok: bool, archive: seq<byte>, index: seq<Indexed>)
    ensures ok ==>
              && archive == Locals(crc, entries)
              && |archive| <= MAX_PROMPT_FRAME_BYTES
              && |index| == |entries|
              && Listed(crc, entries, index)
              && Nameable(entries)
    ensures !ok ==> !Fits(entries)
  {
    hide SafeArchivePath, LocalRecord, Locals, Centrals, LocalsSize, CentralsSize;
    archive, index, ok := [], [], true;
    assert LocalsSize(entries[..0]) == 0 && Locals(crc, entries[..0]) == [] by { EmptyParts(crc, entries[..0]); }
    for i := 0 to |entries|
      invariant ok && archive == Locals(crc, entries[..i]) && |archive| <= MAX_PROMPT_FRAME_BYTES
      invariant |index| == i && Listed(crc, entries, index)
      invariant forall j :: 0 <= j < i ==> SafeArchivePath(entries[j].path) && |entries[j].path| < 0x1_0000
    {
      var entry := entries[i];
      if !SafeArchivePath(entry.path) || |entry.path| >= 0x1_0000 {
        return false, [], [];
      }
      PrefixStep(crc, entries, i);
      if |entry.bytes| >= 0x1_0000_0000 {
        return false, [], [];
      }
      var offset: u32 := |archive|;
      archive := WriteLocal(crc, archive, entry);
      index := index + [Indexed(entry.path, crc(entry.bytes), |entry.bytes|, offset)];
      if |archive| > MAX_PROMPT_FRAME_BYTES {
        return false, [], [];
      }
    }
    assert entries[..|entries|] == entries;
  }

  lemma EmptyParts(crc: Checksum, entries: seq<Entry>)
    requires entries == []
    ensures LocalsSize(entries) == 0 && Locals(crc, entries) == []
    ensures CentralsSize(entries) == 0 && Centrals(crc, entries) == []
  {
  }

  method WriteLocal(crc: Checksum, output: seq<byte>, entry: Entry) returns (archive: seq<byte>)
    requires Short(entry)
    ensures archive == output + LocalRecord(crc, entry)
  {
    hide LocalHeader;
    archive := AppendLocal(output, crc(entry.bytes), |entry.bytes|, |entry.path|);
    archive := archive + entry.path;
    archive := archive + entry.bytes;
  }

  method WriteCentrals(crc: Checksum, ghost entries: seq<Entry>, locals: seq<byte>, index: seq<Indexed>)
    returns (ok: bool, archive: seq<byte>)
    requires |locals| == LocalsSize(entries) <= MAX_PROMPT_FRAME_BYTES
    requires |index| == |entries| && Listed(crc, entries, index) && Nameable(entries)
    ensures ok ==> archive == locals + Centrals(crc, entries) && |archive| <= MAX_PROMPT_FRAME_BYTES
    ensures !ok ==> !Fits(entries)
  {
    hide SafeArchivePath, CentralRecord, Locals, Centrals, LocalsSize, CentralsSize;
    archive, ok := locals, true;
    EmptyParts(crc, entries[..0]);
    for i := 0 to |index|
      invariant ok && archive == locals + Centrals(crc, entries[..i]) && |archive| <= MAX_PROMPT_FRAME_BYTES
    {
      assert Indexes(crc, entries, i, index[i]);
      PrefixStep(crc, entries, i);
      archive := WriteCentral(archive, index[i], crc, entries[i]);
      if |archive| > MAX_PROMPT_FRAME_BYTES {
        return false, [];
      }
      AppendMore(locals, Centrals(crc, entries[..i]), CentralRecord(crc, entries[i], LocalsSize(entries[..i])));
    }
    assert entries[..|entries|] == entries;
  }

  lemma AppendMore(a: seq<byte>, b: seq<byte>, c: seq<byte>)
    ensures a + b + c == a + (b + c)
  {
  }

  method WriteCentral(output: seq<byte>, x: Indexed, ghost crc: Checksum, ghost e: Entry) returns (archive: seq<byte>)
    requires |e.path| < 0x1_0000 && x.path == e.path && x.checksum == crc(e.bytes) && x.size == |e.bytes|
    ensures archive == output + CentralRecord(crc, e, x.offset)
  {
    hide CentralHeader;
    archive := AppendCentral(output, x.checksum, x.size, |x.path|, x.offset);
    archive := archive + x.path;
  }

  /** Writes exactly the archives that fit, and each of them as the format lays it out. */
  method StoredZip(crc: Checksum, entries: seq<Entry>) returns (archive: Option<seq<byte>>)
    ensures archive.Some? <==> Fits(entries)
    ensures archive.Some? ==> archive.value == ArchiveOf(crc, entries) && |archive.value| <= MAX_PROMPT_FRAME_BYTES
  {
    hide Nameable, EndRecord, Locals, Centrals, LocalsSize, CentralsSize;
    if |entries| >= 0x1_0000 {
      return None;
    }
    var ok, locals, index := WriteLocals(crc, entries);
    if !ok {
      return None;
    }
    var done, output := WriteCentrals(crc, entries, locals, index);
    if !done {
      return None;
    }
    var size: u32 := |output| - |locals|;
    output := AppendEnd(output, |entries|, size, |locals|);
    if |output| <= MAX_PROMPT_FRAME_BYTES {
      archive := Some(output);
    } else {
      archive := None;
    }
  }

  // ---------------------------------------------------------------------
  // The reader
  // ---------------------------------------------------------------------

  /** The member whose local header stands at `p`, if that header agrees with the directory. */
  function ReadLocal(a: seq<byte>, p: nat, path: seq<byte>, sum: u32, size: u32): Option<Item> {
    if p + 30 > |a| || Get32(a, p) != LOCAL || Get16(a, p + 8) != 0 then None
    else
      var name := Get16(a, p + 26);
      var start := p + 30 + name + Get16(a, p + 28);
      if start + size > |a| || Get32(a, p + 14) != sum || Get32(a, p + 18) != size || Get32(a, p + 22) != size
         || a[p + 30..p + 30 + name] != path then None
      else Some(Item(path, sum, size, a[start..start + size]))
  }

  /** `n` directory records from `p` on, ending exactly at `limit`. */
  function ReadCentral(a: seq<byte>, p: nat, limit: nat, n: nat): Option<seq<Item>>
    decreases n
  {
    if n == 0 then if p == limit then Some([]) else None
    else if p + 46 > |a| || Get32(a, p) != CENTRAL || Get16(a, p + 10) != 0 then None
    else
      var name := Get16(a, p + 28);
      var next := p + 46 + name + Get16(a, p + 30) + Get16(a, p + 32);
      if next > limit || next > |a| then None
      else
        var item := ReadLocal(a, Get32(a, p + 42), a[p + 46..p + 46 + name], Get32(a, p + 16), Get32(a, p + 24));
        var rest := ReadCentral(a, next, limit, n - 1);
        if item.None? || rest.None? || Get32(a, p + 20) != Get32(a, p + 24) then None
        else Some([item.value] + rest.value)
  }

  /** Starts from the end record, as a reader of an archive without a comment does. */
  function ReadZip(crc: Checksum, a: seq<byte>): Option<seq<Item>> {
    if |a| < 22 then None
    else
      var p := |a| - 22;
      if Get32(a, p) != END || Get16(a, p + 20) != 0 || Get16(a, p + 8) != Get16(a, p + 10) then None
      else
        var start, size := Get32(a, p + 16), Get32(a, p + 12);
        if start + size != p then None
        else
          var items := ReadCentral(a, start, p, Get16(a, p + 10));
          if items.Some? && forall x :: x in items.value ==> crc(x.bytes) == x.checksum then items else None
  }

  /** What a reader should find. */
  function ItemOf(crc: Checksum, e: Entry): Item {
    Item(e.path, crc(e.bytes), |e.bytes|, e.bytes)
  }

  function Items(crc: Checksum, entries: seq<Entry>): seq<Item> {
    seq(|entries|, i requires 0 <= i < |entries| => ItemOf(crc, entries[i]))
  }

  lemma CommonFields(a: seq<byte>, p: nat, sum: u32, size: u32, name: u16, rest: seq<byte>)
    requires At(a, p, Common(sum, size, name) + rest)
    ensures p + 24 <= |a|
    ensures Get16(a, p + 2) == 0 && Get32(a, p + 8) == sum && Get32(a, p + 12) == size && Get32(a, p + 16) == size
    ensures Get16(a, p + 20) == name && Get16(a, p + 22) == 0 && At(a, p + 24, rest)
  {
    AtSplit(a, p, Common(sum, size, name), rest);
    hide Get16, Get32, At;
    var f8 := Le16(name) + Le16(0);
    var f7 := Le32(size) + f8;
    var f6 := Le32(size) + f7;
    var f5 := Le32(sum) + f6;
    var f4 := Le16(0) + f5;
    var f3 := Le16(0) + f4;
    var f2 := Le16(0) + f3;
    assert Common(sum, size, name) == Le16(0x0800) + f2;
    hide Le16, Le32, Common;
    Field16(a, p, 0x0800, f2);
    Field16(a, p + 2, 0, f3);
    Field16(a, p + 4, 0, f4);
    Field16(a, p + 6, 0, f5);
    Field32(a, p + 8, sum, f6);
    Field32(a, p + 12, size, f7);
    Field32(a, p + 16, size, f8);
    Field16(a, p + 20, name, Le16(0));
    assert Le16(0) == Le16(0) + [];
    Field16(a, p + 22, 0, []);
  }

  lemma LocalReads(crc: Checksum, a: seq<byte>, p: nat, e: Entry)
    requires Short(e) && At(a, p, LocalRecord(crc, e))
    ensures ReadLocal(a, p, e.path, crc(e.bytes), |e.bytes|) == Some(ItemOf(crc, e))
  {
    var sum, size, name := crc(e.bytes), |e.bytes|, |e.path|;
    AtSplit(a, p, LocalHeader(sum, size, name) + e.path, e.bytes);
    AtSplit(a, p, LocalHeader(sum, size, name), e.path);
    assert a[p + 30 + name..p + 30 + name + size] == e.bytes;
    assert a[p + 30..p + 30 + name] == e.path;
    LocalFields(a, p, sum, size, name);
    hide LocalHeader, Get16, Get32, At;
  }

  lemma LocalFields(a: seq<byte>, p: nat, sum: u32, size: u32, name: u16)
    requires At(a, p, LocalHeader(sum, size, name))
    ensures p + 30 <= |a| && Get32(a, p) == LOCAL && Get16(a, p + 8) == 0
    ensures Get32(a, p + 14) == sum && Get32(a, p + 18) == size && Get32(a, p + 22) == size
    ensures Get16(a, p + 26) == name && Get16(a, p + 28) == 0
  {
    hide Get16, Get32, At, Le16, Le32, Common;
    var common := Common(sum, size, name);
    Field32(a, p, LOCAL, Le16(20) + common);
    Field16(a, p + 4, 20, common);
    assert common == common + [];
    CommonFields(a, p + 6, sum, size, name, []);
  }

  lemma CentralFields(a: seq<byte>, p: nat, sum: u32, size: u32, name: u16, offset: u32)
    requires At(a, p, CentralHeader(sum, size, name, offset))
    ensures p + 46 <= |a| && Get32(a, p) == CENTRAL && Get16(a, p + 10) == 0
    ensures Get32(a, p + 16) == sum && Get32(a, p + 20) == size && Get32(a, p + 24) == size
    ensures Get16(a, p + 28) == name && Get16(a, p + 30) == 0 && Get16(a, p + 32) == 0
    ensures Get32(a, p + 42) == offset
  {
    hide Get16, Get32, At, Le16, Le32, Common;
    var t4 := Le32(0) + Le32(offset);
    var t3 := Le16(0) + t4;
    var t2 := Le16(0) + t3;
    var t1 := Le16(0) + t2;
    var rest := Common(sum, size, name) + t1;
    Field32(a, p, CENTRAL, Le16(0x0314) + (Le16(20) + rest));
    Field16(a, p + 4, 0x0314, Le16(20) + rest);
    Field16(a, p + 6, 20, rest);
    CommonFields(a, p + 8, sum, size, name, t1);
    Field16(a, p + 32, 0, t2);
    Field16(a, p + 34, 0, t3);
    Field16(a, p + 36, 0, t4);
    Field32(a, p + 38, 0, Le32(offset));
    assert Le32(offset) == Le32(offset) + [];
    Field32(a, p + 42, offset, []);
  }

  lemma EndFields(a: seq<byte>, p: nat, count: u16, size: u32, offset: u32)
    requires At(a, p, EndRecord(count, size, offset))
    ensures p + 22 <= |a| && Get32(a, p) == END
    ensures Get16(a, p + 8) == count && Get16(a, p + 10) == count
    ensures Get32(a, p + 12) == size && Get32(a, p + 16) == offset && Get16(a, p + 20) == 0
  {
    hide Get16, Get32, At, Le16, Le32;
    var t6 := Le32(offset) + Le16(0);
    var t5 := Le32(size) + t6;
    var t4 := Le16(count) + t5;
    var t3 := Le16(count) + t4;
    var t2 := Le16(0) + t3;
    Field32(a, p, END, Le16(0) + t2);
    Field16(a, p + 4, 0, t2);
    Field16(a, p + 6, 0, t3);
    Field16(a, p + 8, count, t4);
    Field16(a, p + 10, count, t5);
    Field32(a, p + 12, size, t6);
    Field32(a, p + 16, offset, Le16(0));
    assert Le16(0) == Le16(0) + [];
    Field16(a, p + 20, 0, []);
  }

  lemma AtWider(a: seq<byte>, b: seq<byte>, p: nat, part: seq<byte>)
    ensures At(a, p, part) ==> At(a + b, p, part)
    ensures At(b, p, part) ==> At(a + b, |a| + p, part)
  {
    if At(a, p, part) {
      assert (a + b)[p..p + |part|] == a[p..p + |part|];
    }
    if At(b, p, part) {
      assert (a + b)[|a| + p..|a| + p + |part|] == b[p..p + |part|];
    }
  }

  lemma {:induction false} LocalStands(crc: Checksum, entries: seq<Entry>, i: nat)
    requires i < |entries|
    ensures At(Locals(crc, entries), LocalsSize(entries[..i]), LocalRecord(crc, entries[i]))
  {
    hide LocalRecord, LocalsSize, At;
    var before, last := entries[..|entries| - 1], entries[|entries| - 1];
    if i < |before| {
      LocalStands(crc, before, i);
      assert before[..i] == entries[..i];
      AtWider(Locals(crc, before), LocalRecord(crc, last), LocalsSize(entries[..i]), LocalRecord(crc, entries[i]));
    } else {
      AtLast(Locals(crc, before), LocalRecord(crc, last));
    }
  }

  lemma {:induction false} CentralStands(crc: Checksum, entries: seq<Entry>, i: nat)
    requires i < |entries|
    ensures At(Centrals(crc, entries), CentralsSize(entries[..i]), CentralRecord(crc, entries[i], LocalsSize(entries[..i])))
  {
    hide CentralRecord, LocalsSize, CentralsSize, At;
    var before, last := entries[..|entries| - 1], entries[|entries| - 1];
    if i < |before| {
      CentralStands(crc, before, i);
      assert before[..i] == entries[..i];
      AtWider(Centrals(crc, before), CentralRecord(crc, last, LocalsSize(before)), CentralsSize(entries[..i]),
              CentralRecord(crc, entries[i], LocalsSize(entries[..i])));
    } else {
      AtLast(Centrals(crc, before), CentralRecord(crc, last, LocalsSize(before)));
    }
  }

  /** Both records of a member stand where the sizes before it say. */
  lemma RecordsStand(crc: Checksum, entries: seq<Entry>, i: nat)
    requires i < |entries|
    ensures At(ArchiveOf(crc, entries), LocalsSize(entries[..i]), LocalRecord(crc, entries[i]))
    ensures At(ArchiveOf(crc, entries), LocalsSize(entries) + CentralsSize(entries[..i]),
               CentralRecord(crc, entries[i], LocalsSize(entries[..i])))
  {
    hide At, LocalRecord, CentralRecord, EndRecord, Locals, Centrals, LocalsSize, CentralsSize;
    LocalStands(crc, entries, i);
    CentralStands(crc, entries, i);
    AtMiddle(Locals(crc, entries), Centrals(crc, entries), EndRecord(|entries|, CentralsSize(entries), LocalsSize(entries)),
             LocalsSize(entries[..i]), LocalRecord(crc, entries[i]),
             CentralsSize(entries[..i]), CentralRecord(crc, entries[i], LocalsSize(entries[..i])));
  }

  lemma AtMiddle(l: seq<byte>, c: seq<byte>, e: seq<byte>, p: nat, s: seq<byte>, q: nat, t: seq<byte>)
    requires At(l, p, s) && At(c, q, t)
    ensures At(l + c + e, p, s) && At(l + c + e, |l| + q, t)
  {
    hide At;
    AtWider(l, c, p, s);
    AtWider(l, c, q, t);
    AtWider(l + c, e, p, s);
    AtWider(l + c, e, |l| + q, t);
  }

  lemma CentralReads(crc: Checksum, a: seq<byte>, p: nat, e: Entry, offset: u32)
    requires Short(e) && At(a, p, CentralRecord(crc, e, offset))
    ensures p + 46 + |e.path| <= |a| && a[p + 46..p + 46 + |e.path|] == e.path
    ensures At(a, p, CentralHeader(crc(e.bytes), |e.bytes|, |e.path|, offset))
  {
    AtSplit(a, p, CentralHeader(crc(e.bytes), |e.bytes|, |e.path|, offset), e.path);
    hide CentralHeader;
  }

  /** One directory record, given the rest of the directory. */
  lemma RecordReads(crc: Checksum, a: seq<byte>, p: nat, limit: nat, n: nat, e: Entry, offset: u32, rest: seq<Item>)
    requires Short(e) && n > 0 && p + CentralSize(e) <= limit
    requires At(a, p, CentralRecord(crc, e, offset)) && At(a, offset, LocalRecord(crc, e))
    requires ReadCentral(a, p + CentralSize(e), limit, n - 1) == Some(rest)
    ensures ReadCentral(a, p, limit, n) == Some([ItemOf(crc, e)] + rest)
  {
    hide LocalRecord, CentralRecord, CentralHeader, At, ReadLocal, Get16, Get32;
    LocalReads(crc, a, offset, e);
    CentralReads(crc, a, p, e, offset);
    CentralFields(a, p, crc(e.bytes), |e.bytes|, |e.path|, offset);
  }

  lemma {:induction false} DirectoryReads(crc: Checksum, entries: seq<Entry>, a: seq<byte>, i: nat)
    requires Fits(entries) && i <= |entries| && a == ArchiveOf(crc, entries)
    ensures ReadCentral(a, LocalsSize(entries) + CentralsSize(entries[..i]), LocalsSize(entries) + CentralsSize(entries), |entries| - i)
            == Some(Items(crc, entries[i..]))
    decreases |entries| - i
  {
    hide Nameable, ArchiveOf, LocalRecord, CentralRecord, At, LocalsSize, CentralsSize, Short, Items, ReadCentral;
    if i == |entries| {
      assert entries[..i] == entries;
      ItemsFront(crc, entries, i);
      DirectoryEnds(a, LocalsSize(entries) + CentralsSize(entries));
    } else {
      var p, limit := LocalsSize(entries) + CentralsSize(entries[..i]), LocalsSize(entries) + CentralsSize(entries);
      var rest := Items(crc, entries[i + 1..]);
      RecordsStand(crc, entries, i);
      PrefixStep(crc, entries, i);
      FittingIsShort(entries, i);
      DirectoryReads(crc, entries, a, i + 1);
      ItemsFront(crc, entries, i);
      RecordReads(crc, a, p, limit, |entries| - i, entries[i], LocalsSize(entries[..i]), rest);
    }
  }

  lemma DirectoryEnds(a: seq<byte>, p: nat)
    ensures ReadCentral(a, p, p, 0) == Some([])
  {
  }

  lemma ItemsFront(crc: Checksum, entries: seq<Entry>, i: nat)
    requires i <= |entries|
    ensures Items(crc, entries[i..]) ==
            if i == |entries| then [] else [ItemOf(crc, entries[i])] + Items(crc, entries[i + 1..])
  {
  }

  lemma AtLast(a: seq<byte>, s: seq<byte>)
    ensures At(a + s, |a|, s)
  {
  }

  /** Reading back any archive the writer accepts recovers paths, sizes, checksums and bytes in order. */
  lemma RoundTrip(crc: Checksum, entries: seq<Entry>)
    requires Fits(entries)
    ensures ReadZip(crc, ArchiveOf(crc, entries)) == Some(Items(crc, entries))
  {
    hide Nameable, EndRecord, Get16, Get32, ReadCentral, At, LocalsSize, CentralsSize, Locals, Centrals;
    var start, size := LocalsSize(entries), CentralsSize(entries);
    AtLast(Locals(crc, entries) + Centrals(crc, entries), EndRecord(|entries|, size, start));
    hide ArchiveOf;
    EndFields(ArchiveOf(crc, entries), start + size, |entries|, size, start);
    DirectoryReads(crc, entries, ArchiveOf(crc, entries), 0);
    EmptyParts(crc, entries[..0]);
    assert entries[0..] == entries;
  }

  /** Different lists of members never share an archive. */
  lemma ArchiveInjective(crc: Checksum, first: seq<Entry>, second: seq<Entry>)
    requires Fits(first) && Fits(second) && ArchiveOf(crc, first) == ArchiveOf(crc, second)
    ensures first == second
  {
    hide Fits, ArchiveOf, ReadZip;
    RoundTrip(crc, first);
    RoundTrip(crc, second);
    assert |Items(crc, first)| == |Items(crc, second)|;
    forall i | 0 <= i < |first|
      ensures first[i] == second[i]
    {
      assert Items(crc, first)[i] == Items(crc, second)[i];
    }
  }
}
