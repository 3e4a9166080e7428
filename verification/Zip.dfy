/**
 * The stored ZIP archive the exporter writes, and a reader that goes from the end record to the
 * central directory to each local header (sections 4.3.16, 4.3.12 and 4.3.7 of APPNOTE.TXT).
 */
module Zip {
  import opened Wrappers

  /** A byte of the archive, kept as a number. */
  type Octet = x: int | 0 <= x < 256

  /** What is to be archived; the name is already UTF-8. */
  datatype Entry = Entry(name: seq<Octet>, data: seq<Octet>)

  /** An archive member, with the checksum its headers record. */
  datatype Member = Member(name: seq<Octet>, data: seq<Octet>, crc: nat)

  const LOCAL_SIG: seq<Octet> := [0x50, 0x4b, 0x03, 0x04]
  const CENTRAL_SIG: seq<Octet> := [0x50, 0x4b, 0x01, 0x02]
  const END_SIG: seq<Octet> := [0x50, 0x4b, 0x05, 0x06]

  const LIMIT16 := 0x1_0000
  const LIMIT32 := 0x1_0000_0000

  // ---- little-endian fields ----

  function Low(n: nat): Octet { n % 256 }

  function U16(n: nat): seq<Octet> { [Low(n), Low(n / 256)] }

  function U32(n: nat): seq<Octet> { [Low(n), Low(n / 256), Low(n / 0x1_0000), Low(n / 0x100_0000)] }

  function U16s(fields: seq<nat>): (bytes: seq<Octet>)
    ensures |bytes| == 2 * |fields|
  {
    if fields == [] then [] else U16(fields[0]) + U16s(fields[1..])
  }

  function U32s(fields: seq<nat>): (bytes: seq<Octet>)
    ensures |bytes| == 4 * |fields|
  {
    if fields == [] then [] else U32(fields[0]) + U32s(fields[1..])
  }

  // ---- the archive ----

  function LocalRecord(m: Member): seq<Octet> {
    LOCAL_SIG + U16s([20, 0, 0, 0, 0]) + U32s([m.crc, |m.data|, |m.data|]) + U16s([|m.name|, 0]) + m.name
  }

  function CentralRecord(m: Member, offset: nat): seq<Octet> {
    CENTRAL_SIG + U16s([20, 20, 0, 0, 0, 0]) + U32s([m.crc, |m.data|, |m.data|])
    + U16s([|m.name|, 0, 0, 0, 0]) + U32s([0, offset]) + m.name
  }

  function EndRecord(count: nat, size: nat, offset: nat): seq<Octet> {
    END_SIG + U16s([0, 0, count, count]) + U32s([size, offset]) + U16s([0])
  }

  function Flat(parts: seq<seq<Octet>>): seq<Octet> {
    if parts == [] then [] else Flat(parts[..|parts| - 1]) + parts[|parts| - 1]
  }

  /** What the archive holds of one entry in its local part. */
  function LocalPart(m: Member): seq<Octet> { LocalRecord(m) + m.data }

  function LocalParts(members: seq<Member>): (parts: seq<seq<Octet>>)
    ensures |parts| == |members|
  {
    seq(|members|, i requires 0 <= i < |members| => LocalPart(members[i]))
  }

  /** Where each entry's local header starts. */
  function OffsetOf(members: seq<Member>, i: nat): nat
    requires i <= |members|
  {
    |Flat(LocalParts(members)[..i])|
  }

  function CentralParts(members: seq<Member>): (parts: seq<seq<Octet>>)
    ensures |parts| == |members|
  {
    seq(|members|, i requires 0 <= i < |members| => CentralRecord(members[i], OffsetOf(members, i)))
  }

  function Archive(members: seq<Member>): seq<Octet> {
    var locals, centrals := Flat(LocalParts(members)), Flat(CentralParts(members));
    locals + centrals + EndRecord(|members|, |centrals|, |locals|)
  }

  /** The bytes of the local part. */
  function LocalSize(members: seq<Member>): nat {
    if members == [] then 0
    else
      var m := members[|members| - 1];
      LocalSize(members[..|members| - 1]) + 30 + |m.name| + |m.data|
  }

  /** The bytes of the directory. */
  function CentralSize(members: seq<Member>): nat {
    if members == [] then 0 else CentralSize(members[..|members| - 1]) + 46 + |members[|members| - 1].name|
  }

  /** Every number the archive records fits its field. */
  predicate Fits(members: seq<Member>) {
    && |members| < LIMIT16 && LocalSize(members) < LIMIT32 && CentralSize(members) < LIMIT32
    && forall i :: 0 <= i < |members| ==>
         |members[i].name| < LIMIT16 && |members[i].data| < LIMIT32 && members[i].crc < LIMIT32
  }

  // ---- the reader ----

  function Le16(b: seq<Octet>, at: nat): nat
    requires at + 2 <= |b|
  {
    b[at] as int + 256 * (b[at + 1] as int)
  }

  function Le32(b: seq<Octet>, at: nat): nat
    requires at + 4 <= |b|
  {
    Le16(b, at) + 0x1_0000 * Le16(b, at + 2)
  }

  predicate HasBytes(b: seq<Octet>, at: nat, piece: seq<Octet>) {
    at + |piece| <= |b| && b[at..at + |piece|] == piece
  }

  /** The five fields from the version needed on say: version 2.0, no flags, stored, and no date. */
  predicate PlainFields(b: seq<Octet>, at: nat)
    requires at + 10 <= |b|
  {
    Le16(b, at) == 20 && Le16(b, at + 2) == 0 && Le16(b, at + 4) == 0 && Le16(b, at + 6) == 0 && Le16(b, at + 8) == 0
  }

  /** The entry of one local header: stored, of the given checksum, size and name. */
  function ReadLocal(b: seq<Octet>, at: nat, crc: nat, size: nat, name: seq<Octet>): Option<Member> {
    if at + 30 > |b| || !HasBytes(b, at, LOCAL_SIG) || !PlainFields(b, at + 4) then None
    else if Le32(b, at + 14) != crc || Le32(b, at + 18) != size || Le32(b, at + 22) != size
    then None
    else
      var dataAt := at + 30 + Le16(b, at + 26) + Le16(b, at + 28);
      if dataAt + size > |b| || b[at + 30..at + 30 + Le16(b, at + 26)] != name then None
      else
        Some(Member(name, b[dataAt..dataAt + size], crc))
  }

  /** The record says the same as a plain local header, of a member on the first disk without a comment,
      made under no particular system and with no attributes. */
  predicate PlainRecord(b: seq<Octet>, at: nat)
    requires at + 46 <= |b|
  {
    && Le16(b, at + 4) == 20 && PlainFields(b, at + 6)
    && Le16(b, at + 32) == 0 && Le16(b, at + 34) == 0 && Le16(b, at + 36) == 0 && Le32(b, at + 38) == 0
  }

  /** The version needed to extract a member is stated alike in its two headers. */
  predicate SameVersion(b: seq<Octet>, at: nat, offset: nat)
    requires at + 46 <= |b|
  {
    offset + 30 <= |b| && Le16(b, offset + 4) == Le16(b, at + 6)
  }

  /** The member of the directory record at `at`, and where the next record starts. */
  function ReadRecord(b: seq<Octet>, at: nat): Option<(Member, nat)> {
    if at + 46 > |b| || !HasBytes(b, at, CENTRAL_SIG) || !PlainRecord(b, at) then None
    else if !SameVersion(b, at, Le32(b, at + 42)) then None
    else
      var nameAt, nameLen := at + 46, Le16(b, at + 28);
      var next := nameAt + nameLen + Le16(b, at + 30) + Le16(b, at + 32);
      if next > |b| || Le32(b, at + 20) != Le32(b, at + 24) then None
      else
        var m := ReadLocal(b, Le32(b, at + 42), Le32(b, at + 16), Le32(b, at + 20), b[nameAt..nameAt + nameLen]);
        if m.None? then None else Some((m.value, next))
  }

  function RecordReader(b: seq<Octet>): nat -> Option<(Member, nat)> {
    at => ReadRecord(b, at)
  }

  /** `count` items read one behind another, from `at` to exactly `end`. */
  function ReadAll<T>(read: nat -> Option<(T, nat)>, at: nat, count: nat, end: nat): Option<seq<T>>
    decreases count
  {
    if count == 0 then (if at == end then Some([]) else None)
    else
      match read(at)
      case None => None
      case Some((first, next)) =>
        var rest := ReadAll(read, next, count - 1, end);
        if rest.None? then None else Some([first] + rest.value)
  }

  /** A one-disk archive without a comment. */
  function ReadMembers(b: seq<Octet>): Option<seq<Member>> {
    if |b| < 22 then None
    else
      var at := |b| - 22;
      if !HasBytes(b, at, END_SIG) || Le16(b, at + 20) != 0 || Le16(b, at + 8) != Le16(b, at + 10) then None
      else if Le16(b, at + 4) != 0 || Le16(b, at + 6) != 0 then None
      else
        var size, offset := Le32(b, at + 12), Le32(b, at + 16);
        if offset + size != at then None else ReadAll(RecordReader(b), offset, Le16(b, at + 10), at)
  }

  // ---- reading back a field ----

  lemma Holds(b: seq<Octet>, at: nat, x: seq<Octet>, y: seq<Octet>)
    requires HasBytes(b, at, x + y)
    ensures HasBytes(b, at, x) && HasBytes(b, at + |x|, y) && at + |x| + |y| <= |b|
  {
    assert b[at..at + |x|] == (x + y)[..|x|];
    assert b[at + |x|..at + |x| + |y|] == (x + y)[|x|..];
  }

  lemma ReadU16(b: seq<Octet>, at: nat, n: nat)
    requires HasBytes(b, at, U16(n)) && n < LIMIT16
    ensures Le16(b, at) == n
  {
    var two := b[at..at + 2];
    assert b[at] == two[0] && b[at + 1] == two[1];
  }

  lemma HalvesOf(n: nat)
    ensures U32(n) == U16(n % LIMIT16) + U16(n / LIMIT16)
  {
    SplitDigits(n);
  }

  /** The base-256 digits of a number and of its two halves. */
  lemma SplitDigits(n: nat)
    ensures n % 0x1_0000 % 256 == n % 256
    ensures n % 0x1_0000 / 256 % 256 == n / 256 % 256
    ensures n / 0x1_0000 / 256 == n / 0x100_0000
  {
    var low, high := n % 0x1_0000, n / 0x1_0000;
    assert n == 256 * (256 * high) + low;
    assert n / 256 == 256 * high + low / 256;
  }

  lemma ReadU32(b: seq<Octet>, at: nat, n: nat)
    requires HasBytes(b, at, U32(n)) && n < LIMIT32
    ensures Le32(b, at) == n
  {
    hide U16, U32, HasBytes, Le16;
    HalvesOf(n);
    Holds(b, at, U16(n % LIMIT16), U16(n / LIMIT16));
    SizeOfU16(n % LIMIT16);
    SizeOfU16(n / LIMIT16);
    ReadU16(b, at, n % LIMIT16);
    ReadU16(b, at + 2, n / LIMIT16);
  }

  lemma SizeOfU16(n: nat)
    ensures |U16(n)| == 2
  {
  }

  lemma {:induction false} Field16(b: seq<Octet>, at: nat, fields: seq<nat>, i: nat)
    requires at + 2 * |fields| <= |b| && b[at..at + 2 * |fields|] == U16s(fields)
    requires i < |fields| && fields[i] < LIMIT16
    ensures Le16(b, at + 2 * i) == fields[i]
    decreases i
  {
    Holds(b, at, U16(fields[0]), U16s(fields[1..]));
    if i == 0 {
      ReadU16(b, at, fields[0]);
    } else {
      Field16(b, at + 2, fields[1..], i - 1);
    }
  }

  lemma {:induction false} Field32(b: seq<Octet>, at: nat, fields: seq<nat>, i: nat)
    requires at + 4 * |fields| <= |b| && b[at..at + 4 * |fields|] == U32s(fields)
    requires i < |fields| && fields[i] < LIMIT32
    ensures Le32(b, at + 4 * i) == fields[i]
    decreases i
  {
    Holds(b, at, U32(fields[0]), U32s(fields[1..]));
    if i == 0 {
      ReadU32(b, at, fields[0]);
    } else {
      Field32(b, at + 4, fields[1..], i - 1);
    }
  }

  // ---- reading back a record ----

  /** A local header for `m` at `at`, its data behind it. */
  predicate LocalAt(b: seq<Octet>, at: nat, m: Member) {
    && at + 30 + |m.name| + |m.data| <= |b| && HasBytes(b, at, LOCAL_SIG)
    && Le16(b, at + 4) == 20 && PlainFields(b, at + 4)
    && Le32(b, at + 14) == m.crc && Le32(b, at + 18) == |m.data| == Le32(b, at + 22)
    && Le16(b, at + 26) == |m.name| && Le16(b, at + 28) == 0
    && HasBytes(b, at + 30, m.name) && HasBytes(b, at + 30 + |m.name|, m.data)
  }

  lemma PlainFieldsRead(b: seq<Octet>, at: nat)
    requires HasBytes(b, at, U16s([20, 0, 0, 0, 0]))
    ensures at + 10 <= |b| && Le16(b, at) == 20 && PlainFields(b, at)
  {
    hide Le16, U16s;
    Field16(b, at, [20, 0, 0, 0, 0], 0);
    Field16(b, at, [20, 0, 0, 0, 0], 1);
    Field16(b, at, [20, 0, 0, 0, 0], 2);
    Field16(b, at, [20, 0, 0, 0, 0], 3);
    Field16(b, at, [20, 0, 0, 0, 0], 4);
  }

  lemma LocalPartRead(b: seq<Octet>, at: nat, m: Member)
    requires HasBytes(b, at, LocalPart(m)) && |m.name| < LIMIT16 && |m.data| < LIMIT32 && m.crc < LIMIT32
    ensures LocalAt(b, at, m)
  {
    hide HasBytes, Le16, Le32, U16s, U32s;
    var crc, size := m.crc, |m.data|;
    var f1, f2, f3 := U16s([20, 0, 0, 0, 0]), U32s([crc, size, size]), U16s([|m.name|, 0]);
    Holds(b, at, LOCAL_SIG + f1 + f2 + f3 + m.name, m.data);
    Holds(b, at, LOCAL_SIG + f1 + f2 + f3, m.name);
    Holds(b, at, LOCAL_SIG + f1 + f2, f3);
    Holds(b, at, LOCAL_SIG + f1, f2);
    Holds(b, at, LOCAL_SIG, f1);
    PlainFieldsRead(b, at + 4);
    Field32(b, at + 14, [crc, size, size], 0);
    Field32(b, at + 14, [crc, size, size], 1);
    Field32(b, at + 14, [crc, size, size], 2);
    Field16(b, at + 26, [|m.name|, 0], 0);
    Field16(b, at + 26, [|m.name|, 0], 1);
  }

  /** A local header reads back as its entry. */
  lemma LocalReadBack(b: seq<Octet>, at: nat, m: Member)
    requires LocalAt(b, at, m)
    ensures ReadLocal(b, at, m.crc, |m.data|, m.name) == Some(m)
  {
  }

  /** A directory record for `m` at `at`, pointing to `offset`. */
  predicate CentralAt(b: seq<Octet>, at: nat, m: Member, offset: nat) {
    && at + 46 + |m.name| <= |b| && HasBytes(b, at, CENTRAL_SIG) && PlainRecord(b, at) && Le16(b, at + 6) == 20
    && Le32(b, at + 16) == m.crc && Le32(b, at + 20) == |m.data| == Le32(b, at + 24)
    && Le16(b, at + 28) == |m.name| && Le16(b, at + 30) == 0 && Le16(b, at + 32) == 0
    && Le32(b, at + 42) == offset && HasBytes(b, at + 46, m.name)
  }

  lemma U16sSplit(first: nat, rest: seq<nat>)
    ensures U16s([first] + rest) == U16s([first]) + U16s(rest)
  {
    assert ([first] + rest)[1..] == rest && [first][1..] == [];
  }

  lemma CentralRecordRead(b: seq<Octet>, at: nat, m: Member, offset: nat)
    requires HasBytes(b, at, CentralRecord(m, offset))
    requires |m.name| < LIMIT16 && |m.data| < LIMIT32 && m.crc < LIMIT32 && offset < LIMIT32
    ensures CentralAt(b, at, m, offset)
  {
    hide HasBytes, Le16, Le32, U16s, U32s;
    var crc, size := m.crc, |m.data|;
    var f1, f2 := U16s([20, 20, 0, 0, 0, 0]), U32s([crc, size, size]);
    var f3, f4 := U16s([|m.name|, 0, 0, 0, 0]), U32s([0, offset]);
    Holds(b, at, CENTRAL_SIG + f1 + f2 + f3 + f4, m.name);
    Holds(b, at, CENTRAL_SIG + f1 + f2 + f3, f4);
    Holds(b, at, CENTRAL_SIG + f1 + f2, f3);
    Holds(b, at, CENTRAL_SIG + f1, f2);
    Holds(b, at, CENTRAL_SIG, f1);
    U16sSplit(20, [20, 0, 0, 0, 0]);
    assert [20] + [20, 0, 0, 0, 0] == [20, 20, 0, 0, 0, 0];
    Holds(b, at + 4, U16s([20]), U16s([20, 0, 0, 0, 0]));
    PlainFieldsRead(b, at + 6);
    Field16(b, at + 4, [20], 0);
    Field32(b, at + 16, [crc, size, size], 0);
    Field32(b, at + 16, [crc, size, size], 1);
    Field32(b, at + 16, [crc, size, size], 2);
    Field16(b, at + 28, [|m.name|, 0, 0, 0, 0], 0);
    Field16(b, at + 28, [|m.name|, 0, 0, 0, 0], 1);
    Field16(b, at + 28, [|m.name|, 0, 0, 0, 0], 2);
    Field16(b, at + 28, [|m.name|, 0, 0, 0, 0], 3);
    Field16(b, at + 28, [|m.name|, 0, 0, 0, 0], 4);
    Field32(b, at + 38, [0, offset], 0);
    Field32(b, at + 38, [0, offset], 1);
  }

  lemma CentralLength(m: Member, offset: nat)
    ensures |CentralRecord(m, offset)| == 46 + |m.name|
  {
  }

  /** The end record at `at`. */
  predicate EndAt(b: seq<Octet>, at: nat, count: nat, size: nat, offset: nat) {
    && at + 22 == |b| && HasBytes(b, at, END_SIG) && Le16(b, at + 8) == count == Le16(b, at + 10)
    && Le16(b, at + 4) == 0 == Le16(b, at + 6)
    && Le32(b, at + 12) == size && Le32(b, at + 16) == offset && Le16(b, at + 20) == 0
  }

  lemma EndRecordRead(b: seq<Octet>, at: nat, count: nat, size: nat, offset: nat)
    requires HasBytes(b, at, EndRecord(count, size, offset)) && at + 22 == |b|
    requires count < LIMIT16 && size < LIMIT32 && offset < LIMIT32
    ensures EndAt(b, at, count, size, offset)
  {
    var f1, f2, f3 := U16s([0, 0, count, count]), U32s([size, offset]), U16s([0]);
    Holds(b, at, END_SIG + f1 + f2, f3);
    Holds(b, at, END_SIG + f1, f2);
    Holds(b, at, END_SIG, f1);
    Field16(b, at + 4, [0, 0, count, count], 0);
    Field16(b, at + 4, [0, 0, count, count], 1);
    Field16(b, at + 4, [0, 0, count, count], 2);
    Field16(b, at + 4, [0, 0, count, count], 3);
    Field32(b, at + 12, [size, offset], 0);
    Field32(b, at + 12, [size, offset], 1);
    Field16(b, at + 20, [0], 0);
  }

  lemma EndLength(count: nat, size: nat, offset: nat)
    ensures |EndRecord(count, size, offset)| == 22
  {
  }

  // ---- sizes ----

  lemma LocalLength(m: Member)
    ensures |LocalPart(m)| == 30 + |m.name| + |m.data|
  {
  }

  lemma {:induction false} LocalSizeIs(members: seq<Member>)
    ensures |Flat(LocalParts(members))| == LocalSize(members)
  {
    if members != [] {
      hide LocalPart;
      var n := |members| - 1;
      LocalSizeIs(members[..n]);
      LocalLength(members[n]);
      assert LocalParts(members)[..n] == LocalParts(members[..n]);
    }
  }

  lemma {:induction false} CentralSizeIs(members: seq<Member>)
    ensures |Flat(CentralParts(members))| == CentralSize(members)
  {
    if members != [] {
      hide CentralParts, CentralRecord, OffsetOf;
      var n := |members| - 1;
      CentralSizeIs(members[..n]);
      CentralOfFront(members);
    }
  }

  lemma CentralOfFront(members: seq<Member>)
    requires members != []
    ensures var n := |members| - 1;
      CentralParts(members)[..n] == CentralParts(members[..n]) && |CentralParts(members)[n]| == 46 + |members[n].name|
  {
    hide LocalParts, CentralRecord, OffsetOf;
    var n := |members| - 1;
    CentralLength(members[n], OffsetOf(members, n));
    forall i | 0 <= i < n ensures CentralParts(members)[i] == CentralParts(members[..n])[i] {
      SameOffset(members, n, i);
    }
  }

  lemma SameOffset(members: seq<Member>, n: nat, i: nat)
    requires i <= n <= |members|
    ensures OffsetOf(members, i) == OffsetOf(members[..n], i)
  {
    hide LocalPart;
    assert LocalParts(members)[..i] == LocalParts(members[..n])[..i];
  }

  // ---- reading back the archive ----

  /** Each part of a flattened sequence lies behind the parts before it. */
  lemma {:induction false} FlatAt(b: seq<Octet>, base: nat, parts: seq<seq<Octet>>, i: nat)
    requires HasBytes(b, base, Flat(parts)) && i < |parts|
    ensures HasBytes(b, base + |Flat(parts[..i])|, parts[i])
    ensures |Flat(parts[..i + 1])| == |Flat(parts[..i])| + |parts[i]| <= |Flat(parts)|
  {
    var n := |parts| - 1;
    Holds(b, base, Flat(parts[..n]), parts[n]);
    if i < n {
      FlatAt(b, base, parts[..n], i);
      assert parts[..n][..i] == parts[..i] && parts[..n][..i + 1] == parts[..i + 1];
    } else {
      assert parts[..i + 1] == parts;
    }
  }

  /** What the reader does with a record whose fields are known. */
  lemma RecordRead(b: seq<Octet>, at: nat, m: Member, offset: nat)
    requires CentralAt(b, at, m, offset) && SameVersion(b, at, offset)
    ensures ReadRecord(b, at) ==
      var read := ReadLocal(b, offset, m.crc, |m.data|, m.name);
      if read.None? then None else Some((read.value, at + 46 + |m.name|))
  {
    hide ReadLocal, SameVersion, PlainRecord, PlainFields, Le16, Le32;
    assert b[at + 46..at + 46 + |m.name|] == m.name;
  }

  lemma VersionsAgree(b: seq<Octet>, at: nat, m: Member, offset: nat)
    requires CentralAt(b, at, m, offset) && LocalAt(b, offset, m)
    ensures SameVersion(b, at, offset)
  {
    hide PlainRecord, PlainFields, Le16, Le32, HasBytes;
  }

  /** A directory record and the local header it points to read back as their member. */
  lemma RecordReadBack(b: seq<Octet>, at: nat, m: Member, offset: nat)
    requires CentralAt(b, at, m, offset) && LocalAt(b, offset, m)
    ensures ReadRecord(b, at) == Some((m, at + 46 + |m.name|))
  {
    hide CentralAt, LocalAt, ReadLocal, ReadRecord, SameVersion;
    VersionsAgree(b, at, m, offset);
    LocalReadBack(b, offset, m);
    RecordRead(b, at, m, offset);
  }

  lemma MemberReadBack(b: seq<Octet>, at: nat, m: Member, offset: nat)
    requires HasBytes(b, offset, LocalPart(m)) && HasBytes(b, at, CentralRecord(m, offset))
    requires |m.name| < LIMIT16 && |m.data| < LIMIT32 && m.crc < LIMIT32 && offset < LIMIT32
    ensures ReadRecord(b, at) == Some((m, at + |CentralRecord(m, offset)|))
  {
    hide LocalPart, CentralRecord, LocalAt, CentralAt, ReadLocal, ReadRecord, HasBytes;
    LocalPartRead(b, offset, m);
    CentralRecordRead(b, at, m, offset);
    CentralLength(m, offset);
    RecordReadBack(b, at, m, offset);
  }

  /** Items that read back where they are, each up to the next, are all read. */
  lemma {:induction false} ReadAllBack<T>(read: nat -> Option<(T, nat)>, items: seq<T>, places: seq<nat>, i: nat)
    requires |places| == |items| + 1 && i <= |items|
    requires forall j, k :: 0 <= j < |items| && k == j + 1 ==> read(places[j]) == Some((items[j], places[k]))
    ensures ReadAll(read, places[i], |items| - i, places[|items|]) == Some(items[i..])
    decreases |items| - i
  {
    if i < |items| {
      ReadAllBack(read, items, places, i + 1);
      assert items[i..] == [items[i]] + items[i + 1..];
    }
  }

  /** An archive's bytes around its three sections. */
  lemma Sections(members: seq<Member>)
    ensures var b, l, c := Archive(members), Flat(LocalParts(members)), Flat(CentralParts(members));
            && HasBytes(b, 0, l) && HasBytes(b, |l|, c) && |b| == |l| + |c| + 22
            && HasBytes(b, |l| + |c|, EndRecord(|members|, |c|, |l|))
  {
    hide LocalParts, CentralParts, EndRecord, Flat;
    var b, l, c := Archive(members), Flat(LocalParts(members)), Flat(CentralParts(members));
    var end := EndRecord(|members|, |c|, |l|);
    EndLength(|members|, |c|, |l|);
    assert HasBytes(b, 0, l + c + end);
    Holds(b, 0, l + c, end);
    Holds(b, 0, l, c);
  }

  /** Each part of the two flattened sections, where it is. */
  lemma PartsPlaced(b: seq<Octet>, locals: seq<seq<Octet>>, centrals: seq<seq<Octet>>, i: nat)
    requires i < |locals| == |centrals| && HasBytes(b, 0, Flat(locals)) && HasBytes(b, |Flat(locals)|, Flat(centrals))
    ensures HasBytes(b, |Flat(locals[..i])|, locals[i]) && |Flat(locals[..i])| <= |Flat(locals)|
    ensures HasBytes(b, |Flat(locals)| + |Flat(centrals[..i])|, centrals[i])
    ensures |Flat(centrals[..i + 1])| == |Flat(centrals[..i])| + |centrals[i]|
  {
    FlatAt(b, 0, locals, i);
    FlatAt(b, |Flat(locals)|, centrals, i);
  }

  lemma MemberInArchive(b: seq<Octet>, members: seq<Member>, i: nat)
    requires Fits(members) && i < |members| && HasBytes(b, 0, Flat(LocalParts(members)))
    requires HasBytes(b, |Flat(LocalParts(members))|, Flat(CentralParts(members)))
    ensures var base, c := |Flat(LocalParts(members))|, CentralParts(members);
            ReadRecord(b, base + |Flat(c[..i])|) == Some((members[i], base + |Flat(c[..i + 1])|))
  {
    hide LocalPart, CentralRecord, ReadRecord, HasBytes, Flat;
    LocalSizeIs(members);
    PartsPlaced(b, LocalParts(members), CentralParts(members), i);
    MemberReadBack(b, |Flat(LocalParts(members))| + |Flat(CentralParts(members)[..i])|, members[i],
                   OffsetOf(members, i));
  }

  lemma FlatOfNone()
    ensures Flat([]) == []
  {
  }

  lemma DirectoryReadBack(b: seq<Octet>, members: seq<Member>)
    requires Fits(members) && HasBytes(b, 0, Flat(LocalParts(members)))
    requires HasBytes(b, |Flat(LocalParts(members))|, Flat(CentralParts(members)))
    ensures var base, size := |Flat(LocalParts(members))|, |Flat(CentralParts(members))|;
            ReadAll(RecordReader(b), base, |members|, base + size) == Some(members)
  {
    hide ReadRecord, HasBytes, Flat, LocalParts, CentralParts, Fits, ReadAll;
    var base, c := |Flat(LocalParts(members))|, CentralParts(members);
    var places := seq(|members| + 1, i requires 0 <= i <= |members| => base + |Flat(c[..i])|);
    forall i, k | 0 <= i < |members| && k == i + 1
      ensures RecordReader(b)(places[i]) == Some((members[i], places[k]))
    {
      MemberInArchive(b, members, i);
    }
    ReadAllBack(RecordReader(b), members, places, 0);
    FlatOfNone();
    assert c[..|members|] == c && c[..0] == [] && members[0..] == members;
  }

  /** Reading an archive gives back exactly the members it was made of, in order. */
  lemma MembersReadBack(members: seq<Member>)
    requires Fits(members)
    ensures ReadMembers(Archive(members)) == Some(members)
  {
    hide RecordReader, ReadRecord, CentralRecord, LocalPart, EndRecord, Archive, Flat;
    var b, l, c := Archive(members), Flat(LocalParts(members)), Flat(CentralParts(members));
    Sections(members);
    LocalSizeIs(members);
    CentralSizeIs(members);
    EndRecordRead(b, |l| + |c|, |members|, |c|, |l|);
    DirectoryReadBack(b, members);
  }
}
