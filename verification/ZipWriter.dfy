/** The ZIP writer of table-export.ts, in its own loops, and its round trip with the reader. */
module ZipWriter {
  import opened Wrappers
  import opened Crc32
  import opened Zip

  function Bytes(data: seq<Octet>): seq<Byte> {
    seq(|data|, i requires 0 <= i < |data| => data[i] as Byte)
  }

  function Checksum(data: seq<Octet>): (c: nat)
    ensures c < LIMIT32
  {
    Crc(Bytes(data)) as int
  }

  function MemberOf(e: Entry): Member { Member(e.name, e.data, Checksum(e.data)) }

  function MembersOf(entries: seq<Entry>): (members: seq<Member>)
    ensures |members| == |entries| && forall i :: 0 <= i < |entries| ==> members[i] == MemberOf(entries[i])
  {
    seq(|entries|, i requires 0 <= i < |entries| => MemberOf(entries[i]))
  }

  /** The entries of an archive whose checksums are right. */
  function ReadArchive(b: seq<Octet>): Option<seq<Entry>> {
    var members := ReadMembers(b);
    if members.None? || exists i :: 0 <= i < |members.value| && Checksum(members.value[i].data) != members.value[i].crc
    then None
    else
      var ms := members.value;
      Some(seq(|ms|, i requires 0 <= i < |ms| => Entry(ms[i].name, ms[i].data)))
  }

  /** Whatever is zipped within the field limits is read back: the same entries, in the same order. */
  lemma ArchiveReadBack(entries: seq<Entry>)
    requires Fits(MembersOf(entries))
    ensures ReadArchive(Archive(MembersOf(entries))) == Some(entries)
  {
    hide Checksum, Archive, ReadMembers, Fits;
    var ms := MembersOf(entries);
    MembersReadBack(ms);
    assert forall i :: 0 <= i < |ms| ==> Checksum(ms[i].data) == ms[i].crc;
    assert seq(|ms|, i requires 0 <= i < |ms| => Entry(ms[i].name, ms[i].data)) == entries;
  }

  lemma {:induction false} FlatAppend(a: seq<seq<Octet>>, b: seq<seq<Octet>>)
    ensures Flat(a + b) == Flat(a) + Flat(b)
  {
    if b == [] {
      assert a + b == a;
    } else {
      var n := |b| - 1;
      assert (a + b)[..|a| + n] == a + b[..n];
      FlatAppend(a, b[..n]);
    }
  }

  lemma FlatOne(c: seq<Octet>)
    ensures Flat([c]) == c
  {
    assert [c][..0] == [];
  }

  lemma FlatSnoc(parts: seq<seq<Octet>>, i: nat)
    requires i < |parts|
    ensures Flat(parts[..i + 1]) == Flat(parts[..i]) + parts[i]
  {
    assert parts[..i + 1][..i] == parts[..i];
  }

  /** Appending one chunk, or two, to a list of chunks. */
  lemma FlatChunks(chunks: seq<seq<Octet>>, x: seq<Octet>, y: seq<Octet>)
    ensures Flat(chunks + [x]) == Flat(chunks) + x
    ensures Flat(chunks + [x] + [y]) == Flat(chunks) + (x + y)
  {
    FlatSnoc(chunks + [x], |chunks|);
    FlatSnoc(chunks + [x] + [y], |chunks| + 1);
    assert (chunks + [x])[..|chunks|] == chunks;
    assert (chunks + [x])[..|chunks| + 1] == chunks + [x];
    assert (chunks + [x] + [y])[..|chunks| + 1] == chunks + [x];
    assert (chunks + [x] + [y])[..|chunks| + 2] == chunks + [x] + [y];
  }

  /** One more member adds its parts at the end of both sections. */
  lemma PartsGrow(members: seq<Member>, i: nat)
    requires i < |members|
    ensures Flat(LocalParts(members)[..i + 1]) == Flat(LocalParts(members)[..i]) + LocalPart(members[i])
    ensures Flat(CentralParts(members)[..i + 1])
         == Flat(CentralParts(members)[..i]) + CentralRecord(members[i], OffsetOf(members, i))
  {
    hide LocalPart, CentralRecord, Flat, OffsetOf;
    FlatSnoc(LocalParts(members), i);
    FlatSnoc(CentralParts(members), i);
  }

  /** The two parts of the archive before its end record, as the source's chunk lists. */
  method Records(table: array<bv32>, entries: seq<Entry>)
    returns (chunks: seq<seq<Octet>>, central: seq<seq<Octet>>, offset: nat)
    requires IsTable(table[..])
    ensures Flat(chunks) == Flat(LocalParts(MembersOf(entries))) && offset == |Flat(chunks)|
    ensures Flat(central) == Flat(CentralParts(MembersOf(entries)))
  {
    hide LocalRecord, CentralRecord, LocalParts, CentralParts, MemberOf, IsTable;
    ghost var ms := MembersOf(entries);
    chunks, central, offset := [], [], 0;
    for i := 0 to |entries|
      invariant Flat(chunks) == Flat(LocalParts(ms)[..i]) && offset == |Flat(chunks)|
      invariant Flat(central) == Flat(CentralParts(ms)[..i])
    {
      var m := Summed(table, entries[i]);
      PartsGrow(ms, i);
      var local := LocalRecord(m);
      FlatChunks(chunks, local, m.data);
      FlatChunks(central, CentralRecord(m, offset), []);
      chunks := chunks + [local] + [m.data];
      central := central + [CentralRecord(m, offset)];
      offset := offset + |local| + |m.data|;
    }
    assert LocalParts(ms)[..|entries|] == LocalParts(ms) && CentralParts(ms)[..|entries|] == CentralParts(ms);
  }

  method Summed(table: array<bv32>, e: Entry) returns (m: Member)
    requires IsTable(table[..])
    ensures m == MemberOf(e)
  {
    var crc := Crc32.Crc32(table, Bytes(e.data));
    m := Member(e.name, e.data, crc as int);
  }

  method TotalLength(parts: seq<seq<Octet>>) returns (total: nat)
    ensures total == |Flat(parts)|
  {
    total := 0;
    for i := 0 to |parts|
      invariant total == |Flat(parts[..i])|
    {
      assert parts[..i + 1][..i] == parts[..i];
      total := total + |parts[i]|;
    }
    assert parts[..|parts|] == parts;
  }

  /** `out.set(c, p)`: copies one part into the buffer, behind what is there. */
  method CopyPart(out: array<Octet>, c: seq<Octet>, p: nat)
    requires p + |c| <= out.Length
    modifies out
    ensures out[..p] == old(out[..p]) && out[p..p + |c|] == c
  {
    for k := 0 to |c|
      invariant out[..p] == old(out[..p]) && out[p..p + k] == c[..k]
    {
      out[p + k] := c[k];
    }
  }

  lemma NextPart(all: seq<seq<Octet>>, i: nat)
    requires i < |all|
    ensures Flat(all[..i + 1]) == Flat(all[..i]) + all[i] && |Flat(all[..i])| + |all[i]| <= |Flat(all)|
  {
    assert all[..i + 1][..i] == all[..i];
    FlatAppend(all[..i + 1], all[i + 1..]);
    assert all[..i + 1] + all[i + 1..] == all;
  }

  /** Copies all parts into one buffer. */
  method Concatenate(all: seq<seq<Octet>>) returns (out: array<Octet>)
    ensures out[..] == Flat(all)
  {
    hide Flat;
    var total := TotalLength(all);
    out := new Octet[total];
    var p := 0;
    FlatOfNone();
    assert all[..0] == [];
    for i := 0 to |all|
      invariant p == |Flat(all[..i])| <= total && out[..p] == Flat(all[..i])
    {
      NextPart(all, i);
      CopyPart(out, all[i], p);
      assert out[..p + |all[i]|] == out[..p] + out[p..p + |all[i]|];
      p := p + |all[i]|;
    }
    assert all[..|all|] == all;
  }

  /** Builds the stored ZIP of the entries. */
  method BuildZip(table: array<bv32>, entries: seq<Entry>) returns (out: array<Octet>)
    requires IsTable(table[..])
    ensures out[..] == Archive(MembersOf(entries))
    ensures Fits(MembersOf(entries)) ==> ReadArchive(out[..]) == Some(entries)
  {
    hide IsTable, EndRecord, Fits, ReadArchive;
    var chunks, central, offset := Records(table, entries);
    var centralSize := TotalLength(central);
    var eocd := EndRecord(|entries|, centralSize, offset);
    FlatAppend(chunks, central);
    FlatAppend(chunks + central, [eocd]);
    FlatOne(eocd);
    out := Concatenate(chunks + central + [eocd]);
    if Fits(MembersOf(entries)) {
      ArchiveReadBack(entries);
    }
  }
}
