/**
  The XLSX container check (validateXlsx of src/files/file-validation.ts) against the record
  layouts of sections 4.3.12 and 4.3.16 of PKWARE APPNOTE.TXT.
*/
module Xlsx {
  import opened Wrappers

  type Byte = b: int | 0 <= b <= 255

  type Bytes = seq<Byte>

  const LOCAL_HEADER: Bytes := [0x50, 0x4b, 0x03, 0x04]
  const END_OF_DIRECTORY: Bytes := [0x50, 0x4b, 0x05, 0x06]
  const CENTRAL_HEADER: Bytes := [0x50, 0x4b, 0x01, 0x02]

  // ----- Little-endian fields -----

  function Word(v: int): (bytes: Bytes)
    requires 0 <= v < 0x1_0000
    ensures |bytes| == 2
  {
    [v % 256, v / 256]
  }

  function Long(v: int): (bytes: Bytes)
    requires 0 <= v < 0x1_0000_0000
    ensures |bytes| == 4
  {
    [v % 256, v / 256 % 256, v / 65_536 % 256, v / 16_777_216]
  }

  function ReadWord(buffer: Bytes, offset: int): (v: int)
    requires 0 <= offset && offset + 2 <= |buffer|
    ensures 0 <= v < 0x1_0000 && Word(v) == buffer[offset..offset + 2]
  {
    buffer[offset] as int + 256 * buffer[offset + 1] as int
  }

  function ReadLong(buffer: Bytes, offset: int): (v: int)
    requires 0 <= offset && offset + 4 <= |buffer|
    ensures 0 <= v < 0x1_0000_0000
  {
    buffer[offset] as int + 256 * buffer[offset + 1] as int + 65_536 * buffer[offset + 2] as int
    + 16_777_216 * buffer[offset + 3] as int
  }

  predicate At(buffer: Bytes, offset: int, part: Bytes) {
    0 <= offset && offset + |part| <= |buffer| && buffer[offset..offset + |part|] == part
  }

  lemma WordAt(buffer: Bytes, offset: int, v: int)
    requires 0 <= v < 0x1_0000 && At(buffer, offset, Word(v))
    ensures ReadWord(buffer, offset) == v
  {
    var part := buffer[offset..offset + 2];
    assert buffer[offset] == part[0] && buffer[offset + 1] == part[1];
  }

  lemma LongAt(buffer: Bytes, offset: int, v: int)
    requires 0 <= v < 0x1_0000_0000
    ensures 0 <= offset && offset + 4 <= |buffer| ==> (ReadLong(buffer, offset) == v <==> At(buffer, offset, Long(v)))
  {
    if 0 <= offset && offset + 4 <= |buffer| {
      var part := buffer[offset..offset + 4];
      assert forall i :: 0 <= i < 4 ==> buffer[offset + i] == part[i];
      LongDigits(part[0], part[1], part[2], part[3], v);
    }
  }

  lemma LongDigits(a: Byte, b: Byte, c: Byte, d: Byte, v: int)
    requires 0 <= v < 0x1_0000_0000
    ensures a as int + 256 * b as int + 65_536 * c as int + 16_777_216 * d as int == v <==> [a, b, c, d] == Long(v)
  {
    var q1, q2, q3 := v / 256, v / 65_536, v / 16_777_216;
    assert q1 / 256 == q2 && q2 / 256 == q3;
    if a as int + 256 * b as int + 65_536 * c as int + 16_777_216 * d as int == v {
      SplitByte(b as int + 256 * c as int + 65_536 * d as int, a);
      SplitByte(c as int + 256 * d as int, b);
      SplitByte(d as int, c);
    }
  }

  lemma SplitByte(q: int, r: Byte)
    ensures (256 * q + r as int) / 256 == q && (256 * q + r as int) % 256 == r
  {
  }

  // ----- Central directory entries -----

  /** `fixed` and `rest` are the header fields before and after the three lengths. */
  datatype Entry = Entry(fixed: Bytes, rest: Bytes, name: Bytes, extra: Bytes, comment: Bytes)

  predicate EntryOk(e: Entry) {
    |e.fixed| == 24 && |e.rest| == 12 && |e.name| < 0x1_0000 && |e.extra| < 0x1_0000 && |e.comment| < 0x1_0000
  }

  predicate EntriesOk(entries: seq<Entry>) {
    forall e :: e in entries ==> EntryOk(e)
  }

  function Head(e: Entry): (head: Bytes)
    requires EntryOk(e)
    ensures |head| == 46
  {
    CENTRAL_HEADER + e.fixed + Word(|e.name|) + Word(|e.extra|) + Word(|e.comment|) + e.rest
  }

  function Encode(e: Entry): (bytes: Bytes)
    requires EntryOk(e)
  {
    Head(e) + e.name + e.extra + e.comment
  }

  function EncodeAll(entries: seq<Entry>): Bytes
    requires EntriesOk(entries)
  {
    if entries == [] then [] else Encode(entries[0]) + EncodeAll(entries[1..])
  }

  /** Where the entry at `offset` ends, by its three lengths. */
  function Next(buffer: Bytes, offset: int): int
    requires 0 <= offset && offset + 46 <= |buffer|
  {
    offset + 46 + ReadWord(buffer, offset + 28) + ReadWord(buffer, offset + 30) + ReadWord(buffer, offset + 32)
  }

  /** The checks of one iteration. */
  predicate EntryFits(buffer: Bytes, offset: int, limit: int)
    requires limit <= |buffer|
  {
    0 <= offset && offset + 46 <= limit && ReadLong(buffer, offset) == 0x02014b50 && Next(buffer, offset) <= limit
  }

  function Decode(buffer: Bytes, offset: int, limit: int): (e: Entry)
    requires limit <= |buffer| && EntryFits(buffer, offset, limit)
    ensures EntryOk(e)
  {
    var name := offset + 46;
    var extra := name + ReadWord(buffer, offset + 28);
    var comment := extra + ReadWord(buffer, offset + 30);
    Entry(buffer[offset + 4..offset + 28], buffer[offset + 34..offset + 46],
          buffer[name..extra], buffer[extra..comment], buffer[comment..Next(buffer, offset)])
  }

  lemma Join(buffer: Bytes, i: int, j: int, k: int)
    requires 0 <= i <= j <= k <= |buffer|
    ensures buffer[i..j] + buffer[j..k] == buffer[i..k]
  {
  }

  lemma HeadDecoded(buffer: Bytes, offset: int, limit: int)
    requires limit <= |buffer| && EntryFits(buffer, offset, limit)
    ensures Head(Decode(buffer, offset, limit)) == buffer[offset..offset + 46]
  {
    LongAt(buffer, offset, 0x02014b50);
    assert Long(0x02014b50) == CENTRAL_HEADER;
    Join(buffer, offset, offset + 4, offset + 28);
    Join(buffer, offset, offset + 28, offset + 30);
    Join(buffer, offset, offset + 30, offset + 32);
    Join(buffer, offset, offset + 32, offset + 34);
    Join(buffer, offset, offset + 34, offset + 46);
  }

  /** Decoding loses nothing. */
  lemma EncodeDecoded(buffer: Bytes, offset: int, limit: int)
    requires limit <= |buffer| && EntryFits(buffer, offset, limit)
    ensures Encode(Decode(buffer, offset, limit)) == buffer[offset..Next(buffer, offset)]
  {
    HeadDecoded(buffer, offset, limit);
    hide Head, ReadWord, ReadLong;
    var e := Decode(buffer, offset, limit);
    var name, end := offset + 46, Next(buffer, offset);
    Join(buffer, offset, name, name + |e.name|);
    Join(buffer, offset, name + |e.name|, name + |e.name| + |e.extra|);
    Join(buffer, offset, name + |e.name| + |e.extra|, end);
  }

  lemma PartAt(buffer: Bytes, offset: int, part: Bytes, i: int, j: int)
    requires At(buffer, offset, part) && 0 <= i <= j <= |part|
    ensures buffer[offset + i..offset + j] == part[i..j] && At(buffer, offset + i, part[i..j])
  {
    var whole := buffer[offset..offset + |part|];
    assert forall k :: i <= k < j ==> buffer[offset + k] == whole[k];
  }

  lemma Layout(e: Entry)
    requires EntryOk(e)
    ensures var bytes, extra, comment := Encode(e), 46 + |e.name|, 46 + |e.name| + |e.extra|;
            bytes[0..4] == CENTRAL_HEADER && bytes[4..28] == e.fixed && bytes[34..46] == e.rest &&
            bytes[28..30] == Word(|e.name|) && bytes[30..32] == Word(|e.extra|) && bytes[32..34] == Word(|e.comment|) &&
            bytes[46..extra] == e.name && bytes[extra..comment] == e.extra && bytes[comment..|bytes|] == e.comment &&
            |bytes| == comment + |e.comment|
  {
    HeadLayout(e);
    hide Head;
    var head, bytes := Head(e), Encode(e);
    assert bytes[0..4] == head[0..4] && bytes[4..28] == head[4..28] && bytes[34..46] == head[34..46];
    assert bytes[28..30] == head[28..30] && bytes[30..32] == head[30..32] && bytes[32..34] == head[32..34];
  }

  lemma HeadLayout(e: Entry)
    requires EntryOk(e)
    ensures var head := Head(e);
            head[0..4] == CENTRAL_HEADER && head[4..28] == e.fixed && head[34..46] == e.rest &&
            head[28..30] == Word(|e.name|) && head[30..32] == Word(|e.extra|) && head[32..34] == Word(|e.comment|)
  {
    hide Word;
  }

  /** An encoded entry is accepted where it stands, and decodes to itself. */
  lemma DecodeEncoded(buffer: Bytes, offset: int, limit: int, e: Entry)
    requires EntryOk(e) && limit <= |buffer| && At(buffer, offset, Encode(e)) && offset + |Encode(e)| <= limit
    ensures EntryFits(buffer, offset, limit) && Next(buffer, offset) == offset + |Encode(e)|
    ensures Decode(buffer, offset, limit) == e
  {
    HeadEncoded(buffer, offset, e);
    var bytes := Encode(e);
    var extra, comment := 46 + |e.name|, 46 + |e.name| + |e.extra|;
    Layout(e);
    hide Encode, ReadWord, ReadLong, Word, Long;
    PartAt(buffer, offset, bytes, 4, 28);
    PartAt(buffer, offset, bytes, 34, 46);
    PartAt(buffer, offset, bytes, 46, extra);
    PartAt(buffer, offset, bytes, extra, comment);
    PartAt(buffer, offset, bytes, comment, |bytes|);
  }

  /** The signature and the three lengths of an encoded entry. */
  lemma HeadEncoded(buffer: Bytes, offset: int, e: Entry)
    requires EntryOk(e) && At(buffer, offset, Encode(e))
    ensures |Encode(e)| == 46 + |e.name| + |e.extra| + |e.comment| && ReadLong(buffer, offset) == 0x02014b50
    ensures ReadWord(buffer, offset + 28) == |e.name| && ReadWord(buffer, offset + 30) == |e.extra|
    ensures ReadWord(buffer, offset + 32) == |e.comment|
  {
    var bytes := Encode(e);
    Layout(e);
    assert Long(0x02014b50) == CENTRAL_HEADER;
    hide Encode, ReadWord, ReadLong, Word, Long;
    PartAt(buffer, offset, bytes, 0, 4);
    PartAt(buffer, offset, bytes, 28, 30);
    PartAt(buffer, offset, bytes, 30, 32);
    PartAt(buffer, offset, bytes, 32, 34);
    LongAt(buffer, offset, 0x02014b50);
    WordAt(buffer, offset + 28, |e.name|);
    WordAt(buffer, offset + 30, |e.extra|);
    WordAt(buffer, offset + 32, |e.comment|);
  }

  /** `n` entries from `offset` on, none beyond `limit`. */
  function Parse(buffer: Bytes, offset: int, n: nat, limit: int): (r: Option<seq<Entry>>)
    requires limit <= |buffer|
    ensures r.Some? ==> EntriesOk(r.value)
    decreases n
  {
    if n == 0 then Some([])
    else if !EntryFits(buffer, offset, limit) then None
    else
      match Parse(buffer, Next(buffer, offset), n - 1, limit)
      case None => None
      case Some(entries) => Some([Decode(buffer, offset, limit)] + entries)
  }

  /** Parsing finds a directory exactly where an encoded one stands. */
  lemma {:induction false} ParseExact(buffer: Bytes, offset: int, n: nat, limit: int, entries: seq<Entry>)
    requires 0 <= offset <= limit <= |buffer| && EntriesOk(entries)
    ensures Parse(buffer, offset, n, limit) == Some(entries) <==>
            |entries| == n && At(buffer, offset, EncodeAll(entries)) && offset + |EncodeAll(entries)| <= limit
    decreases n
  {
    hide Encode, EntryFits, Decode, Next;
    if n == 0 {
      if entries == [] { assert buffer[offset..offset] == []; }
    } else {
      if EntryFits(buffer, offset, limit) {
        var next := NextInside(buffer, offset, limit);
        EncodeDecoded(buffer, offset, limit);
        if entries != [] {
          ParseExact(buffer, next, n - 1, limit, entries[1..]);
          if entries[0] == Decode(buffer, offset, limit) {
            SplitAt(buffer, offset, Encode(entries[0]), EncodeAll(entries[1..]));
          }
          assert [entries[0]] + entries[1..] == entries;
          if Parse(buffer, next, n - 1, limit).Some? {
            var tail := Parse(buffer, next, n - 1, limit).value;
            assert ([Decode(buffer, offset, limit)] + tail)[1..] == tail;
          }
        }
      }
      if |entries| == n && At(buffer, offset, EncodeAll(entries)) && offset + |EncodeAll(entries)| <= limit {
        SplitAt(buffer, offset, Encode(entries[0]), EncodeAll(entries[1..]));
        DecodeEncoded(buffer, offset, limit, entries[0]);
      }
    }
  }

  lemma NextInside(buffer: Bytes, offset: int, limit: int) returns (next: int)
    requires limit <= |buffer| && EntryFits(buffer, offset, limit)
    ensures 0 <= offset && offset + 46 <= |buffer| && next == Next(buffer, offset) && offset < next <= limit
  {
    next := Next(buffer, offset);
  }

  lemma SplitAt(buffer: Bytes, offset: int, left: Bytes, right: Bytes)
    ensures At(buffer, offset, left + right) <==> At(buffer, offset, left) && At(buffer, offset + |left|, right)
  {
    if 0 <= offset && offset + |left| + |right| <= |buffer| {
      var whole := buffer[offset..offset + |left| + |right|];
      assert whole[..|left|] == buffer[offset..offset + |left|];
      assert whole[|left|..] == buffer[offset + |left|..offset + |left| + |right|];
      assert (left + right)[..|left|] == left && (left + right)[|left|..] == right;
      assert whole == whole[..|left|] + whole[|left|..];
    }
  }

  // ----- The end-of-directory record -----

  /** Buffer.lastIndexOf for a four-byte signature. */
  function LastIndexOf(buffer: Bytes, part: Bytes): (r: int)
    ensures r == -1 || At(buffer, r, part)
    ensures forall i :: r < i ==> !At(buffer, i, part)
  {
    LastIndexUpTo(buffer, part, |buffer|)
  }

  function LastIndexUpTo(buffer: Bytes, part: Bytes, from: nat): (r: int)
    requires forall i :: from < i ==> !At(buffer, i, part)
    ensures r == -1 || At(buffer, r, part)
    ensures forall i :: r < i ==> !At(buffer, i, part)
    decreases from
  {
    if At(buffer, from, part) then from
    else if from == 0 then -1
    else LastIndexUpTo(buffer, part, from - 1)
  }

  datatype Directory = Directory(end: int, count: int, size: int, offset: int)

  /** The guards before the loop. */
  function Locate(buffer: Bytes): (r: Option<Directory>)
    ensures r.Some? ==> 2 <= r.value.count && 0 <= r.value.offset && 0 <= r.value.size
    ensures r.Some? ==> r.value.offset + r.value.size <= r.value.end && r.value.end + 22 <= |buffer|
  {
    if |buffer| < 22 || buffer[..4] != LOCAL_HEADER then None
    else
      var end := LastIndexOf(buffer, END_OF_DIRECTORY);
      if end < (if |buffer| > 65_557 then |buffer| - 65_557 else 0) || end + 22 > |buffer| then None
      else
        var d := Directory(end, ReadWord(buffer, end + 10), ReadLong(buffer, end + 12), ReadLong(buffer, end + 16));
        if d.count < 2 || d.offset + d.size > end || d.offset >= |buffer| then None else Some(d)
  }

  const CONTENT_TYPES: Bytes :=
    [0x5b, 0x43, 0x6f, 0x6e, 0x74, 0x65, 0x6e, 0x74, 0x5f, 0x54, 0x79, 0x70, 0x65, 0x73, 0x5d, 0x2e, 0x78, 0x6d, 0x6c]
  const WORKBOOK: Bytes :=
    [0x78, 0x6c, 0x2f, 0x77, 0x6f, 0x72, 0x6b, 0x62, 0x6f, 0x6f, 0x6b, 0x2e, 0x78, 0x6d, 0x6c]

  predicate Named(entries: seq<Entry>, name: Bytes) {
    exists i :: 0 <= i < |entries| && entries[i].name == name
  }

  /** The located directory is filled by `entries`, which name both required parts. */
  predicate Fills(buffer: Bytes, d: Directory, entries: seq<Entry>) {
    && |entries| == d.count && EntriesOk(entries)
    && |EncodeAll(entries)| == d.size && At(buffer, d.offset, EncodeAll(entries))
    && Named(entries, CONTENT_TYPES) && Named(entries, WORKBOOK)
  }

  ghost predicate IsWorkbookArchive(buffer: Bytes) {
    Locate(buffer).Some? && exists entries :: Fills(buffer, Locate(buffer).value, entries)
  }

  function Names(entries: seq<Entry>): set<Bytes> {
    set i | 0 <= i < |entries| :: entries[i].name
  }

  /** Accepts exactly the archives whose last end record points at the encoding of that many entries. */
  method ValidateXlsx(buffer: Bytes) returns (valid: bool)
    ensures valid <==> IsWorkbookArchive(buffer)
  {
    var located := Locate(buffer);
    if located.None? {
      return false;
    }
    var d := located.value;
    var names: set<Bytes> := {};
    ghost var entries: seq<Entry> := [];
    var offset := d.offset;
    var index := 0;
    Start(buffer, d);
    while index < d.count
      invariant 0 <= index <= d.count
      invariant Walked(buffer, d, index, offset, names, entries)
    {
      if !EntryFits(buffer, offset, d.end) {
        Stuck(buffer, d, index, offset, names, entries);
        return false;
      }
      var e := Decode(buffer, offset, d.end);
      Walk(buffer, d, index, offset, names, entries);
      entries := entries + [e];
      names := names + {e.name};
      offset := Next(buffer, offset);
      index := index + 1;
    }
    Arrived(buffer, d, offset, names, entries);
    valid := offset == d.offset + d.size && CONTENT_TYPES in names && WORKBOOK in names;
  }

  /** The state of the loop: `entries` were read so far, and the rest of the directory starts at `offset`. */
  ghost predicate Walked(buffer: Bytes, d: Directory, index: int, offset: int, names: set<Bytes>, entries: seq<Entry>) {
    && d.end <= |buffer| && 0 <= index == |entries| <= d.count
    && names == Names(entries)
    && EntriesOk(entries) && offset == d.offset + |EncodeAll(entries)|
    && var all, more := Parse(buffer, d.offset, d.count, d.end), Parse(buffer, offset, d.count - index, d.end);
       all == if more.Some? then Some(entries + more.value) else None
  }

  lemma Start(buffer: Bytes, d: Directory)
    requires Locate(buffer) == Some(d)
    ensures Walked(buffer, d, 0, d.offset, {}, [])
  {
    var all := Parse(buffer, d.offset, d.count, d.end);
    if all.Some? {
      assert [] + all.value == all.value;
    }
  }

  lemma Walk(buffer: Bytes, d: Directory, index: int, offset: int, names: set<Bytes>, entries: seq<Entry>)
    requires Walked(buffer, d, index, offset, names, entries) && index < d.count && EntryFits(buffer, offset, d.end)
    ensures var e := Decode(buffer, offset, d.end);
            Walked(buffer, d, index + 1, Next(buffer, offset), names + {e.name}, entries + [e])
  {
    hide Decode, EncodeAll, Encode, Names, Parse, ReadWord, ReadLong;
    var e := Decode(buffer, offset, d.end);
    EncodeDecoded(buffer, offset, d.end);
    Extend(entries, e);
    ExtendParse(buffer, offset, d, index, entries, e);
  }

  lemma Stuck(buffer: Bytes, d: Directory, index: int, offset: int, names: set<Bytes>, entries: seq<Entry>)
    requires Locate(buffer) == Some(d) && Walked(buffer, d, index, offset, names, entries)
    requires index < d.count && !EntryFits(buffer, offset, d.end)
    ensures !IsWorkbookArchive(buffer)
  {
    hide EntryFits, Locate;
    NoArchive(buffer, d);
  }

  lemma Arrived(buffer: Bytes, d: Directory, offset: int, names: set<Bytes>, entries: seq<Entry>)
    requires Locate(buffer) == Some(d) && Walked(buffer, d, d.count, offset, names, entries)
    ensures IsWorkbookArchive(buffer) <==> offset == d.offset + d.size && CONTENT_TYPES in names && WORKBOOK in names
  {
    hide Locate;
    assert entries + [] == entries;
    Decided(buffer, d, entries);
  }

  lemma NoArchive(buffer: Bytes, d: Directory)
    requires Locate(buffer) == Some(d) && Parse(buffer, d.offset, d.count, d.end) == None
    ensures !IsWorkbookArchive(buffer)
  {
    forall entries | Fills(buffer, d, entries) ensures false {
      ParseExact(buffer, d.offset, d.count, d.end, entries);
    }
  }

  lemma Decided(buffer: Bytes, d: Directory, entries: seq<Entry>)
    requires Locate(buffer) == Some(d) && EntriesOk(entries) && Parse(buffer, d.offset, d.count, d.end) == Some(entries)
    ensures IsWorkbookArchive(buffer) <==>
            |EncodeAll(entries)| == d.size && CONTENT_TYPES in Names(entries) && WORKBOOK in Names(entries)
  {
    ParseExact(buffer, d.offset, d.count, d.end, entries);
    forall other | Fills(buffer, d, other) ensures other == entries {
      ParseExact(buffer, d.offset, d.count, d.end, other);
    }
    if |EncodeAll(entries)| == d.size && CONTENT_TYPES in Names(entries) && WORKBOOK in Names(entries) {
      assert Fills(buffer, d, entries);
    }
  }

  lemma {:induction false} Extend(entries: seq<Entry>, e: Entry)
    requires EntriesOk(entries) && EntryOk(e)
    ensures EntriesOk(entries + [e]) && |EncodeAll(entries + [e])| == |EncodeAll(entries)| + |Encode(e)|
    ensures Names(entries + [e]) == Names(entries) + {e.name}
  {
    EncodeAllAppend(entries, [e]);
    assert EncodeAll([e]) == Encode(e) + EncodeAll([]);
    var longer := entries + [e];
    assert longer[|entries|].name == e.name;
    assert forall i :: 0 <= i < |entries| ==> longer[i].name == entries[i].name;
  }

  lemma {:induction false} EncodeAllAppend(left: seq<Entry>, right: seq<Entry>)
    requires EntriesOk(left) && EntriesOk(right)
    ensures EntriesOk(left + right) && EncodeAll(left + right) == EncodeAll(left) + EncodeAll(right)
  {
    hide Encode;
    if left == [] {
      assert left + right == right;
    } else {
      EncodeAllAppend(left[1..], right);
      assert (left + right)[1..] == left[1..] + right;
    }
  }

  lemma ExtendParse(buffer: Bytes, offset: int, d: Directory, index: nat, entries: seq<Entry>, e: Entry)
    requires d.end <= |buffer| && index < d.count && EntryFits(buffer, offset, d.end)
    requires e == Decode(buffer, offset, d.end)
    ensures var here := Parse(buffer, offset, d.count - index, d.end);
            var more := Parse(buffer, Next(buffer, offset), d.count - (index + 1), d.end);
            (here.Some? <==> more.Some?) && (here.Some? ==> entries + here.value == entries + [e] + more.value)
  {
    hide EntryFits, Decode, Next;
  }

  // ----- Round trip -----

  function EndRecord(disks: Bytes, count: int, size: int, offset: int, comment: Bytes): Bytes
    requires |disks| == 6 && 0 <= count < 0x1_0000 && 0 <= size < 0x1_0000_0000 && 0 <= offset < 0x1_0000_0000
    requires |comment| < 0x1_0000
  {
    END_OF_DIRECTORY + disks + Word(count) + Long(size) + Long(offset) + Word(|comment|) + comment
  }

  /** No later bytes of the record look like the start of another one. */
  ghost predicate OnlyOne(record: Bytes) {
    forall i :: 0 < i ==> !At(record, i, END_OF_DIRECTORY)
  }

  /**
    Any local part followed by an encoded directory and its end record is accepted, and the
    directory that is found holds exactly the given entries in their order.
  */
  lemma SerialisedArchiveAccepted(local: Bytes, entries: seq<Entry>, gap: Bytes, disks: Bytes, comment: Bytes)
    requires |local| >= 4 && local[..4] == LOCAL_HEADER
    requires EntriesOk(entries) && 2 <= |entries| < 0x1_0000
    requires |local| < 0x1_0000_0000 && |EncodeAll(entries)| < 0x1_0000_0000
    requires |disks| == 6 && |comment| < 0x1_0000
    requires OnlyOne(EndRecord(disks, |entries|, |EncodeAll(entries)|, |local|, comment))
    requires Named(entries, CONTENT_TYPES) && Named(entries, WORKBOOK)
    ensures var buffer := local + EncodeAll(entries) + gap
                        + EndRecord(disks, |entries|, |EncodeAll(entries)|, |local|, comment);
            IsWorkbookArchive(buffer) &&
            forall found :: Fills(buffer, Locate(buffer).value, found) <==> found == entries
  {
    hide Encode, EncodeAll, Locate, EndRecord, OnlyOne, LastIndexOf;
    var directory := EncodeAll(entries);
    var record := EndRecord(disks, |entries|, |directory|, |local|, comment);
    var buffer := local + directory + gap + record;
    ArchiveLocated(local, directory, |entries|, gap, disks, comment);
    var d := Directory(|local| + |directory| + |gap|, |entries|, |directory|, |local|);
    assert buffer[..4] == local[..4];
    assert buffer[|local|..|local| + |directory|] == directory;
    assert Fills(buffer, d, entries);
    forall found | Fills(buffer, d, found) ensures found == entries {
      ParseExact(buffer, d.offset, d.count, d.end, found);
      ParseExact(buffer, d.offset, d.count, d.end, entries);
    }
  }

  lemma ArchiveLocated(local: Bytes, directory: Bytes, count: int, gap: Bytes, disks: Bytes, comment: Bytes)
    requires |local| >= 4 && local[..4] == LOCAL_HEADER && 2 <= count < 0x1_0000
    requires |local| < 0x1_0000_0000 && |directory| < 0x1_0000_0000 && |disks| == 6 && |comment| < 0x1_0000
    requires OnlyOne(EndRecord(disks, count, |directory|, |local|, comment))
    ensures Locate(local + directory + gap + EndRecord(disks, count, |directory|, |local|, comment)) ==
            Some(Directory(|local| + |directory| + |gap|, count, |directory|, |local|))
  {
    var record := EndRecord(disks, count, |directory|, |local|, comment);
    var before := local + directory + gap;
    RecordFound(before, record);
    RecordFields(before + record, |before|, disks, count, |directory|, |local|, comment);
    assert (before + record)[..4] == local[..4];
  }

  lemma RecordFound(before: Bytes, record: Bytes)
    requires OnlyOne(record) && At(record, 0, END_OF_DIRECTORY)
    ensures LastIndexOf(before + record, END_OF_DIRECTORY) == |before|
  {
    var buffer := before + record;
    var r := LastIndexOf(buffer, END_OF_DIRECTORY);
    assert buffer[|before|..|before| + 4] == record[..4];
    assert At(buffer, |before|, END_OF_DIRECTORY);
    if |before| < r {
      assert buffer[r..r + 4] == record[r - |before|..r - |before| + 4];
      assert At(record, r - |before|, END_OF_DIRECTORY);
    }
  }

  lemma RecordFields(buffer: Bytes, end: int, disks: Bytes, count: int, size: int, offset: int, comment: Bytes)
    requires |disks| == 6 && 0 <= count < 0x1_0000 && 0 <= size < 0x1_0000_0000 && 0 <= offset < 0x1_0000_0000
    requires |comment| < 0x1_0000
    requires 0 <= end && end + 22 <= |buffer| && buffer[end..] == EndRecord(disks, count, size, offset, comment)
    ensures ReadWord(buffer, end + 10) == count && ReadLong(buffer, end + 12) == size
    ensures ReadLong(buffer, end + 16) == offset
  {
    var record := EndRecord(disks, count, size, offset, comment);
    assert record[10..12] == Word(count) && record[12..16] == Long(size) && record[16..20] == Long(offset);
    assert buffer[end + 10..end + 12] == record[10..12];
    assert buffer[end + 12..end + 16] == record[12..16];
    assert buffer[end + 16..end + 20] == record[16..20];
    WordAt(buffer, end + 10, count);
    LongAt(buffer, end + 12, size);
    LongAt(buffer, end + 16, offset);
  }
}
