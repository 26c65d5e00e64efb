/** The self-describing configuration space at address 0 of the chip: a
    7-byte information block followed by one 6-byte entry per object
    (atmel.cpp parses it by overlaying structs on the raw buffer). */
module ObjectTable {
  import opened Protocol

  /** The information block: family, variant, version, build, matrix sizes and
      the number of objects in the table. */
  datatype IdInfo = IdInfo(family: u8, variant: u8, version: u8, build: u8,
                           matrixXSize: u8, matrixYSize: u8, numObjects: u8)

  const ZeroInfo := IdInfo(0, 0, 0, 0, 0, 0, 0)

  /** One object-table entry as stored by the chip: sizes and instance counts are
      kept minus one. */
  datatype ObjectEntry = ObjectEntry(objType: u8, startAddress: u16, sizeMinusOne: u8,
                                     instancesMinusOne: u8, numReportIds: u8)

  function ParseInfo(b: seq<bv8>): (info: IdInfo)
    requires |b| >= InfoBlockSize
    ensures info.numObjects == b[6] as int
  {
    IdInfo(b[0] as int, b[1] as int, b[2] as int, b[3] as int, b[4] as int, b[5] as int, b[6] as int)
  }

  function EncodeInfo(info: IdInfo): (b: seq<bv8>)
    ensures |b| == InfoBlockSize
  {
    [info.family as bv8, info.variant as bv8, info.version as bv8, info.build as bv8,
     info.matrixXSize as bv8, info.matrixYSize as bv8, info.numObjects as bv8]
  }

  lemma ParseEncodeInfo(info: IdInfo)
    ensures ParseInfo(EncodeInfo(info)) == info
  {
    ByteRoundTrip(info.family);
    ByteRoundTrip(info.variant);
    ByteRoundTrip(info.version);
    ByteRoundTrip(info.build);
    ByteRoundTrip(info.matrixXSize);
    ByteRoundTrip(info.matrixYSize);
    ByteRoundTrip(info.numObjects);
  }

  /** Entry layout: type, start address (little-endian), size-1, instances-1, report ids. */
  function ParseEntry(b: seq<bv8>): ObjectEntry
    requires |b| >= ObjectEntrySize
  {
    ObjectEntry(b[0] as int, Le16(b[1], b[2]), b[3] as int, b[4] as int, b[5] as int)
  }

  function EncodeEntry(o: ObjectEntry): (b: seq<bv8>)
    ensures |b| == ObjectEntrySize
  {
    var addr := LeBytes(o.startAddress);
    [o.objType as bv8, addr.0 as bv8, addr.1 as bv8,
     o.sizeMinusOne as bv8, o.instancesMinusOne as bv8, o.numReportIds as bv8]
  }

  /** The parsed table: entry `i` is the 6 bytes at offset 6*i of `raw`. */
  function ParseTable(raw: seq<bv8>, n: nat): (objs: seq<ObjectEntry>)
    requires |raw| >= ObjectEntrySize * n
    ensures |objs| == n
    ensures forall i :: 0 <= i < n ==>
              objs[i] == ParseEntry(raw[ObjectEntrySize * i .. ObjectEntrySize * i + ObjectEntrySize])
  {
    if n == 0 then []
    else ParseTable(raw, n - 1) + [ParseEntry(raw[ObjectEntrySize * (n - 1) .. ObjectEntrySize * n])]
  }

  function EncodeTable(objs: seq<ObjectEntry>): (raw: seq<bv8>)
    ensures |raw| == ObjectEntrySize * |objs|
  {
    if objs == [] then [] else EncodeTable(objs[..|objs| - 1]) + EncodeEntry(objs[|objs| - 1])
  }

  /** Encoding one entry and parsing it back yields the entry. */
  lemma ParseEncodeEntry(o: ObjectEntry)
    ensures ParseEntry(EncodeEntry(o)) == o
  {
    var b := EncodeEntry(o);
    assert Le16(b[1], b[2]) == o.startAddress;
    ByteRoundTrip(o.objType);
    ByteRoundTrip(o.sizeMinusOne);
    ByteRoundTrip(o.instancesMinusOne);
    ByteRoundTrip(o.numReportIds);
  }

  /** Parsing six bytes and encoding the entry gives the bytes back: every
      byte string is the encoding of some entry. */
  lemma EncodeParseEntry(b: seq<bv8>)
    requires |b| >= ObjectEntrySize
    ensures EncodeEntry(ParseEntry(b)) == b[..ObjectEntrySize]
  {
    BitsRoundTrip(b[0]);
    BitsRoundTrip(b[1]);
    BitsRoundTrip(b[2]);
    BitsRoundTrip(b[3]);
    BitsRoundTrip(b[4]);
    BitsRoundTrip(b[5]);
    var o := ParseEntry(b);
    assert LeBytes(o.startAddress) == (b[1] as int, b[2] as int);
    assert EncodeEntry(o) == [b[0], b[1], b[2], b[3], b[4], b[5]];
  }

  /** Writing a table out and parsing it back yields the same entries, in order. */
  lemma {:induction false} ParseEncodeTable(objs: seq<ObjectEntry>)
    ensures ParseTable(EncodeTable(objs), |objs|) == objs
  {
    var raw := EncodeTable(objs);
    var n := |objs|;
    forall i | 0 <= i < n
      ensures ParseEntry(raw[ObjectEntrySize * i .. ObjectEntrySize * i + ObjectEntrySize]) == objs[i]
    {
      EncodeTableAt(objs, i);
      ParseEncodeEntry(objs[i]);
    }
  }

  lemma {:induction false} EncodeTableAt(objs: seq<ObjectEntry>, i: nat)
    requires i < |objs|
    ensures EncodeTable(objs)[ObjectEntrySize * i .. ObjectEntrySize * i + ObjectEntrySize]
            == EncodeEntry(objs[i])
  {
    var last := |objs| - 1;
    var front := objs[..last];
    var a, b := EncodeTable(front), EncodeEntry(objs[last]);
    assert EncodeTable(objs) == a + b;
    assert |a| == ObjectEntrySize * last;
    if i < last {
      assert ObjectEntrySize * i + ObjectEntrySize <= ObjectEntrySize * last;
      assert (a + b)[ObjectEntrySize * i .. ObjectEntrySize * i + ObjectEntrySize]
          == a[ObjectEntrySize * i .. ObjectEntrySize * i + ObjectEntrySize];
      EncodeTableAt(front, i);
      assert front[i] == objs[i];
    } else {
      assert (a + b)[|a| .. |a| + ObjectEntrySize] == b;
    }
  }

  /** `mxt_obj_size`: the stored size plus one. */
  function ObjSize(o: ObjectEntry): (n: nat)
    ensures 1 <= n <= 0x100 && n - 1 == o.sizeMinusOne
  {
    o.sizeMinusOne + 1
  }

  /** `mxt_obj_instances`: the stored instance count plus one. */
  function ObjInstances(o: ObjectEntry): (n: nat)
    ensures 1 <= n <= 0x100 && n - 1 == o.instancesMinusOne
  {
    o.instancesMinusOne + 1
  }

  /** `mxt_findobject`: the index of the first entry in table order whose type is
      `t`, or None when no entry has that type. */
  function FindObject(objs: seq<ObjectEntry>, t: u8): (r: Option<nat>)
    ensures r.Some? ==> r.value < |objs| && objs[r.value].objType == t
    ensures r.Some? ==> forall j :: 0 <= j < r.value ==> objs[j].objType != t
    ensures r.None? <==> forall j :: 0 <= j < |objs| ==> objs[j].objType != t
  {
    FindFrom(objs, t, 0)
  }

  function FindFrom(objs: seq<ObjectEntry>, t: u8, i: nat): (r: Option<nat>)
    requires i <= |objs|
    requires forall j :: 0 <= j < i ==> objs[j].objType != t
    ensures r.Some? ==> i <= r.value < |objs| && objs[r.value].objType == t
    ensures r.Some? ==> forall j :: 0 <= j < r.value ==> objs[j].objType != t
    ensures r.None? <==> forall j :: 0 <= j < |objs| ==> objs[j].objType != t
    decreases |objs| - i
  {
    if i == |objs| then None
    else if objs[i].objType == t then Some(i)
    else FindFrom(objs, t, i + 1)
  }
}
