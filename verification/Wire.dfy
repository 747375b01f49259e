/**
 Control-point wire forms of section 5 of the Audio Stream Control Service 1.0: Enable
 requests with metadata, and responses.
 */
module Wire {
  import opened Common
  import opened Procedures

  // ---- Enable requests ---------------------------------------------------

  datatype Record = Record(id: Byte, metadata: seq<Byte>)

  predicate Sized(rs: seq<Record>) { forall i | 0 <= i < |rs| :: |rs[i].metadata| < 256 }

  /** ID, length and metadata of each record in turn. */
  function Flat(rs: seq<Record>): seq<Byte> requires Sized(rs) {
    if rs == [] then [] else [rs[0].id, |rs[0].metadata|] + rs[0].metadata + Flat(rs[1..])
  }

  predicate DistinctIds(rs: seq<Record>) { forall i, j | 0 <= i < j < |rs| :: rs[i].id != rs[j].id }

  function Named(rs: seq<Record>): (m: map<Byte, seq<Byte>>)
    ensures forall id :: id in m <==> exists i :: 0 <= i < |rs| && rs[i].id == id
  {
    if rs == [] then map[] else
      var m := Named(rs[..|rs| - 1])[rs[|rs| - 1].id := rs[|rs| - 1].metadata];
      assert forall id | id in m :: id == rs[|rs| - 1].id || id in Named(rs[..|rs| - 1]);
      m
  }

  /** With distinct IDs the map holds each record's metadata. */
  lemma {:induction false} NamedHolds(rs: seq<Record>, i: nat)
    requires DistinctIds(rs) && i < |rs|
    ensures rs[i].id in Named(rs) && Named(rs)[rs[i].id] == rs[i].metadata
  {
    if i < |rs| - 1 {
      NamedHolds(rs[..|rs| - 1], i);
    }
  }

  /** The bytes are `count` records with distinct IDs and nothing else. */
  ghost predicate Encodes(raw: seq<Byte>, rs: seq<Record>) {
    |raw| >= 2 && |rs| == raw[1] && Sized(rs) && DistinctIds(rs) && raw[2..] == Flat(rs)
  }

  lemma {:induction false} FlatConcat(a: seq<Record>, b: seq<Record>)
    requires Sized(a) && Sized(b)
    ensures Sized(a + b) && Flat(a + b) == Flat(a) + Flat(b)
  {
    if a == [] {
      assert a + b == b;
    } else {
      FlatConcat(a[1..], b);
      assert (a + b)[1..] == a[1..] + b;
    }
  }

  /** Records can be read off in only one way. */
  lemma {:induction false} Aligned(all: seq<Record>, rs: seq<Record>, tail: seq<Byte>)
    requires Sized(all) && Sized(rs) && |rs| <= |all| && Flat(all) == Flat(rs) + tail
    ensures rs == all[..|rs|] && tail == Flat(all[|rs|..])
  {
    if rs == [] {
      assert all[0..] == all && Flat(rs) + tail == tail;
    } else {
      var x, y := all[0], rs[0];
      var restX, restY := Flat(all[1..]), Flat(rs[1..]) + tail;
      FirstRecord(x, restX, y, restY);
      Aligned(all[1..], rs[1..], tail);
      assert all[1..][|rs| - 1..] == all[|rs|..];
      assert all[..|rs|] == [all[0]] + all[1..][..|rs| - 1];
      assert rs == [rs[0]] + rs[1..];
    }
  }

  lemma FirstRecord(x: Record, restX: seq<Byte>, y: Record, restY: seq<Byte>)
    requires |x.metadata| < 256 && |y.metadata| < 256
    requires [x.id as int, |x.metadata|] + x.metadata + restX == [y.id as int, |y.metadata|] + y.metadata + restY
    ensures x == y && restX == restY
  {
    var s, t := [x.id as int, |x.metadata|] + x.metadata + restX, [y.id as int, |y.metadata|] + y.metadata + restY;
    assert s[0] == t[0] && s[1] == t[1];
    assert x.metadata == s[2..2 + |x.metadata|] && y.metadata == t[2..2 + |y.metadata|];
    assert restX == s[2 + |x.metadata|..] && restY == t[2 + |y.metadata|..];
  }

  /** `_request_bytes`, the Enable batch: nothing when a length does not fit its byte. */
  method EnableBatch(records: seq<Record>) returns (raw: Option<seq<Byte>>)
    ensures raw.Some? <==> Sized(records)
    ensures raw.Some? ==> raw.value == [3, 2] + Flat(records)
  {
    hide Flat;
    NoBytes();
    var bytes: seq<Byte> := [];
    for i := 0 to |records|
      invariant Sized(records[..i]) && bytes == Flat(records[..i])
    {
      var r := records[i];
      if |r.metadata| >= 256 {
        return None;
      }
      FlatConcat(records[..i], [r]);
      FlatOne(r);
      assert records[..i + 1] == records[..i] + [r];
      assert bytes + ([r.id, |r.metadata|] + r.metadata) == (bytes + [r.id, |r.metadata|]) + r.metadata;
      bytes := bytes + [r.id, |r.metadata|];
      bytes := bytes + r.metadata;
    }
    assert records[..|records|] == records;
    return Some([3, 2] + bytes);
  }

  /** The records read so far, up to the offset. */
  ghost predicate ReadTo(raw: seq<Byte>, offset: nat, rs: seq<Record>) {
    2 <= offset <= |raw| && Sized(rs) && DistinctIds(rs) && raw[2..offset] == Flat(rs)
  }

  /** The parsing part of `_metadata_echo`: accepted exactly when the bytes encode records, and then those. */
  method ParseMetadata(raw: seq<Byte>) returns (r: Option<map<Byte, seq<Byte>>>)
    ensures r.Some? <==> exists rs :: Encodes(raw, rs)
    ensures forall rs | Encodes(raw, rs) :: r == Some(Named(rs))
  {
    hide Flat, Named, Encodes, ReadTo;
    TooShort(raw);
    if |raw| < 2 {
      return None;
    }
    var offset: nat, parsed: map<Byte, seq<Byte>> := 2, map[];
    ghost var rs: seq<Record> := [];
    ReadStart(raw);
    for i := 0 to raw[1]
      invariant 2 <= offset <= |raw| && |rs| == i && ReadTo(raw, offset, rs) && parsed == Named(rs)
    {
      if offset + 2 > |raw| {
        NoEncoding(raw, offset, rs);
        return None;
      }
      var id, size := raw[offset], raw[offset + 1];
      if id in parsed || offset + 2 + size > |raw| {
        NoEncoding(raw, offset, rs);
        return None;
      }
      var metadata := raw[offset + 2..offset + 2 + size];
      Append(raw, offset, rs, Record(id, metadata));
      parsed := parsed[id := metadata];
      rs := rs + [Record(id, metadata)];
      offset := offset + 2 + size;
    }
    AllRead(raw, offset, rs);
    if offset != |raw| {
      return None;
    }
    return Some(parsed);
  }

  lemma TooShort(raw: seq<Byte>)
    ensures |raw| < 2 ==> !exists rs :: Encodes(raw, rs)
  {}

  lemma ReadStart(raw: seq<Byte>)
    requires |raw| >= 2
    ensures ReadTo(raw, 2, []) && Named([]) == map[]
  {}

  /** The next record of an encoding is at the offset. */
  lemma Continue(raw: seq<Byte>, offset: nat, rs: seq<Record>, all: seq<Record>)
    requires Encodes(raw, all) && ReadTo(raw, offset, rs) && |rs| < |all|
    ensures rs == all[..|rs|]
    ensures offset + 2 <= |raw| && raw[offset] == all[|rs|].id && offset + 2 + raw[offset + 1] <= |raw|
  {
    hide Flat, DistinctIds;
    assert raw[2..] == raw[2..offset] + raw[offset..];
    Aligned(all, rs, raw[offset..]);
    var left := all[|rs|..];
    FlatFirst(left);
    RecordAt(raw[offset..], left[0], Flat(left[1..]));
    assert left[0] == all[|rs|];
  }

  lemma RecordAt(here: seq<Byte>, record: Record, more: seq<Byte>)
    requires |record.metadata| < 256 && here == [record.id, |record.metadata|] + record.metadata + more
    ensures |here| >= 2 && here[0] == record.id && here[1] == |record.metadata| && |here| - 2 >= here[1]
  {}

  lemma NewId(rs: seq<Record>, all: seq<Record>)
    requires |rs| < |all| && rs == all[..|rs|] && DistinctIds(all)
    ensures all[|rs|].id !in Named(rs)
  {
    forall i | 0 <= i < |rs| ensures rs[i].id != all[|rs|].id {
      assert rs[i] == all[i];
    }
  }

  /** Where reading on fails there is no encoding. */
  lemma NoEncoding(raw: seq<Byte>, offset: nat, rs: seq<Record>)
    requires ReadTo(raw, offset, rs) && |raw| >= 2 && |rs| < raw[1]
    requires offset + 2 > |raw| || raw[offset] in Named(rs) || offset + 2 + raw[offset + 1] > |raw|
    ensures !exists all :: Encodes(raw, all)
  {
    hide Flat, Named;
    forall all | Encodes(raw, all) ensures false {
      Continue(raw, offset, rs, all);
      NewId(rs, all);
    }
  }

  lemma AllRead(raw: seq<Byte>, offset: nat, rs: seq<Record>)
    requires ReadTo(raw, offset, rs) && |raw| >= 2 && |rs| == raw[1]
    ensures offset == |raw| ==> Encodes(raw, rs)
    ensures forall all | Encodes(raw, all) :: rs == all && offset == |raw|
  {
    hide Flat, DistinctIds;
    assert raw[2..] == raw[2..offset] + raw[offset..];
    if offset == |raw| {
      assert raw[2..offset] == raw[2..];
    }
    forall all | Encodes(raw, all) ensures rs == all && offset == |raw| {
      Aligned(all, rs, raw[offset..]);
      assert all[..|rs|] == all && all[|rs|..] == [];
      NoBytes();
    }
  }

  lemma NoBytes()
    ensures Flat([]) == []
  {}

  lemma FlatFirst(rs: seq<Record>)
    requires Sized(rs) && rs != []
    ensures Flat(rs) == [rs[0].id, |rs[0].metadata|] + rs[0].metadata + Flat(rs[1..])
  {}

  lemma FlatOne(record: Record)
    requires |record.metadata| < 256
    ensures Flat([record]) == [record.id, |record.metadata|] + record.metadata
  {
    assert Flat([]) == [];
  }

  lemma NamedAppend(rs: seq<Record>, record: Record)
    ensures Named(rs + [record]) == Named(rs)[record.id := record.metadata]
  {
    assert (rs + [record])[..|rs|] == rs;
  }

  lemma Append(raw: seq<Byte>, offset: nat, rs: seq<Record>, record: Record)
    requires ReadTo(raw, offset, rs) && |record.metadata| < 256 && record.id !in Named(rs)
    requires offset + 2 + |record.metadata| <= |raw| && raw[offset] == record.id && raw[offset + 1] == |record.metadata|
    requires raw[offset + 2..offset + 2 + |record.metadata|] == record.metadata
    ensures ReadTo(raw, offset + 2 + |record.metadata|, rs + [record])
    ensures Named(rs + [record]) == Named(rs)[record.id := record.metadata]
  {
    DistinctAppend(rs, record);
    hide Flat, Named, DistinctIds;
    FlatConcat(rs, [record]);
    FlatOne(record);
    NamedAppend(rs, record);
    Cut(raw, 2, offset, offset + 2 + |record.metadata|);
  }

  lemma DistinctAppend(rs: seq<Record>, record: Record)
    requires DistinctIds(rs) && record.id !in Named(rs)
    ensures DistinctIds(rs + [record])
  {
    var longer := rs + [record];
    forall i, j | 0 <= i < j < |longer| ensures longer[i].id != longer[j].id {
      assert longer[i] == rs[i];
    }
  }

  /** A stretch of bytes, cut before and after the two at `b`. */
  lemma Cut(s: seq<Byte>, a: nat, b: nat, c: nat)
    requires a <= b && b + 2 <= c <= |s|
    ensures s[a..c] == s[a..b] + ([s[b], s[b + 1]] + s[b + 2..c])
  {
    assert s[a..c] == s[a..b] + s[b..c];
    assert s[b..c] == [s[b], s[b + 1]] + s[b + 2..c];
  }

  /** What is encoded is parsed back, with no byte left. */
  method EnableRoundTrip(opcode: Byte, records: seq<Record>) returns (r: Option<map<Byte, seq<Byte>>>)
    requires |records| < 256 && Sized(records) && DistinctIds(records)
    ensures r == Some(Named(records))
  {
    var raw: seq<Byte> := [opcode, |records|] + Flat(records);
    assert raw[2..] == Flat(records);
    assert Encodes(raw, records);
    r := ParseMetadata(raw);
  }

  /** The batch builder always announces two records: it is parsed exactly when it has two, with distinct IDs. */
  method BatchRoundTrip(records: seq<Record>) returns (r: Option<map<Byte, seq<Byte>>>)
    requires Sized(records)
    ensures r == if |records| == 2 && DistinctIds(records) then Some(Named(records)) else None
  {
    hide Flat, Named;
    var raw := EnableBatch(records);
    assert raw.value[2..] == Flat(records);
    if |records| == 2 && DistinctIds(records) {
      assert Encodes(raw.value, records);
    }
    forall rs | Encodes(raw.value, rs) ensures rs == records {
      SameFlat(records, rs);
    }
    r := ParseMetadata(raw.value);
  }

  lemma SameFlat(a: seq<Record>, b: seq<Record>)
    requires Sized(a) && Sized(b) && Flat(a) == Flat(b)
    ensures a == b
  {
    hide Flat;
    var short, long := if |a| <= |b| then a else b, if |a| <= |b| then b else a;
    assert Flat(long) == Flat(short) + [];
    Aligned(long, short, []);
    if |short| < |long| {
      FlatFirst(long[|short|..]);
    }
    assert long[..|long|] == long;
  }

  // ---- responses ---------------------------------------------------------

  /** An expected record: the ASE's ID, or none, with code and reason. */
  datatype Answer = Answer(ase: Option<Byte>, code: Byte, reason: Byte)

  function IdOf(a: Answer): Byte { if a.ase.Some? then a.ase.value else 0 }

  predicate GlobalError(answers: seq<Answer>) { |answers| == 1 && answers[0].ase.None? && answers[0].code in {1, 2} }

  function AnsweredIds(answers: seq<Answer>): seq<nat> {
    seq(|answers|, i requires 0 <= i < |answers| => IdOf(answers[i]))
  }

  /** Byte by byte, what a response says. */
  ghost predicate Says(raw: seq<Byte>, opcode: Byte, answers: seq<Answer>) {
    && |raw| == 2 + 3 * |answers| && raw[0] == opcode
    && raw[1] == (if GlobalError(answers) then 255 else |answers|)
    && forall k | 0 <= k < |answers| ::
        raw[2 + 3 * k] == IdOf(answers[k]) && raw[3 + 3 * k] == answers[k].code && raw[4 + 3 * k] == answers[k].reason
  }

  /** `_response_bytes`: what it builds passes the raw control-point test for the IDs it names. */
  method ResponseBytes(opcode: Byte, answers: seq<Answer>) returns (raw: Option<seq<Byte>>)
    ensures raw.Some? <==> |answers| < 256
    ensures raw.Some? ==> Says(raw.value, opcode, answers) && NamesAses(raw.value, AnsweredIds(answers))
  {
    if |answers| >= 256 {
      return None;
    }
    var count: Byte := if GlobalError(answers) then 255 else |answers|;
    var result: seq<Byte> := [opcode, count];
    for i := 0 to |answers|
      invariant |result| == 2 + 3 * i && result[0] == opcode && result[1] == count
      invariant forall k | 0 <= k < i ::
          result[2 + 3 * k] == IdOf(answers[k]) && result[3 + 3 * k] == answers[k].code &&
            result[4 + 3 * k] == answers[k].reason
    {
      result := result + [IdOf(answers[i]), answers[i].code, answers[i].reason];
    }
    return Some(result);
  }

  /** With nonzero ASE IDs a response is read in only one way. */
  lemma ResponseInjective(raw: seq<Byte>, opcode: Byte, a: seq<Answer>, other: Byte, b: seq<Answer>)
    requires Says(raw, opcode, a) && Says(raw, other, b)
    requires forall i | 0 <= i < |a| :: a[i].ase != Some(0)
    requires forall i | 0 <= i < |b| :: b[i].ase != Some(0)
    ensures opcode == other && a == b
  {
    forall k | 0 <= k < |a| ensures a[k] == b[k] {
      assert raw[2 + 3 * k] == IdOf(a[k]) == IdOf(b[k]);
    }
  }
}
