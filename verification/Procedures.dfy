/**
 The monitor for ASE control point procedures in a client log.

 A log is a list of parsed rows and a row's line number is its position.  The
 monitor keeps one open procedure and accepts or refuses row by row; the main
 result is that it accepts a log if and only if the log decomposes into
 complete, non-nested, contiguously numbered procedures.
 */
module Procedures {
  import opened Common

  datatype Owner = Raw | Helper | Undeclared

  /** The fields that BEGIN and END rows share. */
  datatype Head = Head(
    procedure: nat, generation: nat, owner: Owner, opcode: Byte, ids: seq<nat>, transaction: nat)

  datatype Row =
    | Begin(head: Head)
    | Request(transaction: nat, generation: nat, raw: seq<Byte>)
    | Write(transaction: nat, generation: nat)
    | Cp(owner: Owner, procedure: nat, generation: nat, transaction: nat, raw: seq<Byte>)
    | End(head: Head)
    | Retired(generation: nat)
    | Malformed                   // one of the rows above with a missing or unreadable field
    | Unrelated

  /** Where a generation was discovered and the ASE IDs found there. */
  datatype Discovery = Discovery(line: nat, idA: nat, idB: nat)

  type Discoveries = map<nat, Discovery>

  // ---- what single rows must satisfy -------------------------------------

  predicate HeadOk(found: Discoveries, line: nat, h: Head) {
    && h.generation in found
    && found[h.generation].line < line
    && 1 <= |h.ids| <= 2 && (|h.ids| == 2 ==> h.ids[0] != h.ids[1])
    && var d := found[h.generation];
       match h.owner
       case Helper =>
         h.transaction == 0 &&
         if h.opcode == 1 || h.opcode == 3 then h.ids == [d.idA] || h.ids == [d.idB]
         else h.opcode == 2 && h.ids == [d.idA, d.idB]
       case Raw =>
         1 <= h.transaction <= 259 &&
         forall i | 0 <= i < |h.ids| :: h.ids[i] == 0 || h.ids[i] == d.idA || h.ids[i] == d.idB
       case Undeclared => false
  }

  predicate RequestOk(h: Head, row: Row) {
    && row.Request? && row.transaction == h.transaction && row.generation == h.generation
    && 1 <= |row.raw| <= 128 && row.raw[0] == h.opcode
  }

  predicate WriteOk(h: Head, row: Row) {
    row.Write? && row.transaction == h.transaction && row.generation == h.generation
  }

  predicate CpOk(h: Head, row: Row) {
    && row.Cp? && row.owner == h.owner && row.procedure == h.procedure
    && row.generation == h.generation && row.transaction == h.transaction
    && 1 <= |row.raw| <= 128 && row.raw[0] == h.opcode
    && (if h.owner == Helper then SuccessOnly(h, row.raw) else NamesAses(row.raw, h.ids))
  }

  /** A response of the right length whose records name exactly these ASEs in order. */
  predicate NamesAses(raw: seq<Byte>, ids: seq<nat>) {
    |raw| == 2 + 3 * |ids| && forall k | 0 <= k < |ids| :: raw[2 + 3 * k] == ids[k]
  }

  predicate SuccessOnly(h: Head, raw: seq<Byte>) {
    && NamesAses(raw, h.ids) && raw[1] == |h.ids|
    && forall k | 0 <= k < |h.ids| :: raw[3 + 3 * k] == 0 && raw[4 + 3 * k] == 0
  }

  predicate Quiet(row: Row) { row.Retired? || row.Unrelated? }

  // ---- the declarative reading of a log ----------------------------------

  /** Positions of the rows of one procedure. */
  datatype Block = Block(begin: nat, request: Option<nat>, write: Option<nat>, cp: nat, end: nat)

  ghost predicate BlockOk(rows: seq<Row>, found: Discoveries, number: nat, b: Block) {
    match b case Block(begin, request, write, cp, end) =>
      && begin < cp < end < |rows|
      && rows[begin].Begin?
      && var h := rows[begin].head;
      && h.procedure == number
      && HeadOk(found, begin, h)
      && CpOk(h, rows[cp])
      && rows[end] == End(h)
      && RetiresAfter(rows, h.generation, end)
      && (if h.owner == Raw then
            && request.Some? && begin < request.value < cp && RequestOk(h, rows[request.value])
            && write.Some? && request.value < write.value < end && WriteOk(h, rows[write.value])
          else
            request.None? && write.None?)
      && forall i | begin < i < end && i != cp && Some(i) != request && Some(i) != write :: Quiet(rows[i])
  }

  ghost predicate RetiresAfter(rows: seq<Row>, generation: nat, line: nat) {
    exists j :: line < j < |rows| && rows[j] == Retired(generation)
  }

  ghost predicate QuietBetween(rows: seq<Row>, lo: nat, hi: nat) {
    hi <= |rows| && forall i | lo <= i < hi :: Quiet(rows[i])
  }

  /** The first `n` rows are these procedures, numbered from 1, and nothing else. */
  ghost predicate Decomposes(rows: seq<Row>, found: Discoveries, bs: seq<Block>, n: nat)
    decreases |bs|
  {
    if bs == [] then QuietBetween(rows, 0, n)
    else
      var last := bs[|bs| - 1];
      && BlockOk(rows, found, |bs|, last)
      && last.end < n && QuietBetween(rows, last.end + 1, n)
      && Decomposes(rows, found, bs[..|bs| - 1], last.begin)
  }

  ghost predicate IsRaw(rows: seq<Row>, b: Block) {
    b.begin < |rows| && rows[b.begin].Begin? && rows[b.begin].head.owner == Raw
  }

  /** The transactions of the raw procedures, each with its procedure. */
  ghost function RawOwners(rows: seq<Row>, bs: seq<Block>): map<nat, Block> {
    if bs == [] then map[]
    else
      var earlier := RawOwners(rows, bs[..|bs| - 1]);
      var last := bs[|bs| - 1];
      if IsRaw(rows, last) then earlier[rows[last.begin].head.transaction := last] else earlier
  }

  /** The number of helper procedures. */
  ghost function Helpers(rows: seq<Row>, bs: seq<Block>): nat {
    if bs == [] then 0
    else Helpers(rows, bs[..|bs| - 1]) + if IsRaw(rows, bs[|bs| - 1]) then 0 else 1
  }

  /** The keys are exactly 1..k. */
  predicate Contiguous(owners: map<nat, Block>) {
    (forall t | t in owners :: 1 <= t <= |owners|) && (forall t | 1 <= t <= |owners| :: t in owners)
  }

  ghost predicate DistinctTransactions(rows: seq<Row>, bs: seq<Block>) {
    forall i, j | 0 <= i < j < |bs| && IsRaw(rows, bs[i]) && IsRaw(rows, bs[j]) ::
      rows[bs[i].begin].head.transaction != rows[bs[j].begin].head.transaction
  }

  /** Raw transactions are exactly 1..k, and both kinds of procedure occur. */
  ghost predicate Populated(rows: seq<Row>, bs: seq<Block>) {
    var owners := RawOwners(rows, bs);
    && DistinctTransactions(rows, bs)
    && owners != map[]
    && Contiguous(owners)
    && Helpers(rows, bs) > 0
  }

  ghost predicate WellFormed(rows: seq<Row>, found: Discoveries, bs: seq<Block>) {
    Decomposes(rows, found, bs, |rows|) && Populated(rows, bs)
  }

  // ---- the monitor -------------------------------------------------------

  /** One record per ASE: its ID, no code, no reason. */
  function Records(ids: seq<nat>): seq<int> {
    if ids == [] then [] else Records(ids[..|ids| - 1]) + [ids[|ids| - 1], 0, 0]
  }

  /** The one response that a helper procedure may get. */
  function HelperResponse(opcode: Byte, ids: seq<nat>): seq<int> { [opcode, |ids|] + Records(ids) }

  ghost predicate RecordsAt(raw: seq<int>, from: nat, ids: seq<nat>) {
    && |raw| == from + 3 * |ids|
    && forall k | 0 <= k < |ids| ::
         raw[from + 3 * k] == ids[k] && raw[from + 1 + 3 * k] == 0 && raw[from + 2 + 3 * k] == 0
  }

  lemma {:induction false} RecordsMean(prefix: seq<int>, ids: seq<nat>, raw: seq<int>)
    ensures raw == prefix + Records(ids) <==> prefix <= raw && RecordsAt(raw, |prefix|, ids)
  {
    if ids == [] {
      assert prefix <= raw && |raw| == |prefix| ==> raw == prefix;
    } else {
      hide RecordsAt;
      var n := |ids| - 1;
      var short := |prefix| + 3 * n;
      if |raw| == short + 3 {
        RecordsMean(prefix, ids[..n], raw[..short]);
        assert raw == raw[..short] + [raw[short], raw[short + 1], raw[short + 2]];
        RecordsLength(ids[..n]);
        RecordsSplit(prefix + Records(ids[..n]), raw, short, [ids[n], 0, 0]);
        assert prefix <= raw <==> prefix <= raw[..short];
        RecordsAtSnoc(raw, |prefix|, ids);
        assert prefix + Records(ids) == prefix + Records(ids[..n]) + [ids[n], 0, 0];
      } else {
        RecordsLength(ids);
      }
    }
  }

  lemma RecordsAtSnoc(raw: seq<int>, from: nat, ids: seq<nat>)
    requires ids != [] && |raw| == from + 3 * |ids|
    ensures var n, short := |ids| - 1, |raw| - 3;
      RecordsAt(raw, from, ids) <==>
        && RecordsAt(raw[..short], from, ids[..n])
        && raw[short] == ids[n] && raw[short + 1] == 0 && raw[short + 2] == 0
  {
    var n, short := |ids| - 1, |raw| - 3;
    assert forall k | 0 <= k < n :: from + 3 * k + 2 < short;
    if RecordsAt(raw[..short], from, ids[..n]) {
      assert forall k | 0 <= k < n :: raw[from + 3 * k] == raw[..short][from + 3 * k] && ids[..n][k] == ids[k];
    }
  }

  lemma RecordsSplit(front: seq<int>, raw: seq<int>, short: nat, last: seq<int>)
    requires |front| == short && |raw| == short + 3 && |last| == 3
    ensures raw == front + last <==>
      raw[..short] == front && raw[short] == last[0] && raw[short + 1] == last[1] && raw[short + 2] == last[2]
  {
    assert raw == raw[..short] + [raw[short], raw[short + 1], raw[short + 2]];
    assert last == [last[0], last[1], last[2]];
  }

  lemma {:induction false} RecordsLength(ids: seq<nat>)
    ensures |Records(ids)| == 3 * |ids|
  {
    if ids != [] {
      RecordsLength(ids[..|ids| - 1]);
    }
  }

  /** The bytes of a helper response, position by position. */
  lemma HelperResponseMeans(opcode: Byte, ids: seq<nat>, raw: seq<Byte>)
    ensures raw == HelperResponse(opcode, ids) <==>
      && |raw| == 2 + 3 * |ids| && raw[0] == opcode && raw[1] == |ids|
      && forall k | 0 <= k < |ids| :: raw[2 + 3 * k] == ids[k] && raw[3 + 3 * k] == 0 && raw[4 + 3 * k] == 0
  {
    RecordsMean([opcode, |ids|], ids, raw);
    assert [opcode, |ids|] <= raw <==> |raw| >= 2 && raw[0] == opcode && raw[1] == |ids|;
  }

  /** What BEGIN is checked for, in the order of the program. */
  predicate BeginAccepted(found: Discoveries, line: nat, h: Head): (ok: bool)
    ensures ok <==> HeadOk(found, line, h)
  {
    if h.generation !in found || found[h.generation].line >= line then false
    else if h.owner == Undeclared then false
    else if h.ids == [] || |h.ids| > 2 || |set i | i in h.ids| != |h.ids| then IdsDistinct(h.ids); false
    else
      IdsDistinct(h.ids);
      var d := found[h.generation];
      if h.owner == Helper then
        if h.opcode in {1, 3} then h.transaction == 0 && h.ids in {[d.idA], [d.idB]}
        else h.opcode == 2 && h.transaction == 0 && h.ids == [d.idA, d.idB]
      else 1 <= h.transaction && h.transaction <= 259 && forall i | 0 <= i < |h.ids| :: h.ids[i] in {0, d.idA, d.idB}
  }

  /** A list of one or two IDs has no repetition exactly when its set is as large. */
  lemma IdsDistinct(ids: seq<nat>)
    ensures 1 <= |ids| <= 2 ==> (|set i | i in ids| == |ids| <==> (|ids| == 2 ==> ids[0] != ids[1]))
  {
    if |ids| == 1 {
      assert (set i | i in ids) == {ids[0]};
    } else if |ids| == 2 {
      assert (set i | i in ids) == {ids[0], ids[1]};
    }
  }

  /** What CP is checked for, in the order of the program. */
  predicate CpAccepted(h: Head, row: Row): (ok: bool)
    ensures ok <==> CpOk(h, row)
  {
    if !row.Cp? || row.owner != h.owner || row.procedure != h.procedure
       || row.generation != h.generation || row.transaction != h.transaction then false
    else if row.raw == [] || |row.raw| > 128 || row.raw[0] != h.opcode then false
    else if h.owner == Helper then
      HelperResponseMeans(row.raw[0], h.ids, row.raw);
      row.raw == HelperResponse(row.raw[0], h.ids)
    else if |row.raw| != 2 + |h.ids| * 3 then false
    else
      var named := seq(|h.ids|, k requires 0 <= k < |h.ids| => row.raw[2 + 3 * k]);
      assert forall k | 0 <= k < |h.ids| :: named[k] == row.raw[2 + 3 * k];
      named == h.ids
  }

  datatype Pending = Pending(head: Head, begin: nat, request: Option<nat>, write: Option<nat>, cp: Option<nat>)

  datatype Monitor = Monitor(pending: Option<Pending>, nextId: nat, rawOwners: map<nat, Block>, helpers: nat)

  const Start := Monitor(None, 1, map[], 0)

  /** The last retirement row of each generation among the first `n` rows. */
  function Retirements(rows: seq<Row>, n: nat): map<nat, nat>
    requires n <= |rows|
  {
    if n == 0 then map[]
    else if rows[n - 1].Retired? then Retirements(rows, n - 1)[rows[n - 1].generation := n - 1]
    else Retirements(rows, n - 1)
  }

  /** One row of the log; nothing means that the log is refused. */
  function Observe(found: Discoveries, retired: map<nat, nat>, m: Monitor, row: Row, line: nat): Option<Monitor> {
    match row
    case Begin(h) =>
      if m.pending.Some? || h.procedure != m.nextId || !BeginAccepted(found, line, h)
         || (h.owner == Raw && h.transaction in m.rawOwners) then None
      else Some(m.(pending := Some(Pending(h, line, None, None, None)), nextId := m.nextId + 1,
                   helpers := m.helpers + if h.owner == Helper then 1 else 0))
    case Request(_, _, _) =>
      if m.pending.None? || m.pending.value.head.owner != Raw || !RequestOk(m.pending.value.head, row)
         || m.pending.value.request.Some? then None
      else Some(m.(pending := Some(m.pending.value.(request := Some(line)))))
    case Write(_, _) =>
      if m.pending.None? || m.pending.value.head.owner != Raw || m.pending.value.request.None?
         || m.pending.value.write.Some? || !WriteOk(m.pending.value.head, row) then None
      else Some(m.(pending := Some(m.pending.value.(write := Some(line)))))
    case Cp(_, _, _, _, _) =>
      if m.pending.None? || m.pending.value.cp.Some? || !CpAccepted(m.pending.value.head, row)
         || (m.pending.value.head.owner == Raw && m.pending.value.request.None?) then None
      else Some(m.(pending := Some(m.pending.value.(cp := Some(line)))))
    case End(h) =>
      if m.pending.None? || m.pending.value.cp.None? || h != m.pending.value.head
         || (h.owner != Helper && m.pending.value.write.None?)
         || h.generation !in retired || line >= retired[h.generation] then None
      else
        var p := m.pending.value;
        Some(m.(pending := None,
                rawOwners := if h.owner != Raw then m.rawOwners
                             else m.rawOwners[h.transaction := Block(p.begin, p.request, p.write, p.cp.value, line)]))
    case Malformed => None
    case _ => Some(m)
  }

  function Watch(rows: seq<Row>, found: Discoveries, n: nat): Option<Monitor>
    requires n <= |rows|
  {
    if n == 0 then Some(Start)
    else
      var before := Watch(rows, found, n - 1);
      if before.None? then None
      else Observe(found, Retirements(rows, |rows|), before.value, rows[n - 1], n - 1)
  }

  predicate Complete(m: Monitor) {
    && m.pending.None? && m.rawOwners != map[] && m.helpers != 0
    && Contiguous(m.rawOwners)
  }

  // ---- retirement --------------------------------------------------------

  lemma RetirementsMeaning(rows: seq<Row>, n: nat, generation: nat, line: nat)
    requires n <= |rows|
    ensures (generation in Retirements(rows, n) && line < Retirements(rows, n)[generation])
        <==> exists j :: line < j < n && rows[j] == Retired(generation)
  {
    if n > 0 {
      RetirementsMeaning(rows, n - 1, generation, line);
    }
  }

  // ---- soundness: what was accepted decomposes ---------------------------

  function Shut(p: Pending, end: nat): Block
    requires p.cp.Some?
  {
    Block(p.begin, p.request, p.write, p.cp.value, end)
  }

  /** The open procedure and the rows since its BEGIN. */
  ghost predicate Open(rows: seq<Row>, found: Discoveries, number: nat, p: Pending, n: nat) {
    match p case Pending(h, begin, request, write, cp) =>
      && begin < n <= |rows|
      && rows[begin] == Begin(h) && h.procedure == number && HeadOk(found, begin, h)
      && (cp.Some? ==> begin < cp.value < n && CpOk(h, rows[cp.value]))
      && (request.Some? ==> begin < request.value < n && RequestOk(h, rows[request.value]))
      && (write.Some? ==> request.Some? && request.value < write.value < n && WriteOk(h, rows[write.value]))
      && (if h.owner == Raw then cp.Some? ==> request.Some? && request.value < cp.value
          else request.None? && write.None?)
      && forall i | begin < i < n && Some(i) != cp && Some(i) != request && Some(i) != write :: Quiet(rows[i])
  }

  /** The monitor's state and the procedures it has seen complete. */
  ghost predicate Tracks(rows: seq<Row>, found: Discoveries, bs: seq<Block>, m: Monitor, n: nat) {
    match m
    case Monitor(None, nextId, owners, helpers) =>
      && owners == RawOwners(rows, bs) && DistinctTransactions(rows, bs)
      && Decomposes(rows, found, bs, n) && nextId == |bs| + 1 && helpers == Helpers(rows, bs)
    case Monitor(Some(p), nextId, owners, helpers) =>
      && owners == RawOwners(rows, bs) && DistinctTransactions(rows, bs)
      && Decomposes(rows, found, bs, p.begin) && nextId == |bs| + 2
      && Open(rows, found, |bs| + 1, p, n)
      && (p.head.owner == Raw ==> p.head.transaction !in owners)
      && helpers == Helpers(rows, bs) + if p.head.owner == Raw then 0 else 1
  }

  lemma RawOwnersKnown(rows: seq<Row>, bs: seq<Block>, k: nat)
    requires k < |bs| && IsRaw(rows, bs[k])
    ensures rows[bs[k].begin].head.transaction in RawOwners(rows, bs)
  {
    if k < |bs| - 1 {
      RawOwnersKnown(rows, bs[..|bs| - 1], k);
    }
  }

  lemma ShutIsBlock(rows: seq<Row>, found: Discoveries, number: nat, p: Pending, n: nat)
    requires n < |rows| && Open(rows, found, number, p, n) && p.cp.Some?
    requires p.head.owner == Raw ==> p.write.Some?
    requires rows[n] == End(p.head) && RetiresAfter(rows, p.head.generation, n)
    ensures BlockOk(rows, found, number, Shut(p, n))
  {
  }

  lemma DistinctGrows(rows: seq<Row>, bs: seq<Block>, b: Block)
    requires DistinctTransactions(rows, bs)
    requires IsRaw(rows, b) ==> rows[b.begin].head.transaction !in RawOwners(rows, bs)
    ensures DistinctTransactions(rows, bs + [b])
  {
    forall i | 0 <= i < |bs| && IsRaw(rows, bs[i]) && IsRaw(rows, b)
      ensures rows[bs[i].begin].head.transaction != rows[b.begin].head.transaction
    {
      RawOwnersKnown(rows, bs, i);
    }
  }

  /** END turns the open procedure into a complete one. */
  lemma EndClosesBlock(
    rows: seq<Row>, found: Discoveries, bs: seq<Block>, m: Monitor, m': Monitor, n: nat)
    returns (bs': seq<Block>)
    requires n < |rows| && Tracks(rows, found, bs, m, n) && rows[n].End?
    requires Observe(found, Retirements(rows, |rows|), m, rows[n], n) == Some(m')
    ensures Tracks(rows, found, bs', m', n + 1)
  {
    hide BlockOk, Open, QuietBetween, Observe, Retirements;
    hide Decomposes, RawOwners, Helpers, DistinctTransactions;
    EndObserved(rows, found, m, m', n);
    var p := m.pending.value;
    var b := Shut(p, n);
    ShutIsBlock(rows, found, |bs| + 1, p, n);
    ShutIsRaw(rows, found, |bs| + 1, p, n);
    DistinctGrows(rows, bs, b);
    bs' := bs + [b];
    OneMore(rows, found, bs, b, n);
    OwnersNext(rows, bs, b);
  }

  /** What an accepted END has found, and what it changes. */
  lemma EndObserved(rows: seq<Row>, found: Discoveries, m: Monitor, m': Monitor, n: nat)
    requires n < |rows| && rows[n].End?
    requires Observe(found, Retirements(rows, |rows|), m, rows[n], n) == Some(m')
    ensures m.pending.Some? && m.pending.value.cp.Some? && rows[n] == End(m.pending.value.head)
    ensures var p := m.pending.value;
      && (p.head.owner == Raw ==> p.write.Some?) && RetiresAfter(rows, p.head.generation, n)
      && m' == m.(pending := None, rawOwners := m'.rawOwners)
      && m'.rawOwners == if p.head.owner == Raw then m.rawOwners[p.head.transaction := Shut(p, n)] else m.rawOwners
  {
    hide Retirements;
    RetirementsMeaning(rows, |rows|, rows[n].head.generation, n);
  }

  lemma ShutIsRaw(rows: seq<Row>, found: Discoveries, number: nat, p: Pending, n: nat)
    requires Open(rows, found, number, p, n) && p.cp.Some?
    ensures p.begin < |rows| && rows[p.begin] == Begin(p.head)
    ensures IsRaw(rows, Shut(p, n)) <==> p.head.owner == Raw
  {
  }

  lemma OneMore(rows: seq<Row>, found: Discoveries, bs: seq<Block>, b: Block, n: nat)
    requires n < |rows| && Decomposes(rows, found, bs, b.begin) && BlockOk(rows, found, |bs| + 1, b) && b.end == n
    ensures Decomposes(rows, found, bs + [b], n + 1)
  {
    hide BlockOk, QuietBetween;
    assert (bs + [b])[..|bs|] == bs;
    NothingBetween(rows, n + 1);
  }

  lemma OwnersNext(rows: seq<Row>, bs: seq<Block>, b: Block)
    ensures RawOwners(rows, bs + [b]) ==
      if IsRaw(rows, b) then RawOwners(rows, bs)[rows[b.begin].head.transaction := b] else RawOwners(rows, bs)
    ensures Helpers(rows, bs + [b]) == Helpers(rows, bs) + if IsRaw(rows, b) then 0 else 1
  {
    assert (bs + [b])[..|bs|] == bs;
  }

  lemma NothingBetween(rows: seq<Row>, n: nat)
    requires n <= |rows|
    ensures QuietBetween(rows, n, n)
  {
  }

  lemma QuietExtends(rows: seq<Row>, found: Discoveries, bs: seq<Block>, n: nat)
    requires n < |rows| && Decomposes(rows, found, bs, n) && Quiet(rows[n])
    ensures Decomposes(rows, found, bs, n + 1)
  {
  }

  lemma BeginOpensBlock(rows: seq<Row>, found: Discoveries, bs: seq<Block>, m: Monitor, m': Monitor, n: nat)
    requires n < |rows| && Tracks(rows, found, bs, m, n) && rows[n].Begin?
    requires Observe(found, Retirements(rows, |rows|), m, rows[n], n) == Some(m')
    ensures Tracks(rows, found, bs, m', n + 1)
  {
    assert Open(rows, found, |bs| + 1, m'.pending.value, n + 1);
  }

  lemma RowExtendsBlock(rows: seq<Row>, found: Discoveries, number: nat, m: Monitor, m': Monitor, n: nat)
    requires n < |rows| && m.pending.Some? && Open(rows, found, number, m.pending.value, n)
    requires !rows[n].End? && Observe(found, Retirements(rows, |rows|), m, rows[n], n) == Some(m')
    ensures m'.pending.Some? && Open(rows, found, number, m'.pending.value, n + 1)
    ensures m' == m.(pending := m'.pending)
    ensures m'.pending.value.head == m.pending.value.head && m'.pending.value.begin == m.pending.value.begin
  {
    var p, p' := m.pending.value, m'.pending.value;
    assert p' == match rows[n]
                 case Request(_, _, _) => p.(request := Some(n))
                 case Write(_, _) => p.(write := Some(n))
                 case Cp(_, _, _, _, _) => p.(cp := Some(n))
                 case _ => p;
    OpenExtends(rows, found, number, p, p', n);
  }

  lemma OpenExtends(rows: seq<Row>, found: Discoveries, number: nat, p: Pending, p': Pending, n: nat)
    requires n < |rows| && Open(rows, found, number, p, n)
    requires (p' == p && Quiet(rows[n]))
      || (p' == p.(request := Some(n)) && p.request.None? && p.cp.None? && p.head.owner == Raw &&
        RequestOk(p.head, rows[n]))
      || (p' == p.(write := Some(n)) && p.write.None? && p.request.Some? && WriteOk(p.head, rows[n]))
      || (p' == p.(cp := Some(n)) && p.cp.None? && CpOk(p.head, rows[n]) && (p.head.owner == Raw ==> p.request.Some?))
    ensures Open(rows, found, number, p', n + 1)
  {
  }

  lemma {:induction false} AcceptedDecomposes(rows: seq<Row>, found: Discoveries, n: nat) returns (bs: seq<Block>)
    requires n <= |rows| && Watch(rows, found, n).Some?
    ensures Tracks(rows, found, bs, Watch(rows, found, n).value, n)
  {
    if n == 0 {
      bs := [];
    } else {
      bs := AcceptedDecomposes(rows, found, n - 1);
      var m, m' := Watch(rows, found, n - 1).value, Watch(rows, found, n).value;
      bs := RowTracked(rows, found, bs, m, m', n - 1);
    }
  }

  lemma RowTracked(
    rows: seq<Row>, found: Discoveries, bs: seq<Block>, m: Monitor, m': Monitor, n: nat)
    returns (bs': seq<Block>)
    requires n < |rows| && Tracks(rows, found, bs, m, n)
    requires Observe(found, Retirements(rows, |rows|), m, rows[n], n) == Some(m')
    ensures Tracks(rows, found, bs', m', n + 1)
  {
    bs' := bs;
    if rows[n].End? {
      bs' := EndClosesBlock(rows, found, bs, m, m', n);
    } else if rows[n].Begin? {
      BeginOpensBlock(rows, found, bs, m, m', n);
    } else if m.pending.Some? {
      InnerRowTracked(rows, found, bs, m, m', n);
    } else {
      OuterRowTracked(rows, found, bs, m, m', n);
    }
  }

  lemma InnerRowTracked(rows: seq<Row>, found: Discoveries, bs: seq<Block>, m: Monitor, m': Monitor, n: nat)
    requires n < |rows| && Tracks(rows, found, bs, m, n) && m.pending.Some? && !rows[n].End?
    requires Observe(found, Retirements(rows, |rows|), m, rows[n], n) == Some(m')
    ensures Tracks(rows, found, bs, m', n + 1)
  {
    RowExtendsBlock(rows, found, |bs| + 1, m, m', n);
  }

  lemma OuterRowTracked(rows: seq<Row>, found: Discoveries, bs: seq<Block>, m: Monitor, m': Monitor, n: nat)
    requires n < |rows| && Tracks(rows, found, bs, m, n) && m.pending.None? && !rows[n].Begin?
    requires Observe(found, Retirements(rows, |rows|), m, rows[n], n) == Some(m')
    ensures Tracks(rows, found, bs, m', n + 1)
  {
    QuietExtends(rows, found, bs, n);
  }

  // ---- completeness: what decomposes is accepted -------------------------

  function Until(o: Option<nat>, n: nat): Option<nat> { if o.Some? && o.value < n then o else None }

  /** What the monitor must know about procedure `b` before row `n`. */
  function SeenOf(h: Head, b: Block, n: nat): Pending {
    Pending(h, b.begin, Until(b.request, n), Until(b.write, n), Until(Some(b.cp), n))
  }

  lemma {:induction false} BlockIsWatched(rows: seq<Row>, found: Discoveries, number: nat, b: Block, m: Monitor, n: nat)
    requires BlockOk(rows, found, number, b) && b.begin < n <= b.end
    requires Watch(rows, found, b.begin) == Some(m) && m.pending.None? && m.nextId == number
    requires IsRaw(rows, b) ==> rows[b.begin].head.transaction !in m.rawOwners
    ensures Watch(rows, found, n) ==
      Some(Monitor(Some(SeenOf(rows[b.begin].head, b, n)), number + 1, m.rawOwners,
                   m.helpers + if IsRaw(rows, b) then 0 else 1))
  {
    hide BeginAccepted, CpAccepted, Retirements;
    if n > b.begin + 1 {
      BlockIsWatched(rows, found, number, b, m, n - 1);
    }
  }

  lemma {:induction false} QuietIsWatched(rows: seq<Row>, found: Discoveries, lo: nat, n: nat)
    requires lo <= n && QuietBetween(rows, lo, n)
    ensures Watch(rows, found, n) == Watch(rows, found, lo)
  {
    if lo < n {
      QuietIsWatched(rows, found, lo, n - 1);
    }
  }

  lemma RawOwnersOnly(rows: seq<Row>, bs: seq<Block>, t: nat)
    requires t in RawOwners(rows, bs)
    ensures exists k :: 0 <= k < |bs| && IsRaw(rows, bs[k]) && rows[bs[k].begin].head.transaction == t
  {
    var n := |bs| - 1;
    if !(IsRaw(rows, bs[n]) && rows[bs[n].begin].head.transaction == t) {
      RawOwnersOnly(rows, bs[..n], t);
      var k :| 0 <= k < n && IsRaw(rows, bs[..n][k]) && rows[bs[..n][k].begin].head.transaction == t;
      assert bs[k] == bs[..n][k];
    }
  }

  /** From before BEGIN to after END of one procedure. */
  lemma BlockIsAccepted(rows: seq<Row>, found: Discoveries, number: nat, b: Block, m: Monitor)
    requires BlockOk(rows, found, number, b)
    requires Watch(rows, found, b.begin) == Some(m) && m.pending.None? && m.nextId == number
    requires IsRaw(rows, b) ==> rows[b.begin].head.transaction !in m.rawOwners
    ensures Watch(rows, found, b.end + 1) == Some(Monitor(None, number + 1,
      if IsRaw(rows, b) then m.rawOwners[rows[b.begin].head.transaction := b] else m.rawOwners,
      m.helpers + if IsRaw(rows, b) then 0 else 1))
  {
    BlockIsWatched(rows, found, number, b, m, b.end);
    RetirementsMeaning(rows, |rows|, rows[b.begin].head.generation, b.end);
    assert SeenOf(rows[b.begin].head, b, b.end) ==
      Pending(rows[b.begin].head, b.begin, b.request, b.write, Some(b.cp));
  }

  /** What the monitor knows when exactly these procedures are complete. */
  ghost function Expected(rows: seq<Row>, bs: seq<Block>): Monitor {
    Monitor(None, |bs| + 1, RawOwners(rows, bs), Helpers(rows, bs))
  }

  lemma LastBlockIsAccepted(rows: seq<Row>, found: Discoveries, bs: seq<Block>)
    requires bs != [] && DistinctTransactions(rows, bs) && BlockOk(rows, found, |bs|, bs[|bs| - 1])
    requires Watch(rows, found, bs[|bs| - 1].begin) == Some(Expected(rows, bs[..|bs| - 1]))
    ensures Watch(rows, found, bs[|bs| - 1].end + 1) == Some(Expected(rows, bs))
  {
    var b := bs[|bs| - 1];
    if IsRaw(rows, b) {
      FreshTransaction(rows, bs);
    }
    BlockIsAccepted(rows, found, |bs|, b, Expected(rows, bs[..|bs| - 1]));
  }

  lemma BlockInside(rows: seq<Row>, found: Discoveries, number: nat, b: Block)
    requires BlockOk(rows, found, number, b)
    ensures b.begin < b.end < |rows|
  {
  }

  lemma NothingExpected(rows: seq<Row>)
    ensures Expected(rows, []) == Start
  {
  }

  lemma FewerDistinct(rows: seq<Row>, bs: seq<Block>)
    requires bs != [] && DistinctTransactions(rows, bs)
    ensures DistinctTransactions(rows, bs[..|bs| - 1])
  {
  }

  lemma {:induction false} DecompositionIsAccepted(rows: seq<Row>, found: Discoveries, bs: seq<Block>, n: nat)
    requires n <= |rows| && Decomposes(rows, found, bs, n) && DistinctTransactions(rows, bs)
    ensures Watch(rows, found, n) == Some(Expected(rows, bs))
    decreases |bs|
  {
    hide BlockOk, QuietBetween, Observe, RawOwners, Helpers;
    if bs == [] {
      QuietIsWatched(rows, found, 0, n);
      NothingExpected(rows);
    } else {
      var last := bs[|bs| - 1];
      FewerDistinct(rows, bs);
      BlockInside(rows, found, |bs|, last);
      DecompositionIsAccepted(rows, found, bs[..|bs| - 1], last.begin);
      LastBlockIsAccepted(rows, found, bs);
      QuietIsWatched(rows, found, last.end + 1, n);
    }
  }

  lemma FreshTransaction(rows: seq<Row>, bs: seq<Block>)
    requires bs != [] && DistinctTransactions(rows, bs) && IsRaw(rows, bs[|bs| - 1])
    ensures rows[bs[|bs| - 1].begin].head.transaction !in RawOwners(rows, bs[..|bs| - 1])
  {
    var init, t := bs[..|bs| - 1], rows[bs[|bs| - 1].begin].head.transaction;
    if t in RawOwners(rows, init) {
      RawOwnersOnly(rows, init, t);
    }
  }

  // ---- the main results --------------------------------------------------

  /** Acceptance is exactly well-formedness, and the owners it reports are those of the decomposition. */
  lemma AcceptsIffWellFormed(rows: seq<Row>, found: Discoveries)
    ensures (Watch(rows, found, |rows|).Some? && Complete(Watch(rows, found, |rows|).value))
        <==> exists bs :: WellFormed(rows, found, bs)
    ensures forall bs | WellFormed(rows, found, bs) ::
      Watch(rows, found, |rows|).Some? && Watch(rows, found, |rows|).value.rawOwners == RawOwners(rows, bs)
  {
    var end := Watch(rows, found, |rows|);
    if end.Some? && Complete(end.value) {
      var bs := AcceptedDecomposes(rows, found, |rows|);
      assert WellFormed(rows, found, bs);
    }
    forall bs | WellFormed(rows, found, bs)
      ensures end.Some? && Complete(end.value) && end.value.rawOwners == RawOwners(rows, bs)
    {
      DecompositionIsAccepted(rows, found, bs, |rows|);
    }
  }

  /** `_procedures` */
  method CheckProcedures(rows: seq<Row>, found: Discoveries) returns (owners: Option<map<nat, Block>>)
    ensures owners.Some? <==> exists bs :: WellFormed(rows, found, bs)
    ensures forall bs | WellFormed(rows, found, bs) :: owners == Some(RawOwners(rows, bs))
  {
    hide WellFormed, Observe, RawOwners, Complete;
    var retired: map<nat, nat> := map[];
    for i := 0 to |rows|
      invariant retired == Retirements(rows, i)
    {
      if rows[i].Malformed? {
        MalformedIsRefused(rows, found, i, |rows|);
        AcceptsIffWellFormed(rows, found);
        return None;
      }
      if rows[i].Retired? {
        retired := retired[rows[i].generation := i];
      }
    }
    var m := Start;
    AcceptsIffWellFormed(rows, found);
    for i := 0 to |rows|
      invariant Watch(rows, found, i) == Some(m)
    {
      var next := Observe(found, retired, m, rows[i], i);
      if next.None? {
        RefusalIsFinal(rows, found, i + 1, |rows|);
        return None;
      }
      m := next.value;
    }
    if !Complete(m) {
      return None;
    }
    owners := Some(m.rawOwners);
  }

  lemma {:induction false} RefusalIsFinal(rows: seq<Row>, found: Discoveries, lo: nat, n: nat)
    requires lo <= n <= |rows| && Watch(rows, found, lo).None?
    ensures Watch(rows, found, n).None?
  {
    if lo < n {
      RefusalIsFinal(rows, found, lo, n - 1);
    }
  }

  lemma MalformedIsRefused(rows: seq<Row>, found: Discoveries, i: nat, n: nat)
    requires i < n <= |rows| && rows[i].Malformed?
    ensures Watch(rows, found, n).None?
  {
    RefusalIsFinal(rows, found, i + 1, n);
  }
}
