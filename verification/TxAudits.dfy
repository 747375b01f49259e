/**
 Accounting for transmit registrations and audits in a client log.

 Every registration and audit row must be claimed by exactly one obligation of
 the log, and every discovered stream must either never have been used or be
 retired, forgotten and gone after its last retained result.  Rows are parsed
 and a row's line number is its position.
 */
module TxAudits {
  import opened Common

  datatype Stage = Active | Retained | Partial | Unused | Retire | Forget | Forgotten | OtherStage

  type Stream = (nat, nat)    // generation and ASE index

  datatype Row =
    | Registration(stream: Stream, phase: Option<nat>, ret: Option<int>, staged: bool)
    | Audit(stage: Stage, stream: Stream, phase: Option<nat>, ret: Option<int>, forgetRet: Option<int>,
            resultRet: Option<int>, sends: Option<nat>, fnv: Option<string>)
    | Recovery(generation: nat, recoveryPhase: nat)
    | Transmit(transmitPhase: nat, index: nat, unregistered: bool)
    | PartialSource(accepted: Option<nat>, unregister: Option<nat>)
    | Cleanup(generation: nat, retired: bool)
    | ControlClose(generation: nat, unsubscribe: bool)
    | Unrelated

  datatype Window = Window(begin: nat, end: nat, partial: bool, generation: nat)

  /** The last retained result of a stream. */
  datatype Kept = Kept(count: nat, fnv: string, line: nat)

  predicate Fnv8(s: string) {
    |s| == 8 && forall i | 0 <= i < 8 :: '0' <= s[i] <= '9' || 'a' <= s[i] <= 'f'
  }

  // ---- obligations -------------------------------------------------------

  /** A row wanted strictly between two lines; no stage means a registration. */
  datatype Want = Want(stage: Option<Stage>, stream: Stream, low: int, high: int, phase: Option<nat>)

  predicate Candidate(row: Row, w: Want) {
    match row
    case Registration(stream, _, _, staged) => w.stage.None? && !staged && stream == w.stream
    case Audit(stage, stream, _, _, _, _, _, _) => w.stage == Some(stage) && stream == w.stream
    case _ => false
  }

  predicate Fits(rows: seq<Row>, i: nat, w: Want)
    requires i < |rows|
  {
    w.low < i < w.high && Candidate(rows[i], w) && (w.phase.None? || rows[i].phase == w.phase)
  }

  predicate Claimable(row: Row) { row.Registration? || row.Audit? }

  /** A candidate row whose phase is wanted but cannot be read. */
  predicate Unreadable(rows: seq<Row>, i: nat, w: Want, used: set<nat>) requires i < |rows| {
    i !in used && w.low < i < w.high && Candidate(rows[i], w) && w.phase.Some? && rows[i].phase.None?
  }

  /** The one row that an obligation claims. */
  ghost predicate OnlyFit(rows: seq<Row>, w: Want, used: set<nat>, i: nat) {
    && i < |rows| && i !in used && Fits(rows, i, w)
    && (forall j | 0 <= j < |rows| && j !in used && Fits(rows, j, w) :: j == i)
    && (forall j | 0 <= j < |rows| :: !Unreadable(rows, j, w, used))
  }

  ghost function OneOf(rows: seq<Row>, w: Want, used: set<nat>): (r: Option<nat>)
    ensures forall i: nat :: r == Some(i) <==> OnlyFit(rows, w, used, i)
  {
    if exists i: nat :: OnlyFit(rows, w, used, i) then
      var i: nat :| OnlyFit(rows, w, used, i);
      Some(i)
    else None
  }

  /** `one`: the only unclaimed row that fits, if there is exactly one. */
  method One(rows: seq<Row>, w: Want, used: set<nat>) returns (line: Option<nat>)
    ensures line == OneOf(rows, w, used)
  {
    line := None;
    var matches := 0;
    ghost var first: nat := 0;
    for i := 0 to |rows|
      invariant matches == 0 <==> line.None?
      invariant line.Some? ==> line.value < i && Fits(rows, line.value, w) && line.value !in used
      invariant matches <= 1 ==> forall j | 0 <= j < i && j !in used && Fits(rows, j, w) :: Some(j) == line
      invariant matches >= 2 ==> first < line.value && first !in used && Fits(rows, first, w)
      invariant forall j | 0 <= j < i :: !Unreadable(rows, j, w, used)
    {
      if i !in used && w.low < i < w.high && Candidate(rows[i], w) {
        if w.phase.Some? && rows[i].phase.None? {
          assert Unreadable(rows, i, w, used);
          return None;   // the phase of a candidate row must be readable
        }
        if Fits(rows, i, w) {
          first := if line.Some? then line.value else 0;
          line, matches := Some(i), matches + 1;
        }
      }
    }
    if matches != 1 {
      ghost var last := line;
      line := None;
      assert matches >= 2 ==> last.value != first;
    } else {
      assert OnlyFit(rows, w, used, line.value);
    }
  }

  /** Rows that are looked up without being claimed. */
  datatype Pick = Sent(phase: nat, index: nat) | AcceptedPart | DrainedPart | RetiredBy(generation: nat) |
    UnsubscribedBy(generation: nat)

  predicate Picks(pick: Pick, row: Row) {
    match pick
    case Sent(phase, x) => row.Transmit? && row.transmitPhase == phase && row.index == x && row.unregistered
    case AcceptedPart => row.PartialSource? && row.accepted.Some?
    case DrainedPart => row.PartialSource? && row.unregister.Some?
    case RetiredBy(g) => row.Cleanup? && row.generation == g && row.retired
    case UnsubscribedBy(g) => row.ControlClose? && row.generation == g && row.unsubscribe
  }

  ghost predicate OnlySuch(rows: seq<Row>, low: int, high: int, pick: Pick, i: nat) {
    && i < |rows| && low < i < high && Picks(pick, rows[i])
    && forall j | 0 <= j < |rows| && low < j < high && Picks(pick, rows[j]) :: j == i
  }

  ghost function SoleOf(rows: seq<Row>, low: int, high: int, pick: Pick): (r: Option<nat>)
    ensures forall i: nat :: r == Some(i) <==> OnlySuch(rows, low, high, pick, i)
  {
    if exists i: nat :: OnlySuch(rows, low, high, pick, i) then
      var i: nat :| OnlySuch(rows, low, high, pick, i);
      Some(i)
    else None
  }

  /** The only row with this property. */
  method Sole(rows: seq<Row>, low: int, high: int, pick: Pick) returns (line: Option<nat>)
    ensures line == SoleOf(rows, low, high, pick)
  {
    line := None;
    var matches := 0;
    ghost var first: nat := 0;
    for i := 0 to |rows|
      invariant matches == 0 <==> line.None?
      invariant line.Some? ==> line.value < i && low < line.value < high && Picks(pick, rows[line.value])
      invariant matches <= 1 ==> forall j | 0 <= j < i && low < j < high && Picks(pick, rows[j]) :: Some(j) == line
      invariant matches >= 2 ==> first < line.value && low < first < high && Picks(pick, rows[first])
    {
      if low < i < high && Picks(pick, rows[i]) {
        first := if line.Some? then line.value else 0;
        line, matches := Some(i), matches + 1;
      }
    }
    if matches != 1 {
      ghost var last := line;
      line := None;
      assert matches >= 2 ==> last.value != first;
    } else {
      assert OnlySuch(rows, low, high, pick, line.value);
    }
  }

  // ---- duties and who meets them -----------------------------------------

  datatype Kind = Register | Guard | Keep

  /** Why a row is claimed: by an ASE of a recovery, by a partial source, or by a stream's end. */
  datatype Duty =
    | Recovering(window: nat, recovery: nat, ase: nat, kind: Kind)
    | Resuming(window: nat, kind: Kind)
    | Ending(ended: Stream, stage: Stage)

  /** The claimed lines, each with its duty. */
  type Owners = map<nat, Duty>

  /** The claims of the windows, and the result booked for each stream. */
  datatype Books = Books(owners: Owners, results: map<Stream, Kept>)

  predicate Retention(row: Row) { row.Audit? && (row.stage == Retained || row.stage == Partial) }

  predicate Sound(row: Row, sends: nat) {
    row.Audit? && row.ret == Some(0) && row.sends == Some(sends) && row.fnv.Some? && Fnv8(row.fnv.value)
  }

  ghost predicate AuditAt(rows: seq<Row>, line: nat, stage: Stage, stream: Stream) {
    line < |rows| && rows[line].Audit? && rows[line].stage == stage && rows[line].stream == stream
  }

  ghost predicate RecoveryIn(rows: seq<Row>, w: Window, q: int) {
    w.begin < q < w.end && q < |rows| && rows[q].Recovery?
  }

  /** The duties that the windows of a log give rise to. */
  ghost predicate Opening(rows: seq<Row>, windows: seq<Window>, d: Duty) {
    match d
    case Recovering(i, q, x, _) => i < |windows| && RecoveryIn(rows, windows[i], q) && x < 2
    case Resuming(i, kind) => i < |windows| && windows[i].partial && kind != Guard
    case Ending(_, _) => false
  }

  /** The stream that a duty is about. */
  ghost function StreamOf(rows: seq<Row>, windows: seq<Window>, d: Duty): Stream {
    match d
    case Recovering(_, q, x, _) => (if q < |rows| && rows[q].Recovery? then rows[q].generation else 0, x)
    case Resuming(i, _) => (if i < |windows| then windows[i].generation else 0, 0)
    case Ending(s, _) => s
  }

  /** The one successful unregistration of this ASE and phase in the window lies between recovery and row. */
  ghost predicate UnregisteredBetween(rows: seq<Row>, w: Window, phase: nat, x: nat, q: nat, l: nat) {
    exists t ::
      && q < t < l && t < |rows| && rows[t] == Transmit(phase, x, true)
      && forall u | w.begin < u < w.end && u < |rows| && rows[u] == Transmit(phase, x, true) :: u == t
  }

  /** The one acceptance count of the window's partial source is 10 and comes after the row. */
  ghost predicate AcceptedAfter(rows: seq<Row>, w: Window, l: nat) {
    exists t ::
      && l < t < w.end && t < |rows| && rows[t].PartialSource? && rows[t].accepted == Some(10)
      && forall u | w.begin < u < w.end && u < |rows| && rows[u].PartialSource? && rows[u].accepted.Some? :: u == t
  }

  /** The one unregistration of the window's partial source succeeded and comes before the row. */
  ghost predicate DrainedBefore(rows: seq<Row>, w: Window, l: nat) {
    exists t ::
      && w.begin < t < l && t < |rows| && rows[t].PartialSource? && rows[t].unregister == Some(0)
      && forall u | w.begin < u < w.end && u < |rows| && rows[u].PartialSource? && rows[u].unregister.Some? :: u == t
  }

  /** The row lies between the generation's one unsubscription and its one retirement. */
  ghost predicate Bracketed(rows: seq<Row>, g: nat, l: nat) {
    exists u, c ::
      && 0 <= u < l < c < |rows| && rows[u] == ControlClose(g, true) && rows[c] == Cleanup(g, true)
      && (forall j | 0 <= j < |rows| && rows[j] == ControlClose(g, true) :: j == u)
      && (forall j | 0 <= j < |rows| && rows[j] == Cleanup(g, true) :: j == c)
  }

  /** What a duty asks of its row. */
  ghost predicate Meets(rows: seq<Row>, windows: seq<Window>, d: Duty, l: nat) {
    match d
    case Recovering(i, q, x, kind) =>
      && Opening(rows, windows, d) && l < |rows|
      && var w, s, phase := windows[i], (rows[q].generation, x), rows[q].recoveryPhase;
      (match kind
       case Register => w.begin < l < q && rows[l] == Registration(s, Some(phase), Some(0), false)
       case Guard =>
         && w.begin < l < q && AuditAt(rows, l, Active, s)
         && rows[l].phase == Some(phase) && rows[l].forgetRet == Some(-16)
       case Keep =>
         && q < l < w.end && AuditAt(rows, l, Retained, s) && rows[l].phase == Some(phase) && Sound(rows[l], 30)
         && UnregisteredBetween(rows, w, phase, x, q, l))
    case Resuming(i, kind) =>
      && Opening(rows, windows, d) && l < |rows|
      && var w, s := windows[i], (windows[i].generation, 0);
      (if kind == Register then
         && w.begin < l && rows[l].Registration? && rows[l].stream == s && !rows[l].staged && rows[l].ret == Some(0)
         && AcceptedAfter(rows, w, l)
       else l < w.end && AuditAt(rows, l, Partial, s) && Sound(rows[l], 10) && DrainedBefore(rows, w, l))
    case Ending(s, stage) => AuditAt(rows, l, stage, s) && Bracketed(rows, s.0, l)
  }

  ghost predicate Holds(owners: Owners, l: nat, d: Duty) { l in owners && owners[l] == d }

  ghost predicate Owned(owners: Owners, d: Duty) { exists l :: l in owners && owners[l] == d }

  /** No duty claims two rows. */
  ghost predicate Injective(owners: Owners) {
    forall l, m | l in owners && m in owners && owners[l] == owners[m] :: l == m
  }

  // ---- the order in which duties come up ---------------------------------

  datatype Clock = Clock(window: nat, line: nat, ase: nat, step: nat)

  predicate Less(a: Clock, b: Clock) {
    match a case Clock(i, q, x, k) =>
      i < b.window || (i == b.window && (q < b.line || (q == b.line && (x < b.ase || (x == b.ase && k < b.step)))))
  }

  function Rank(kind: Kind): nat {
    match kind
    case Register => 0
    case Guard => 1
    case Keep => 2
  }

  /** A partial source comes after all recoveries of its window. */
  function ClockOf(rows: seq<Row>, d: Duty): Clock {
    match d
    case Recovering(i, q, x, kind) => Clock(i, q, x, Rank(kind))
    case Resuming(i, kind) => Clock(i, |rows|, 0, Rank(kind))
    case Ending(_, _) => Clock(0, 0, 0, 0)
  }

  function Next(c: Clock): Clock { c.(step := c.step + 1) }

  lemma ClockInjective(rows: seq<Row>, windows: seq<Window>, d: Duty, e: Duty)
    requires Opening(rows, windows, d) && Opening(rows, windows, e) && ClockOf(rows, d) == ClockOf(rows, e)
    ensures d == e
  {}

  lemma LessNext(a: Clock, c: Clock)
    ensures Less(a, Next(c)) <==> Less(a, c) || a == c
    ensures !Less(c, c)
  {}

  /** Exactly the duties before the clock have been met, each by one row. */
  ghost predicate Ledger(rows: seq<Row>, windows: seq<Window>, owners: Owners, c: Clock) {
    && Injective(owners)
    && (forall l | l in owners :: Meets(rows, windows, owners[l], l))
    && (forall d :: Owned(owners, d) <==> Opening(rows, windows, d) && Less(ClockOf(rows, d), c))
  }

  lemma LedgerClaim(rows: seq<Row>, windows: seq<Window>, owners: Owners, c: Clock, d: Duty, l: nat)
    requires Ledger(rows, windows, owners, c) && l !in owners
    requires Opening(rows, windows, d) && ClockOf(rows, d) == c && Meets(rows, windows, d, l)
    ensures Ledger(rows, windows, owners[l := d], Next(c))
  {
    hide Meets, Opening, Less, ClockOf;
    var owners' := owners[l := d];
    LessNext(c, c);
    assert !Owned(owners, d);
    forall e ensures Owned(owners', e) <==> Opening(rows, windows, e) && Less(ClockOf(rows, e), Next(c)) {
      OwnedAfter(owners, l, d, e);
      LessNext(ClockOf(rows, e), c);
      if Opening(rows, windows, e) && ClockOf(rows, e) == c {
        ClockInjective(rows, windows, d, e);
      }
    }
    forall a, b | a in owners' && b in owners' && owners'[a] == owners'[b] ensures a == b {
      assert a != l ==> Owned(owners, owners'[a]);
      assert b != l ==> Owned(owners, owners'[b]);
    }
  }

  lemma OwnedAfter(owners: Owners, l: nat, d: Duty, e: Duty)
    requires l !in owners
    ensures Owned(owners[l := d], e) <==> Owned(owners, e) || e == d
  {
    var owners' := owners[l := d];
    if Owned(owners, e) {
      var m :| m in owners && owners[m] == e;
      assert m in owners' && owners'[m] == e;
    }
    assert l in owners' && owners'[l] == d;
  }

  /** The clock may move on where no duty is due. */
  lemma LedgerSkip(rows: seq<Row>, windows: seq<Window>, owners: Owners, c: Clock, c': Clock)
    requires Ledger(rows, windows, owners, c)
    requires forall d | Opening(rows, windows, d) :: Less(ClockOf(rows, d), c) <==> Less(ClockOf(rows, d), c')
    ensures Ledger(rows, windows, owners, c')
  {
    hide Meets, Opening, Less, ClockOf;
  }

  predicate IsKeep(d: Duty) { !d.Ending? && d.kind == Keep }

  /** The row at `k.line` is a sound retained result of this stream with these values. */
  ghost predicate KeptAt(rows: seq<Row>, stream: Stream, k: Kept) {
    && k.line < |rows| && Retention(rows[k.line])
    && rows[k.line].stream == stream && rows[k.line].ret == Some(0)
    && rows[k.line].sends == Some(k.count) && rows[k.line].fnv == Some(k.fnv) && Fnv8(k.fnv)
    && k.count == if rows[k.line].stage == Retained then 30 else 10
  }

  ghost predicate BookedAt(rows: seq<Row>, owners: Owners, s: Stream, k: Kept) {
    k.line in owners && IsKeep(owners[k.line]) && KeptAt(rows, s, k)
  }

  /** The stream of the row at `l` is booked, and not with an earlier duty's result. */
  ghost predicate UpToDate(rows: seq<Row>, owners: Owners, results: map<Stream, Kept>, l: nat) {
    && l in owners && l < |rows| && rows[l].Audit? && rows[l].stream in results
    && var line := results[rows[l].stream].line;
    line in owners && !Less(ClockOf(rows, owners[line]), ClockOf(rows, owners[l]))
  }

  /** Each stream is booked with what its last duty to keep has kept. */
  ghost predicate Booked(rows: seq<Row>, b: Books) {
    match b case Books(owners, results) =>
      && (forall s | s in results :: BookedAt(rows, owners, s, results[s]))
      && (forall l | l in owners && IsKeep(owners[l]) :: UpToDate(rows, owners, results, l))
  }

  /** The duty of another kind at the same place. */
  function As(d: Duty, kind: Kind): Duty {
    match d
    case Recovering(i, q, x, _) => Recovering(i, q, x, kind)
    case Resuming(i, _) => Resuming(i, kind)
    case Ending(_, _) => d
  }

  /** A registration comes before its guard. */
  ghost predicate Guarded(owners: Owners) {
    forall l, m | l in owners && m in owners && owners[l].Recovering? && owners[l].kind == Register &&
                  owners[m] == As(owners[l], Guard) ::
      l < m
  }

  /** A row of this kind and stream whose phase, where one is wanted, is that phase or cannot be read. */
  ghost predicate Alike(row: Row, stage: Option<Stage>, s: Stream, phase: Option<nat>) {
    && (if stage.None? then row.Registration? && !row.staged else row.Audit? && row.stage == stage.value)
    && row.stream == s && (phase.Some? ==> row.phase.None? || row.phase == phase)
  }

  ghost predicate RegisteredBefore(owners: Owners, d: Duty, m: nat) {
    exists r: nat :: Holds(owners, r, d) && r < m
  }

  /** A row that could be taken for the one a duty is about. */
  ghost predicate Contends(rows: seq<Row>, windows: seq<Window>, owners: Owners, d: Duty, m: nat) {
    match d
    case Recovering(i, q, x, kind) =>
      && i < |windows| && q < |rows| && rows[q].Recovery? && m < |rows|
      && var w, s, phase := windows[i], (rows[q].generation, x), rows[q].recoveryPhase;
      (match kind
       case Register => Alike(rows[m], None, s, Some(phase)) && w.begin < m < q
       case Guard =>
         Alike(rows[m], Some(Active), s, Some(phase)) && m < q && RegisteredBefore(owners, As(d, Register), m)
       case Keep =>
         && Alike(rows[m], Some(Retained), s, Some(phase)) && m < w.end
         && exists t :: w.begin < t < m && t < |rows| && rows[t] == Transmit(phase, x, true))
    case Resuming(i, kind) =>
      && i < |windows| && m < |rows|
      && var w, s := windows[i], (windows[i].generation, 0);
      (if kind == Register then
         && Alike(rows[m], None, s, None) && w.begin < m
         && exists t :: m < t < w.end && t < |rows| && rows[t].PartialSource? && rows[t].accepted.Some?
       else
         && Alike(rows[m], Some(Partial), s, None) && m < w.end
         && exists t :: w.begin < t < m && t < |rows| && rows[t].PartialSource? && rows[t].unregister.Some?)
    case Ending(_, _) => false
  }

  /** Whatever could be taken for a duty's row belongs to an earlier duty. */
  ghost predicate Unambiguous(rows: seq<Row>, windows: seq<Window>, owners: Owners) {
    forall l, m: nat | l in owners && m != l && Contends(rows, windows, owners, owners[l], m) ::
      m in owners && !owners[m].Ending? && Less(ClockOf(rows, owners[m]), ClockOf(rows, owners[l]))
  }

  /** Every row that could be taken for this one is claimed already. */
  ghost predicate Uncontended(rows: seq<Row>, windows: seq<Window>, owners: Owners, d: Duty, l: nat) {
    forall m: nat | m != l && Contends(rows, windows, owners, d, m) :: m in owners
  }

  ghost predicate Opened(rows: seq<Row>, windows: seq<Window>, b: Books, c: Clock) {
    Ledger(rows, windows, b.owners, c) && Booked(rows, b) && Guarded(b.owners) && Unambiguous(rows, windows, b.owners)
  }

  lemma BookedGrows(rows: seq<Row>, b: Books, d: Duty, l: nat)
    requires Booked(rows, b) && l !in b.owners && !IsKeep(d)
    ensures Booked(rows, Books(b.owners[l := d], b.results))
  {
    hide BookedAt, UpToDate;
    var owners' := b.owners[l := d];
    forall s | s in b.results ensures BookedAt(rows, owners', s, b.results[s]) {
      BookedAtGrows(rows, b.owners, d, l, s, b.results[s]);
    }
    forall m | m in owners' && IsKeep(owners'[m]) ensures UpToDate(rows, owners', b.results, m) {
      UpToDateGrows(rows, b.owners, b.results, d, l, m);
    }
  }

  lemma BookedAtGrows(rows: seq<Row>, owners: Owners, d: Duty, l: nat, s: Stream, k: Kept)
    requires BookedAt(rows, owners, s, k) && l !in owners
    ensures BookedAt(rows, owners[l := d], s, k)
  {
    hide KeptAt;
  }

  lemma UpToDateGrows(rows: seq<Row>, owners: Owners, results: map<Stream, Kept>, d: Duty, l: nat, m: nat)
    requires UpToDate(rows, owners, results, m) && l !in owners
    ensures UpToDate(rows, owners[l := d], results, m)
  {
    hide Less, ClockOf;
  }

  lemma BookedClaim(rows: seq<Row>, windows: seq<Window>, b: Books, c: Clock, d: Duty, s: Stream, k: Kept)
    requires Booked(rows, b) && Ledger(rows, windows, b.owners, c) && k.line !in b.owners
    requires IsKeep(d) && ClockOf(rows, d) == c && KeptAt(rows, s, k)
    ensures Booked(rows, Books(b.owners[k.line := d], b.results[s := k]))
  {
    hide BookedAt, UpToDate, Ledger;
    var owners', results' := b.owners[k.line := d], b.results[s := k];
    forall t | t in results' ensures BookedAt(rows, owners', t, results'[t]) {
      if t == s {
        BookedNow(rows, b.owners, d, s, k);
      } else {
        BookedAtGrows(rows, b.owners, d, k.line, t, b.results[t]);
      }
    }
    forall m | m in owners' && IsKeep(owners'[m]) ensures UpToDate(rows, owners', results', m) {
      if m != k.line {
        UpToDateGrows(rows, b.owners, b.results, d, k.line, m);
      }
      UpToDateNow(rows, windows, b, c, d, s, k, m);
    }
  }

  lemma BookedNow(rows: seq<Row>, owners: Owners, d: Duty, s: Stream, k: Kept)
    requires IsKeep(d) && KeptAt(rows, s, k)
    ensures BookedAt(rows, owners[k.line := d], s, k)
  {
    hide KeptAt;
  }

  /** A result booked now is newer than all others. */
  lemma UpToDateNow(rows: seq<Row>, windows: seq<Window>, b: Books, c: Clock, d: Duty, s: Stream, k: Kept, m: nat)
    requires Ledger(rows, windows, b.owners, c) && k.line !in b.owners && ClockOf(rows, d) == c && KeptAt(rows, s, k)
    requires m == k.line || (m in b.owners && UpToDate(rows, b.owners[k.line := d], b.results, m))
    ensures UpToDate(rows, b.owners[k.line := d], b.results[s := k], m)
  {
    hide Less, ClockOf, Opening, Meets, Fnv8;
    LessNext(c, c);
    if m in b.owners {
      assert Owned(b.owners, b.owners[m]);
      LessAsymmetric(ClockOf(rows, b.owners[m]), c);
    }
  }

  lemma LessAsymmetric(a: Clock, b: Clock)
    requires Less(a, b)
    ensures !Less(b, a)
  {}

  /** Later claims change nothing for a claimed duty. */
  lemma ContendsSame(
    rows: seq<Row>, windows: seq<Window>, owners: Owners, c: Clock, d: Duty, l: nat, e: Duty, m: nat)
    requires Ledger(rows, windows, owners, c) && l !in owners && ClockOf(rows, d) == c && Opening(rows, windows, d)
    requires e == d || Owned(owners, e)
    ensures Contends(rows, windows, owners[l := d], e, m) <==> Contends(rows, windows, owners, e, m)
  {
    if e.Recovering? && e.kind == Guard {
      NotTheRegistration(rows, windows, owners, c, d, e);
      SameBefore(owners, d, l, As(e, Register), m);
    }
    hide Ledger, Opening, ClockOf, Alike, RegisteredBefore;
  }

  lemma SameBefore(owners: Owners, d: Duty, l: nat, e: Duty, m: nat)
    requires l !in owners && d != e
    ensures RegisteredBefore(owners[l := d], e, m) <==> RegisteredBefore(owners, e, m)
  {
    if RegisteredBefore(owners, e, m) {
      var r: nat :| Holds(owners, r, e) && r < m;
      assert Holds(owners[l := d], r, e);
    }
    if RegisteredBefore(owners[l := d], e, m) {
      var r: nat :| Holds(owners[l := d], r, e) && r < m;
      assert Holds(owners, r, e);
    }
  }

  lemma NotTheRegistration(rows: seq<Row>, windows: seq<Window>, owners: Owners, c: Clock, d: Duty, e: Duty)
    requires Ledger(rows, windows, owners, c) && ClockOf(rows, d) == c && (e == d || Owned(owners, e))
    requires e.Recovering? && e.kind == Guard
    ensures d != As(e, Register)
  {
    hide Meets, Opening, Injective;
    assert Owned(owners, e) ==> Less(ClockOf(rows, e), c);
  }

  lemma UnambiguousClaim(rows: seq<Row>, windows: seq<Window>, owners: Owners, c: Clock, d: Duty, l: nat)
    requires Unambiguous(rows, windows, owners) && Ledger(rows, windows, owners, c) && l !in owners
    requires Opening(rows, windows, d) && ClockOf(rows, d) == c && Uncontended(rows, windows, owners, d, l)
    ensures Unambiguous(rows, windows, owners[l := d])
  {
    hide Ledger, Contends, ClockOf, Less, Opening;
    var owners' := owners[l := d];
    forall a, m: nat | a in owners' && m != a && Contends(rows, windows, owners', owners'[a], m)
      ensures m in owners' && !owners'[m].Ending? && Less(ClockOf(rows, owners'[m]), ClockOf(rows, owners'[a]))
    {
      assert a != l ==> Owned(owners, owners[a]);
      ContendsSame(rows, windows, owners, c, d, l, owners'[a], m);
      if a == l {
        ClaimedIsEarlier(rows, windows, owners, c, m);
      } else {
        assert m in owners;
      }
    }
  }

  lemma ClaimedIsEarlier(rows: seq<Row>, windows: seq<Window>, owners: Owners, c: Clock, m: nat)
    requires Ledger(rows, windows, owners, c) && m in owners
    ensures !owners[m].Ending? && Less(ClockOf(rows, owners[m]), c)
  {
    hide Meets, Less, ClockOf;
    assert Owned(owners, owners[m]);
  }

  lemma GuardedGrows(owners: Owners, d: Duty, l: nat)
    requires Guarded(owners) && l !in owners
    requires d.Recovering? && d.kind == Guard ==>
      forall r | r in owners && owners[r] == As(d, Register) :: r < l
    requires d.Recovering? && d.kind == Register ==> !Owned(owners, As(d, Guard))
    ensures Guarded(owners[l := d])
  {
    var owners' := owners[l := d];
    forall a, b | a in owners' && b in owners' && owners'[a].Recovering? && owners'[a].kind == Register &&
                  owners'[b] == As(owners'[a], Guard)
      ensures a < b
    {
      if a == l {
        assert b != l && Owned(owners, As(d, Guard));
      }
      if b == l {
        assert owners[a] == As(d, Register);
      }
    }
  }

  /** A claim that keeps no result. */
  lemma ClaimPlain(rows: seq<Row>, windows: seq<Window>, b: Books, c: Clock, d: Duty, l: nat)
    requires Opened(rows, windows, b, c) && l !in b.owners && !IsKeep(d)
    requires Opening(rows, windows, d) && ClockOf(rows, d) == c && Meets(rows, windows, d, l)
    requires d.Recovering? && d.kind == Guard ==>
      forall r | r in b.owners && b.owners[r] == As(d, Register) :: r < l
    requires Uncontended(rows, windows, b.owners, d, l)
    ensures Opened(rows, windows, Books(b.owners[l := d], b.results), Next(c))
  {
    hide Ledger, Booked, Guarded, Unambiguous, Uncontended, Meets, Opening;
    LedgerClaim(rows, windows, b.owners, c, d, l);
    BookedGrows(rows, b, d, l);
    UnambiguousClaim(rows, windows, b.owners, c, d, l);
    if d.Recovering? && d.kind == Register {
      NotYetGuarded(rows, windows, b.owners, c, d);
    }
    GuardedGrows(b.owners, d, l);
  }

  lemma NotYetGuarded(rows: seq<Row>, windows: seq<Window>, owners: Owners, c: Clock, d: Duty)
    requires Ledger(rows, windows, owners, c) && d.Recovering? && d.kind == Register && ClockOf(rows, d) == c
    ensures !Owned(owners, As(d, Guard))
  {
    hide Meets, Opening;
    assert !Less(ClockOf(rows, As(d, Guard)), c);
  }

  /** A claim that keeps a result. */
  lemma ClaimKeep(rows: seq<Row>, windows: seq<Window>, b: Books, c: Clock, d: Duty, s: Stream, k: Kept)
    requires Opened(rows, windows, b, c) && k.line !in b.owners && IsKeep(d)
    requires Opening(rows, windows, d) && ClockOf(rows, d) == c && Meets(rows, windows, d, k.line)
    requires KeptAt(rows, s, k) && Uncontended(rows, windows, b.owners, d, k.line)
    ensures Opened(rows, windows, Books(b.owners[k.line := d], b.results[s := k]), Next(c))
  {
    hide Ledger, Booked, Guarded, Unambiguous, Uncontended, Meets, Opening, KeptAt;
    LedgerClaim(rows, windows, b.owners, c, d, k.line);
    BookedClaim(rows, windows, b, c, d, s, k);
    GuardedGrows(b.owners, d, k.line);
    UnambiguousClaim(rows, windows, b.owners, c, d, k.line);
  }

  lemma OpenedSkip(rows: seq<Row>, windows: seq<Window>, b: Books, c: Clock, c': Clock)
    requires Opened(rows, windows, b, c)
    requires forall d | Opening(rows, windows, d) :: Less(ClockOf(rows, d), c) <==> Less(ClockOf(rows, d), c')
    ensures Opened(rows, windows, b, c')
  {
    hide Ledger, Booked, Guarded, Unambiguous, Opening, Less, ClockOf;
    LedgerSkip(rows, windows, b.owners, c, c');
  }

  // ---- the windows: registrations, guards and retained results -----------

  /** The books after one ASE of the recovery at `q` of window `i`, if its duties are met. */
  ghost function AseBooks(rows: seq<Row>, windows: seq<Window>, i: nat, q: nat, x: nat, b: Books): Option<Books>
    requires i < |windows| && q < |rows| && rows[q].Recovery?
  {
    var w, stream, phase := windows[i], (rows[q].generation, x), rows[q].recoveryPhase;
    var reg := OneOf(rows, Want(None, stream, w.begin, q, Some(phase)), b.owners.Keys);
    if reg.None? || rows[reg.value].ret != Some(0) then None else
    var owners := b.owners[reg.value := Recovering(i, q, x, Register)];
    var active := OneOf(rows, Want(Some(Active), stream, reg.value, q, Some(phase)), owners.Keys);
    if active.None? || rows[active.value].forgetRet != Some(-16) then None else
    var guarded := owners[active.value := Recovering(i, q, x, Guard)];
    var tx := SoleOf(rows, w.begin, w.end, Sent(phase, x));
    if tx.None? || tx.value <= q then None else
    var kept := OneOf(rows, Want(Some(Retained), stream, tx.value, w.end, Some(phase)), guarded.Keys);
    if kept.None? || !Sound(rows[kept.value], 30) then None else
    Some(Books(guarded[kept.value := Recovering(i, q, x, Keep)],
               b.results[stream := Kept(30, rows[kept.value].fnv.value, kept.value)]))
  }

  /** One ASE of one recovery: registered, guarded while active, unregistered, retained. */
  method RecoverAse(rows: seq<Row>, windows: seq<Window>, i: nat, q: nat, x: nat, b: Books) returns (r: Option<Books>)
    requires i < |windows| && q < |rows| && rows[q].Recovery?
    ensures r == AseBooks(rows, windows, i, q, x, b)
  {
    hide OnlyFit, OnlySuch;
    var w, stream, phase := windows[i], (rows[q].generation, x), rows[q].recoveryPhase;
    var reg := One(rows, Want(None, stream, w.begin, q, Some(phase)), b.owners.Keys);
    Within(rows);
    if reg.None? || rows[reg.value].ret != Some(0) {
      return None;
    }
    var owners := b.owners[reg.value := Recovering(i, q, x, Register)];
    var active := One(rows, Want(Some(Active), stream, reg.value, q, Some(phase)), owners.Keys);
    if active.None? || rows[active.value].forgetRet != Some(-16) {
      return None;
    }
    owners := owners[active.value := Recovering(i, q, x, Guard)];
    var tx := Sole(rows, w.begin, w.end, Sent(phase, x));
    if tx.None? || tx.value <= q {
      return None;
    }
    var kept := One(rows, Want(Some(Retained), stream, tx.value, w.end, Some(phase)), owners.Keys);
    if kept.None? || !Sound(rows[kept.value], 30) {
      return None;
    }
    owners := owners[kept.value := Recovering(i, q, x, Keep)];
    return Some(Books(owners, b.results[stream := Kept(30, rows[kept.value].fnv.value, kept.value)]));
  }

  /** What is found is a row, of the kind that was wanted. */
  lemma Within(rows: seq<Row>)
    ensures forall w, used, i: nat | OneOf(rows, w, used) == Some(i) ::
      i < |rows| && rows[i].Registration? == w.stage.None? && rows[i].Audit? == w.stage.Some?
    ensures forall low, high, pick: Pick, i: nat | SoleOf(rows, low, high, pick) == Some(i) ::
      i < |rows| && low < i < high && Picks(pick, rows[i])
  {}

  /** A row found for the whole of a duty's stretch leaves no other that could be taken for it. */
  lemma FoundIsUncontended(
    rows: seq<Row>, windows: seq<Window>, owners: Owners, d: Duty, w: Want, l: nat)
    requires OneOf(rows, w, owners.Keys) == Some(l)
    requires forall m: nat | Contends(rows, windows, owners, d, m) ::
      m < |rows| && w.low < m < w.high && Alike(rows[m], w.stage, w.stream, w.phase)
    ensures Uncontended(rows, windows, owners, d, l)
  {
    hide Contends;
    assert OnlyFit(rows, w, owners.Keys, l);
    forall m: nat | m != l && Contends(rows, windows, owners, d, m) ensures m in owners {
      assert !Unreadable(rows, m, w, owners.Keys);
      assert m !in owners.Keys ==> !Fits(rows, m, w);
    }
  }

  lemma RegisterClaimed(rows: seq<Row>, windows: seq<Window>, i: nat, q: nat, x: nat, b: Books, reg: nat)
    requires i < |windows| && RecoveryIn(rows, windows[i], q) && x < 2 && Opened(rows, windows, b, Clock(i, q, x, 0))
    requires var w, s, phase := windows[i], (rows[q].generation, x), rows[q].recoveryPhase;
      OneOf(rows, Want(None, s, w.begin, q, Some(phase)), b.owners.Keys) == Some(reg) && rows[reg].ret == Some(0)
    ensures Opened(rows, windows, Books(b.owners[reg := Recovering(i, q, x, Register)], b.results), Clock(i, q, x, 1))
  {
    hide Opened;
    var w, s, phase := windows[i], (rows[q].generation, x), rows[q].recoveryPhase;
    var d, want := Recovering(i, q, x, Register), Want(None, s, w.begin, q, Some(phase));
    assert OnlyFit(rows, want, b.owners.Keys, reg);
    FoundIsUncontended(rows, windows, b.owners, d, want, reg);
    hide OnlyFit, Uncontended;
    ClaimPlain(rows, windows, b, Clock(i, q, x, 0), d, reg);
  }

  lemma GuardClaimed(rows: seq<Row>, windows: seq<Window>, i: nat, q: nat, x: nat, b: Books, reg: nat, active: nat)
    requires i < |windows| && RecoveryIn(rows, windows[i], q) && x < 2 && Opened(rows, windows, b, Clock(i, q, x, 1))
    requires Holds(b.owners, reg, Recovering(i, q, x, Register)) && windows[i].begin < reg
    requires var s, phase := (rows[q].generation, x), rows[q].recoveryPhase;
      && OneOf(rows, Want(Some(Active), s, reg, q, Some(phase)), b.owners.Keys) == Some(active)
      && rows[active].Audit? && rows[active].forgetRet == Some(-16)
    ensures Opened(rows, windows, Books(b.owners[active := Recovering(i, q, x, Guard)], b.results), Clock(i, q, x, 2))
  {
    hide Opened;
    var s, phase := (rows[q].generation, x), rows[q].recoveryPhase;
    var d, want := Recovering(i, q, x, Guard), Want(Some(Active), s, reg, q, Some(phase));
    assert OnlyFit(rows, want, b.owners.Keys, active);
    OnlyRegistration(rows, windows, b, Clock(i, q, x, 1), reg);
    FoundIsUncontended(rows, windows, b.owners, d, want, active);
    hide OnlyFit, Uncontended;
    ClaimPlain(rows, windows, b, Clock(i, q, x, 1), d, active);
  }

  lemma KeepClaimed(rows: seq<Row>, windows: seq<Window>, i: nat, q: nat, x: nat, b: Books, tx: nat, kept: nat)
    requires i < |windows| && RecoveryIn(rows, windows[i], q) && x < 2 && Opened(rows, windows, b, Clock(i, q, x, 2))
    requires var w, s, phase := windows[i], (rows[q].generation, x), rows[q].recoveryPhase;
      && SoleOf(rows, w.begin, w.end, Sent(phase, x)) == Some(tx) && q < tx
      && OneOf(rows, Want(Some(Retained), s, tx, w.end, Some(phase)), b.owners.Keys) == Some(kept)
      && Sound(rows[kept], 30)
    ensures var s, k := (rows[q].generation, x), Kept(30, rows[kept].fnv.value, kept);
      Opened(rows, windows, Books(b.owners[kept := Recovering(i, q, x, Keep)], b.results[s := k]), Clock(i, q, x, 3))
  {
    hide Opened, KeptAt, Fnv8;
    var w, s, phase := windows[i], (rows[q].generation, x), rows[q].recoveryPhase;
    var d, want := Recovering(i, q, x, Keep), Want(Some(Retained), s, tx, w.end, Some(phase));
    assert OnlyFit(rows, want, b.owners.Keys, kept);
    assert OnlySuch(rows, w.begin, w.end, Sent(phase, x), tx);
    assert UnregisteredBetween(rows, w, phase, x, q, kept);
    FoundIsUncontended(rows, windows, b.owners, d, want, kept);
    SoundIsKept(rows, s, kept, Retained);
    hide OnlyFit, OnlySuch, Uncontended;
    ClaimKeep(rows, windows, b, Clock(i, q, x, 2), d, s, Kept(30, rows[kept].fnv.value, kept));
  }

  /** The three duties of an ASE, met one after the other by rows of its stream and phase. */
  lemma AseKeeps(rows: seq<Row>, windows: seq<Window>, i: nat, q: nat, x: nat, b: Books)
    requires i < |windows| && RecoveryIn(rows, windows[i], q) && x < 2
    requires Opened(rows, windows, b, Clock(i, q, x, 0)) && AseBooks(rows, windows, i, q, x, b).Some?
    ensures Opened(rows, windows, AseBooks(rows, windows, i, q, x, b).value, Clock(i, q, x, 3))
  {
    hide Opened, OnlyFit, OnlySuch, Sound;
    var w, stream, phase := windows[i], (rows[q].generation, x), rows[q].recoveryPhase;
    var reg := OneOf(rows, Want(None, stream, w.begin, q, Some(phase)), b.owners.Keys).value;
    var b1 := Books(b.owners[reg := Recovering(i, q, x, Register)], b.results);
    RegisterClaimed(rows, windows, i, q, x, b, reg);
    WithinWant(rows, Want(None, stream, w.begin, q, Some(phase)), b.owners.Keys, reg);
    var active := OneOf(rows, Want(Some(Active), stream, reg, q, Some(phase)), b1.owners.Keys).value;
    var b2 := Books(b1.owners[active := Recovering(i, q, x, Guard)], b.results);
    WithinWant(rows, Want(Some(Active), stream, reg, q, Some(phase)), b1.owners.Keys, active);
    GuardClaimed(rows, windows, i, q, x, b1, reg, active);
    var tx := SoleOf(rows, w.begin, w.end, Sent(phase, x)).value;
    var kept := OneOf(rows, Want(Some(Retained), stream, tx, w.end, Some(phase)), b2.owners.Keys).value;
    KeepClaimed(rows, windows, i, q, x, b2, tx, kept);
  }

  lemma WithinWant(rows: seq<Row>, w: Want, used: set<nat>, l: nat)
    requires OneOf(rows, w, used) == Some(l)
    ensures l < |rows| && w.low < l < w.high && l !in used && Alike(rows[l], w.stage, w.stream, w.phase)
  {
    assert OnlyFit(rows, w, used, l);
  }

  lemma OnlyRegistration(rows: seq<Row>, windows: seq<Window>, b: Books, c: Clock, reg: nat)
    requires Opened(rows, windows, b, c) && reg in b.owners
    ensures forall r | r in b.owners && b.owners[r] == b.owners[reg] :: r == reg
  {
    hide Meets, Opening, Booked, Guarded, Unambiguous, Less, ClockOf;
  }

  lemma SoundIsKept(rows: seq<Row>, s: Stream, l: nat, stage: Stage)
    requires AuditAt(rows, l, stage, s) && stage in {Retained, Partial}
    requires Sound(rows[l], if stage == Retained then 30 else 10)
    ensures KeptAt(rows, s, Kept(if stage == Retained then 30 else 10, rows[l].fnv.value, l))
  {}

  /** The books after the partially streamed source of a reconnect case. */
  ghost function PartialBooks(rows: seq<Row>, windows: seq<Window>, i: nat, b: Books): Option<Books>
    requires i < |windows|
  {
    var w, stream := windows[i], (windows[i].generation, 0);
    var partial := SoleOf(rows, w.begin, w.end, AcceptedPart);
    if partial.None? then None else
    var drained := SoleOf(rows, w.begin, w.end, DrainedPart);
    if drained.None? then None else
    var reg := OneOf(rows, Want(None, stream, w.begin, partial.value, None), b.owners.Keys);
    if reg.None? || rows[reg.value].ret != Some(0) || rows[partial.value].accepted != Some(10) then None else
    if rows[drained.value].unregister != Some(0) then None else
    var owners := b.owners[reg.value := Resuming(i, Register)];
    var kept := OneOf(rows, Want(Some(Partial), stream, drained.value, w.end, None), owners.Keys);
    if kept.None? || !Sound(rows[kept.value], 10) then None else
    Some(Books(owners[kept.value := Resuming(i, Keep)],
               b.results[stream := Kept(10, rows[kept.value].fnv.value, kept.value)]))
  }

  /** The partially streamed source of a reconnect case. */
  method RecoverPartial(rows: seq<Row>, windows: seq<Window>, i: nat, b: Books) returns (r: Option<Books>)
    requires i < |windows|
    ensures r == PartialBooks(rows, windows, i, b)
  {
    hide OnlyFit, OnlySuch;
    var w, stream := windows[i], (windows[i].generation, 0);
    Within(rows);
    var partial := Sole(rows, w.begin, w.end, AcceptedPart);
    if partial.None? {
      return None;
    }
    var drained := Sole(rows, w.begin, w.end, DrainedPart);
    if drained.None? {
      return None;
    }
    var reg := One(rows, Want(None, stream, w.begin, partial.value, None), b.owners.Keys);
    if reg.None? || rows[reg.value].ret != Some(0) || rows[partial.value].accepted != Some(10)
       || rows[drained.value].unregister != Some(0) {
      return None;
    }
    var owners := b.owners[reg.value := Resuming(i, Register)];
    var kept := One(rows, Want(Some(Partial), stream, drained.value, w.end, None), owners.Keys);
    if kept.None? || !Sound(rows[kept.value], 10) {
      return None;
    }
    owners := owners[kept.value := Resuming(i, Keep)];
    return Some(Books(owners, b.results[stream := Kept(10, rows[kept.value].fnv.value, kept.value)]));
  }

  lemma PartRegisterClaimed(rows: seq<Row>, windows: seq<Window>, i: nat, b: Books, partial: nat, reg: nat)
    requires i < |windows| && windows[i].partial && Opened(rows, windows, b, Clock(i, |rows|, 0, 0))
    requires var w := windows[i];
      && SoleOf(rows, w.begin, w.end, AcceptedPart) == Some(partial)
      && OneOf(rows, Want(None, (w.generation, 0), w.begin, partial, None), b.owners.Keys) == Some(reg)
      && rows[reg].ret == Some(0) && rows[partial].accepted == Some(10)
    ensures Opened(rows, windows, Books(b.owners[reg := Resuming(i, Register)], b.results), Clock(i, |rows|, 0, 1))
  {
    hide Opened;
    var w, d := windows[i], Resuming(i, Register);
    var want := Want(None, (w.generation, 0), w.begin, partial, None);
    assert OnlyFit(rows, want, b.owners.Keys, reg);
    assert OnlySuch(rows, w.begin, w.end, AcceptedPart, partial);
    assert AcceptedAfter(rows, w, reg);
    FoundIsUncontended(rows, windows, b.owners, d, want, reg);
    hide OnlyFit, OnlySuch, Uncontended;
    ClaimPlain(rows, windows, b, Clock(i, |rows|, 0, 0), d, reg);
  }

  lemma PartKeepClaimed(rows: seq<Row>, windows: seq<Window>, i: nat, b: Books, drained: nat, kept: nat)
    requires i < |windows| && windows[i].partial && Opened(rows, windows, b, Clock(i, |rows|, 0, 2))
    requires var w := windows[i];
      && SoleOf(rows, w.begin, w.end, DrainedPart) == Some(drained) && rows[drained].unregister == Some(0)
      && OneOf(rows, Want(Some(Partial), (w.generation, 0), drained, w.end, None), b.owners.Keys) == Some(kept)
      && Sound(rows[kept], 10)
    ensures var s, k := (windows[i].generation, 0), Kept(10, rows[kept].fnv.value, kept);
      Opened(rows, windows, Books(b.owners[kept := Resuming(i, Keep)], b.results[s := k]), Clock(i, |rows|, 0, 3))
  {
    hide Opened, KeptAt, Fnv8;
    var w, s, d := windows[i], (windows[i].generation, 0), Resuming(i, Keep);
    var want := Want(Some(Partial), s, drained, w.end, None);
    assert OnlyFit(rows, want, b.owners.Keys, kept);
    assert OnlySuch(rows, w.begin, w.end, DrainedPart, drained);
    assert DrainedBefore(rows, w, kept);
    FoundIsUncontended(rows, windows, b.owners, d, want, kept);
    SoundIsKept(rows, s, kept, Partial);
    hide OnlyFit, OnlySuch, Uncontended;
    ClaimKeep(rows, windows, b, Clock(i, |rows|, 0, 2), d, s, Kept(10, rows[kept].fnv.value, kept));
  }

  /** The two duties of a partial source. */
  lemma PartialKeeps(rows: seq<Row>, windows: seq<Window>, i: nat, b: Books)
    requires i < |windows| && windows[i].partial
    requires Opened(rows, windows, b, Clock(i, |rows|, 0, 0)) && PartialBooks(rows, windows, i, b).Some?
    ensures Opened(rows, windows, PartialBooks(rows, windows, i, b).value, Clock(i, |rows|, 0, 3))
  {
    hide Opened, OnlyFit, OnlySuch, Sound, Less, Opening, ClockOf;
    var w, stream := windows[i], (windows[i].generation, 0);
    var partial := SoleOf(rows, w.begin, w.end, AcceptedPart).value;
    var drained := SoleOf(rows, w.begin, w.end, DrainedPart).value;
    var reg := OneOf(rows, Want(None, stream, w.begin, partial, None), b.owners.Keys).value;
    var b1 := Books(b.owners[reg := Resuming(i, Register)], b.results);
    PartRegisterClaimed(rows, windows, i, b, partial, reg);
    NothingDue(rows, windows, Clock(i, |rows|, 0, 1), Clock(i, |rows|, 0, 2));
    OpenedSkip(rows, windows, b1, Clock(i, |rows|, 0, 1), Clock(i, |rows|, 0, 2));
    var kept := OneOf(rows, Want(Some(Partial), stream, drained, w.end, None), b1.owners.Keys).value;
    PartKeepClaimed(rows, windows, i, b1, drained, kept);
  }

  /** Between these two moments no duty comes up. */
  ghost predicate Idle(rows: seq<Row>, windows: seq<Window>, c: Clock, c': Clock) {
    || (c == Clock(c.window, |rows|, 0, 1) && c' == Clock(c.window, |rows|, 0, 2))
    || (c.step == 3 && c.ase == 0 && c.line < |rows| && c' == Clock(c.window, c.line, 1, 0))
    || (c.step == 3 && c.ase == 1 && c' == Clock(c.window, c.line + 1, 0, 0))
    || (c.step == 0 && c.ase == 0 && c.line < |rows| && c' == Clock(c.window, c.line + 1, 0, 0) &&
        (c.window < |windows| ==> !RecoveryIn(rows, windows[c.window], c.line)))
    || (c == Clock(c.window, |rows|, 0, 3) && c' == Clock(c.window + 1, 0, 0, 0))
    || (c == Clock(c.window, |rows|, 0, 0) && c' == Clock(c.window + 1, 0, 0, 0) &&
        (c.window < |windows| ==> !windows[c.window].partial))
  }

  lemma NothingDue(rows: seq<Row>, windows: seq<Window>, c: Clock, c': Clock)
    requires Idle(rows, windows, c, c')
    ensures forall d | Opening(rows, windows, d) :: Less(ClockOf(rows, d), c) <==> Less(ClockOf(rows, d), c')
  {
    forall d | Opening(rows, windows, d) ensures Less(ClockOf(rows, d), c) <==> Less(ClockOf(rows, d), c') {
      match d
      case Recovering(i, q, x, kind) =>
      case Resuming(i, kind) =>
    }
  }

  /** The books after both ASEs of the recovery at `q`. */
  ghost function RecoveryBooks(rows: seq<Row>, windows: seq<Window>, i: nat, q: nat, b: Books): Option<Books>
    requires i < |windows| && q < |rows| && rows[q].Recovery?
  {
    var first := AseBooks(rows, windows, i, q, 0, b);
    if first.None? then None else AseBooks(rows, windows, i, q, 1, first.value)
  }

  lemma RecoveryKeeps(rows: seq<Row>, windows: seq<Window>, i: nat, q: nat, b: Books)
    requires i < |windows| && RecoveryIn(rows, windows[i], q)
    requires Opened(rows, windows, b, Clock(i, q, 0, 0)) && RecoveryBooks(rows, windows, i, q, b).Some?
    ensures Opened(rows, windows, RecoveryBooks(rows, windows, i, q, b).value, Clock(i, q + 1, 0, 0))
  {
    hide Opened, AseBooks, Opening, Less, ClockOf;
    var b1 := AseBooks(rows, windows, i, q, 0, b).value;
    AseKeeps(rows, windows, i, q, 0, b);
    NothingDue(rows, windows, Clock(i, q, 0, 3), Clock(i, q, 1, 0));
    OpenedSkip(rows, windows, b1, Clock(i, q, 0, 3), Clock(i, q, 1, 0));
    AseKeeps(rows, windows, i, q, 1, b1);
    NothingDue(rows, windows, Clock(i, q, 1, 3), Clock(i, q + 1, 0, 0));
    OpenedSkip(rows, windows, AseBooks(rows, windows, i, q, 1, b1).value, Clock(i, q, 1, 3), Clock(i, q + 1, 0, 0));
  }

  /** The books after the recoveries of window `i` among the first `n` rows. */
  ghost function RecoveriesBooks(rows: seq<Row>, windows: seq<Window>, i: nat, b: Books, n: nat): Option<Books>
    requires i < |windows| && n <= |rows|
  {
    hide RecoveryBooks;
    if n == 0 then Some(b) else
    var before := RecoveriesBooks(rows, windows, i, b, n - 1);
    if before.None? || !(windows[i].begin < n - 1 < windows[i].end && rows[n - 1].Recovery?) then before
    else RecoveryBooks(rows, windows, i, n - 1, before.value)
  }

  ghost function WindowBooks(rows: seq<Row>, windows: seq<Window>, i: nat, b: Books): Option<Books>
    requires i < |windows|
  {
    var all := RecoveriesBooks(rows, windows, i, b, |rows|);
    if all.None? || !windows[i].partial then all else PartialBooks(rows, windows, i, all.value)
  }

  lemma {:induction false} RecoveriesKeep(rows: seq<Row>, windows: seq<Window>, i: nat, b: Books, n: nat)
    requires i < |windows| && n <= |rows|
    requires Opened(rows, windows, b, Clock(i, 0, 0, 0)) && RecoveriesBooks(rows, windows, i, b, n).Some?
    ensures Opened(rows, windows, RecoveriesBooks(rows, windows, i, b, n).value, Clock(i, n, 0, 0))
  {
    hide Opened, RecoveryBooks, Opening, Less, ClockOf;
    if n > 0 {
      RecoveriesKeep(rows, windows, i, b, n - 1);
      var before := RecoveriesBooks(rows, windows, i, b, n - 1).value;
      if RecoveryIn(rows, windows[i], n - 1) {
        RecoveryKeeps(rows, windows, i, n - 1, before);
      } else {
        NothingDue(rows, windows, Clock(i, n - 1, 0, 0), Clock(i, n, 0, 0));
        OpenedSkip(rows, windows, before, Clock(i, n - 1, 0, 0), Clock(i, n, 0, 0));
      }
    }
  }

  lemma WindowKeeps(rows: seq<Row>, windows: seq<Window>, i: nat, b: Books)
    requires i < |windows| && Opened(rows, windows, b, Clock(i, 0, 0, 0)) && WindowBooks(rows, windows, i, b).Some?
    ensures Opened(rows, windows, WindowBooks(rows, windows, i, b).value, Clock(i + 1, 0, 0, 0))
  {
    hide Opened, PartialBooks, RecoveriesBooks, Opening, Less, ClockOf;
    RecoveriesKeep(rows, windows, i, b, |rows|);
    var all := RecoveriesBooks(rows, windows, i, b, |rows|).value;
    var step := if windows[i].partial then 3 else 0;
    if windows[i].partial {
      PartialKeeps(rows, windows, i, all);
    }
    NothingDue(rows, windows, Clock(i, |rows|, 0, step), Clock(i + 1, 0, 0, 0));
    OpenedSkip(rows, windows, WindowBooks(rows, windows, i, b).value, Clock(i, |rows|, 0, step), Clock(i + 1, 0, 0, 0));
  }

  /** One case window: its recoveries in turn, then the partial source. */
  method RecoverWindow(rows: seq<Row>, windows: seq<Window>, i: nat, b: Books) returns (r: Option<Books>)
    requires i < |windows|
    ensures r == WindowBooks(rows, windows, i, b)
  {
    hide AseBooks, PartialBooks;
    var w := windows[i];
    r := Some(b);
    for q := 0 to |rows|
      invariant r.Some? && r == RecoveriesBooks(rows, windows, i, b, q)
    {
      if w.begin < q < w.end && rows[q].Recovery? {
        r := RecoverAse(rows, windows, i, q, 0, r.value);
        if r.Some? {
          r := RecoverAse(rows, windows, i, q, 1, r.value);
        }
        if r.None? {
          RefusalStays(rows, windows, i, b, q + 1, |rows|);
          return;
        }
      }
    }
    if w.partial {
      r := RecoverPartial(rows, windows, i, r.value);
    }
  }

  lemma {:induction false} RefusalStays(rows: seq<Row>, windows: seq<Window>, i: nat, b: Books, n: nat, m: nat)
    requires i < |windows| && n <= m <= |rows| && RecoveriesBooks(rows, windows, i, b, n).None?
    ensures RecoveriesBooks(rows, windows, i, b, m).None?
  {
    hide RecoveryBooks;
    if n < m {
      RefusalStays(rows, windows, i, b, n, m - 1);
    }
  }

  const NoBooks := Books(map[], map[])

  /** The books after the first `n` windows. */
  ghost function AllBooks(rows: seq<Row>, windows: seq<Window>, n: nat): Option<Books>
    requires n <= |windows|
  {
    hide WindowBooks;
    if n == 0 then Some(NoBooks) else
    var before := AllBooks(rows, windows, n - 1);
    if before.None? then None else WindowBooks(rows, windows, n - 1, before.value)
  }

  lemma OpenedStart(rows: seq<Row>, windows: seq<Window>)
    ensures Opened(rows, windows, NoBooks, Clock(0, 0, 0, 0))
  {}

  lemma {:induction false} AllBooksKeep(rows: seq<Row>, windows: seq<Window>, n: nat)
    requires n <= |windows| && AllBooks(rows, windows, n).Some?
    ensures Opened(rows, windows, AllBooks(rows, windows, n).value, Clock(n, 0, 0, 0))
  {
    hide WindowBooks, Opened;
    if n == 0 {
      OpenedStart(rows, windows);
    } else {
      AllBooksKeep(rows, windows, n - 1);
      WindowKeeps(rows, windows, n - 1, AllBooks(rows, windows, n - 1).value);
    }
  }

  lemma {:induction false} BooksRefusalStays(rows: seq<Row>, windows: seq<Window>, n: nat, m: nat)
    requires n <= m <= |windows| && AllBooks(rows, windows, n).None?
    ensures AllBooks(rows, windows, m).None?
  {
    hide WindowBooks;
    if n < m {
      BooksRefusalStays(rows, windows, n, m - 1);
    }
  }

  method RecoverAll(rows: seq<Row>, windows: seq<Window>) returns (r: Option<Books>)
    ensures r == AllBooks(rows, windows, |windows|)
  {
    hide WindowBooks;
    r := Some(NoBooks);
    for i := 0 to |windows|
      invariant r.Some? && r == AllBooks(rows, windows, i)
    {
      r := RecoverWindow(rows, windows, i, r.value);
      if r.None? {
        BooksRefusalStays(rows, windows, i + 1, |windows|);
        return;
      }
    }
  }

  // ---- retirement --------------------------------------------------------

  /** How a stream ended: never used, or retired, forgotten and gone at these lines. */
  datatype Chain = Never(unused: nat) | Ended(retire: nat, forget: nat, forgotten: nat)

  /** The line at which a chain has this stage. */
  function LinkAt(c: Chain, stage: Stage): Option<nat> {
    match c
    case Never(u) => if stage == Unused then Some(u) else None
    case Ended(r, f, g) =>
      if stage == Retire then Some(r)
      else if stage == Forget then Some(f)
      else if stage == Forgotten then Some(g)
      else None
  }

  /** In increasing order, and the retired result repeats the booked one. */
  ghost predicate ChainOk(rows: seq<Row>, results: map<Stream, Kept>, stream: Stream, c: Chain) {
    match c
    case Never(u) =>
      && stream !in results
      && AuditAt(rows, u, Unused, stream) && rows[u].resultRet == Some(-61) && rows[u].forgetRet == Some(-61)
      && Bracketed(rows, stream.0, u)
    case Ended(r, f, g) =>
      && stream in results && results[stream].line < r < f < g
      && AuditAt(rows, r, Retire, stream) && AuditAt(rows, f, Forget, stream) && AuditAt(rows, g, Forgotten, stream)
      && rows[r].resultRet == Some(0)
      && rows[r].sends == Some(results[stream].count) && rows[r].fnv == Some(results[stream].fnv)
      && rows[f].ret == Some(0) && rows[g].resultRet == Some(-61)
      && Bracketed(rows, stream.0, r) && Bracketed(rows, stream.0, f) && Bracketed(rows, stream.0, g)
  }

  /** The chain that retirement claims for a stream, if its obligations are met. */
  ghost function ChainOf(
    rows: seq<Row>, stream: Stream, unsub: nat, closed: nat, results: map<Stream, Kept>, used: set<nat>): Option<Chain>
  {
    if stream !in results then
      var unused := OneOf(rows, Want(Some(Unused), stream, unsub, closed, None), used);
      if unused.None? || rows[unused.value].resultRet != Some(-61) || rows[unused.value].forgetRet != Some(-61)
      then None
      else Some(Never(unused.value))
    else
      var k := results[stream];
      var retire := OneOf(rows, Want(Some(Retire), stream, Max(unsub, k.line), closed, None), used);
      if retire.None? || rows[retire.value].resultRet != Some(0) then None else
      if rows[retire.value].sends != Some(k.count) || rows[retire.value].fnv != Some(k.fnv) then None else
      var forget := OneOf(rows, Want(Some(Forget), stream, retire.value, closed, None), used + {retire.value});
      if forget.None? || rows[forget.value].ret != Some(0) then None else
      var gone := OneOf(rows, Want(Some(Forgotten), stream, forget.value, closed, None), used +
        {retire.value, forget.value});
      if gone.None? || rows[gone.value].resultRet != Some(-61) then None
      else Some(Ended(retire.value, forget.value, gone.value))
  }

  lemma IsBracketed(rows: seq<Row>, g: nat, unsub: nat, closed: nat, l: nat)
    requires SoleOf(rows, -1, |rows|, RetiredBy(g)) == Some(closed)
    requires SoleOf(rows, -1, |rows|, UnsubscribedBy(g)) == Some(unsub)
    requires unsub < l < closed
    ensures Bracketed(rows, g, l)
  {
    assert OnlySuch(rows, -1, |rows|, RetiredBy(g), closed) && OnlySuch(rows, -1, |rows|, UnsubscribedBy(g), unsub);
  }

  lemma ChainOfIsOk(
    rows: seq<Row>, stream: Stream, unsub: nat, closed: nat, results: map<Stream, Kept>, used: set<nat>)
    requires SoleOf(rows, -1, |rows|, RetiredBy(stream.0)) == Some(closed)
    requires SoleOf(rows, -1, |rows|, UnsubscribedBy(stream.0)) == Some(unsub)
    requires ChainOf(rows, stream, unsub, closed, results, used).Some?
    ensures ChainOk(rows, results, stream, ChainOf(rows, stream, unsub, closed, results, used).value)
    ensures forall stage, l | LinkAt(ChainOf(rows, stream, unsub, closed, results, used).value, stage) == Some(l) ::
      l !in used && unsub < l < closed
  {
    hide OnlySuch, Bracketed;
    forall l: nat | unsub < l < closed ensures Bracketed(rows, stream.0, l) {
      IsBracketed(rows, stream.0, unsub, closed, l);
    }
  }

  method RetireStream(
    rows: seq<Row>, stream: Stream, unsub: nat, closed: nat, results: map<Stream, Kept>, used: set<nat>)
    returns (r: Option<Chain>)
    ensures r == ChainOf(rows, stream, unsub, closed, results, used)
  {
    hide OnlyFit;
    Within(rows);
    if stream !in results {
      var unused := One(rows, Want(Some(Unused), stream, unsub, closed, None), used);
      if unused.None? || rows[unused.value].resultRet != Some(-61) || rows[unused.value].forgetRet != Some(-61) {
        return None;
      }
      return Some(Never(unused.value));
    }
    var k := results[stream];
    var retire := One(rows, Want(Some(Retire), stream, Max(unsub, k.line), closed, None), used);
    if retire.None? || rows[retire.value].resultRet != Some(0) || rows[retire.value].sends != Some(k.count)
       || rows[retire.value].fnv != Some(k.fnv) {
      return None;
    }
    var forget := One(rows, Want(Some(Forget), stream, retire.value, closed, None), used + {retire.value});
    if forget.None? || rows[forget.value].ret != Some(0) {
      return None;
    }
    var gone := One(rows, Want(Some(Forgotten), stream, forget.value, closed, None), used +
      {retire.value, forget.value});
    if gone.None? || rows[gone.value].resultRet != Some(-61) {
      return None;
    }
    return Some(Ended(retire.value, forget.value, gone.value));
  }

  /** The claims after retirement, and the chains of the streams retired so far. */
  datatype Retired = Retired(owners: Owners, chains: map<Stream, Chain>)

  function WithChain(owners: Owners, s: Stream, c: Chain): Owners {
    match c
    case Never(u) => owners[u := Ending(s, Unused)]
    case Ended(r, f, g) => owners[r := Ending(s, Retire)][f := Ending(s, Forget)][g := Ending(s, Forgotten)]
  }

  ghost function Claim(
    rows: seq<Row>, r: Retired, stream: Stream, unsub: nat, closed: nat, results: map<Stream, Kept>): Option<Retired>
  {
    var c := ChainOf(rows, stream, unsub, closed, results, r.owners.Keys);
    if c.None? then None else Some(Retired(WithChain(r.owners, stream, c.value), r.chains[stream := c.value]))
  }

  /** The retirement of one discovered generation. */
  ghost function GenerationRetired(
    rows: seq<Row>, generation: nat, results: map<Stream, Kept>, r: Retired): Option<Retired>
  {
    var closed := SoleOf(rows, -1, |rows|, RetiredBy(generation));
    var unsub := SoleOf(rows, -1, |rows|, UnsubscribedBy(generation));
    if closed.None? || unsub.None? then None else
    var first := Claim(rows, r, (generation, 0), unsub.value, closed.value, results);
    if first.None? then None else Claim(rows, first.value, (generation, 1), unsub.value, closed.value, results)
  }

  ghost function AllRetired(rows: seq<Row>, discovered: seq<nat>, b: Books, n: nat): Option<Retired>
    requires n <= |discovered|
  {
    hide GenerationRetired;
    if n == 0 then Some(Retired(b.owners, map[])) else
    var before := AllRetired(rows, discovered, b, n - 1);
    if before.None? then None else GenerationRetired(rows, discovered[n - 1], b.results, before.value)
  }

  /** The claims of the windows stand, and the other claims are exactly the links of the chains. */
  ghost predicate Closed(rows: seq<Row>, b: Books, r: Retired) {
    match r case Retired(owners, chains) =>
      && (forall l: nat, d: Duty | !d.Ending? :: Holds(owners, l, d) <==> Holds(b.owners, l, d))
      && (forall s | s in chains :: ChainOk(rows, b.results, s, chains[s]))
      && Linked(owners, chains)
  }

  /** The claims for endings are exactly the links of the chains. */
  ghost predicate Linked(owners: Owners, chains: map<Stream, Chain>) {
    forall l: nat, d: Duty | d.Ending? :: Holds(owners, l, d) <==> LinkOf(chains, l, d)
  }

  ghost predicate LinkOf(chains: map<Stream, Chain>, l: nat, d: Duty) {
    d.Ending? && d.ended in chains && LinkAt(chains[d.ended], d.stage) == Some(l)
  }

  lemma ClosedStart(rows: seq<Row>, windows: seq<Window>, b: Books, c: Clock)
    requires Opened(rows, windows, b, c)
    ensures Closed(rows, b, Retired(b.owners, map[]))
  {
    hide Booked, Guarded, Unambiguous, Less, ClockOf;
    forall l: nat, d: Duty | d.Ending? ensures Holds(b.owners, l, d) <==> LinkOf(map[], l, d) {
      assert l in b.owners ==> Owned(b.owners, b.owners[l]);
    }
  }

  /** The links of a chain are new, distinct lines. */
  ghost predicate FreshChain(owners: Owners, c: Chain) {
    match c
    case Never(u) => u !in owners
    case Ended(r, f, g) => r !in owners && f !in owners && g !in owners && r < f < g
  }

  lemma ChainHolds(owners: Owners, s: Stream, c: Chain, l: nat, d: Duty)
    requires FreshChain(owners, c)
    ensures Holds(WithChain(owners, s, c), l, d) <==>
      Holds(owners, l, d) || (d.Ending? && d.ended == s && LinkAt(c, d.stage) == Some(l))
  {}

  lemma ClaimKeeps(rows: seq<Row>, b: Books, r: Retired, stream: Stream, unsub: nat, closed: nat)
    requires Closed(rows, b, r) && stream !in r.chains && Claim(rows, r, stream, unsub, closed, b.results).Some?
    requires SoleOf(rows, -1, |rows|, RetiredBy(stream.0)) == Some(closed)
    requires SoleOf(rows, -1, |rows|, UnsubscribedBy(stream.0)) == Some(unsub)
    ensures var r' := Claim(rows, r, stream, unsub, closed, b.results).value;
      Closed(rows, b, r') && forall s :: s in r'.chains <==> s in r.chains || s == stream
  {
    hide ChainOf, ChainOk, WithChain, Holds, LinkAt, OnlySuch, FreshChain;
    var c := ChainOf(rows, stream, unsub, closed, b.results, r.owners.Keys).value;
    ChainOfIsOk(rows, stream, unsub, closed, b.results, r.owners.Keys);
    LinksAreFresh(rows, b.results, stream, c, r.owners);
    var owners' := WithChain(r.owners, stream, c);
    forall l: nat, d: Duty | !d.Ending? ensures Holds(owners', l, d) <==> Holds(b.owners, l, d) {
      ChainHolds(r.owners, stream, c, l, d);
    }
    var chains' := r.chains[stream := c];
    forall l: nat, d: Duty | d.Ending? ensures Holds(owners', l, d) <==> LinkOf(chains', l, d) {
      ChainHolds(r.owners, stream, c, l, d);
      assert Holds(r.owners, l, d) <==> LinkOf(r.chains, l, d);
    }
  }

  lemma LinksAreFresh(rows: seq<Row>, results: map<Stream, Kept>, s: Stream, c: Chain, owners: Owners)
    requires ChainOk(rows, results, s, c)
    requires forall stage, l | LinkAt(c, stage) == Some(l) :: l !in owners
    ensures FreshChain(owners, c)
  {
    hide Bracketed, AuditAt;
    match c
    case Never(u) => assert LinkAt(c, Unused) == Some(u);
    case Ended(r, f, g) =>
      assert LinkAt(c, Retire) == Some(r) && LinkAt(c, Forget) == Some(f) && LinkAt(c, Forgotten) == Some(g);
  }

  lemma GenerationKeeps(rows: seq<Row>, g: nat, b: Books, r: Retired)
    requires Closed(rows, b, r) && (g, 0) !in r.chains && (g, 1) !in r.chains
    requires GenerationRetired(rows, g, b.results, r).Some?
    ensures var r' := GenerationRetired(rows, g, b.results, r).value;
      Closed(rows, b, r') && forall s :: s in r'.chains <==> s in r.chains || s == (g, 0) || s == (g, 1)
  {
    hide Closed, Claim, OnlySuch;
    var closed := SoleOf(rows, -1, |rows|, RetiredBy(g)).value;
    var unsub := SoleOf(rows, -1, |rows|, UnsubscribedBy(g)).value;
    ClaimKeeps(rows, b, r, (g, 0), unsub, closed);
    ClaimKeeps(rows, b, Claim(rows, r, (g, 0), unsub, closed, b.results).value, (g, 1), unsub, closed);
  }

  predicate Distinct(discovered: seq<nat>) { forall i, j | 0 <= i < j < |discovered| :: discovered[i] != discovered[j] }

  lemma {:induction false} RetiredKeeps(
    rows: seq<Row>, windows: seq<Window>, c: Clock, discovered: seq<nat>, b: Books, n: nat)
    requires n <= |discovered| && Opened(rows, windows, b, c) && AllRetired(rows, discovered, b, n).Some?
    requires Distinct(discovered)
    ensures var r := AllRetired(rows, discovered, b, n).value;
      Closed(rows, b, r) && forall s :: s in r.chains <==> s.1 < 2 && s.0 in discovered[..n]
  {
    hide Closed, Opened, GenerationRetired;
    if n == 0 {
      ClosedStart(rows, windows, b, c);
    } else {
      RetiredKeeps(rows, windows, c, discovered, b, n - 1);
      GenerationKeeps(rows, discovered[n - 1], b, AllRetired(rows, discovered, b, n - 1).value);
      assert discovered[..n] == discovered[..n - 1] + [discovered[n - 1]];
    }
  }

  /** Both streams of one discovered generation. */
  method RetireGeneration(rows: seq<Row>, generation: nat, results: map<Stream, Kept>, r: Retired)
    returns (r': Option<Retired>)
    ensures r' == GenerationRetired(rows, generation, results, r)
  {
    hide OnlySuch, ChainOf, WithChain;
    var closed := Sole(rows, -1, |rows|, RetiredBy(generation));
    if closed.None? {
      return None;
    }
    var unsub := Sole(rows, -1, |rows|, UnsubscribedBy(generation));
    if unsub.None? {
      return None;
    }
    var now := r;
    for x := 0 to 2
      invariant x == 0 ==> now == r
      invariant x >= 1 ==> Claim(rows, r, (generation, 0), unsub.value, closed.value, results).Some?
      invariant x == 1 ==> Some(now) == Claim(rows, r, (generation, 0), unsub.value, closed.value, results)
      invariant x == 2 ==> Some(now) == GenerationRetired(rows, generation, results, r)
    {
      var c := RetireStream(rows, (generation, x), unsub.value, closed.value, results, now.owners.Keys);
      if c.None? {
        return None;
      }
      now := Retired(WithChain(now.owners, (generation, x), c.value), now.chains[(generation, x) := c.value]);
    }
    return Some(now);
  }

  lemma {:induction false} RetiredRefusalStays(rows: seq<Row>, discovered: seq<nat>, b: Books, n: nat, m: nat)
    requires n <= m <= |discovered| && AllRetired(rows, discovered, b, n).None?
    ensures AllRetired(rows, discovered, b, m).None?
  {
    hide GenerationRetired;
    if n < m {
      RetiredRefusalStays(rows, discovered, b, n, m - 1);
    }
  }

  // ---- what acceptance means ---------------------------------------------

  function ClaimableLines(rows: seq<Row>): set<nat> { set i | 0 <= i < |rows| && Claimable(rows[i]) }

  /** Acceptance, as the obligations in their order define it. */
  ghost predicate Accepted(rows: seq<Row>, windows: seq<Window>, discovered: seq<nat>) {
    && AllBooks(rows, windows, |windows|).Some?
    && var b := AllBooks(rows, windows, |windows|).value;
    && AllRetired(rows, discovered, b, |discovered|).Some?
    && |AllRetired(rows, discovered, b, |discovered|).value.owners| == |ClaimableLines(rows)|
  }

  /** All duties of a log: those of its windows, and the end of every discovered stream. */
  ghost predicate IsDuty(
    rows: seq<Row>, windows: seq<Window>, discovered: seq<nat>, results: map<Stream, Kept>, d: Duty)
  {
    match d
    case Ending(s, stage) =>
      && s.0 in discovered && s.1 < 2
      && (if s in results then stage in {Retire, Forget, Forgotten} else stage == Unused)
    case _ => Opening(rows, windows, d)
  }

  /** A one-to-one correspondence between the duties of the log and its registration and audit rows. */
  ghost predicate OneToOne(
    rows: seq<Row>, windows: seq<Window>, discovered: seq<nat>, results: map<Stream, Kept>, owners: Owners)
  {
    && owners.Keys == ClaimableLines(rows)
    && Injective(owners)
    && (forall d :: Owned(owners, d) <==> IsDuty(rows, windows, discovered, results, d))
    && (forall l | l in owners :: Meets(rows, windows, owners[l], l))
  }

  /** A stream without a result has no row but the one that says so. */
  ghost predicate UnusedHasNothing(
    rows: seq<Row>, discovered: seq<nat>, results: map<Stream, Kept>, chains: map<Stream, Chain>)
  {
    forall l | 0 <= l < |rows| && Claimable(rows[l]) && rows[l].stream !in results ::
      rows[l].stream in chains && chains[rows[l].stream] == Never(l)
  }

  /** Every discovered stream is retired after its booked result, or was never used. */
  ghost predicate AllEnded(
    rows: seq<Row>, discovered: seq<nat>, results: map<Stream, Kept>, owners: Owners, chains: map<Stream, Chain>)
  {
    && (forall s :: s in chains <==> s.1 < 2 && s.0 in discovered)
    && (forall s | s in chains :: ChainOk(rows, results, s, chains[s]))
    && Linked(owners, chains)
  }

  ghost predicate AllAccounted(
    rows: seq<Row>, windows: seq<Window>, discovered: seq<nat>, owners: Owners, results: map<Stream, Kept>,
    chains: map<Stream, Chain>)
  {
    && OneToOne(rows, windows, discovered, results, owners)
    && Guarded(owners)
    && Booked(rows, Books(owners, results))
    && Unambiguous(rows, windows, owners)
    && AllEnded(rows, discovered, results, owners, chains)
    && UnusedHasNothing(rows, discovered, results, chains)
  }

  lemma MeetsItsStream(rows: seq<Row>, windows: seq<Window>, d: Duty, l: nat)
    requires Meets(rows, windows, d, l)
    ensures l < |rows| && Claimable(rows[l]) && rows[l].stream == StreamOf(rows, windows, d)
    ensures !d.Ending? ==> (Retention(rows[l]) <==> IsKeep(d))
  {}

  /** At the end every duty of the windows has come up. */
  lemma AllDue(rows: seq<Row>, windows: seq<Window>, d: Duty)
    requires Opening(rows, windows, d)
    ensures Less(ClockOf(rows, d), Clock(|windows|, 0, 0, 0)) && !d.Ending?
  {}

  /** Claims of the windows are the same before and after retirement. */
  lemma SameOpenings(rows: seq<Row>, b: Books, r: Retired, l: nat)
    requires Closed(rows, b, r)
    ensures l in b.owners && !b.owners[l].Ending? ==> l in r.owners && r.owners[l] == b.owners[l]
    ensures l in r.owners && !r.owners[l].Ending? ==> l in b.owners && b.owners[l] == r.owners[l]
  {
    hide ChainOk, LinkAt;
    assert l in b.owners ==> Holds(b.owners, l, b.owners[l]);
    assert l in r.owners ==> Holds(r.owners, l, r.owners[l]);
  }

  lemma NoEndingYet(rows: seq<Row>, windows: seq<Window>, owners: Owners, c: Clock, l: nat)
    requires Ledger(rows, windows, owners, c) && l in owners
    ensures !owners[l].Ending? && Opening(rows, windows, owners[l])
  {
    hide Meets, Less, ClockOf;
    assert Owned(owners, owners[l]);
  }

  lemma LinkIsAudit(rows: seq<Row>, results: map<Stream, Kept>, s: Stream, c: Chain, stage: Stage, l: nat)
    requires ChainOk(rows, results, s, c) && LinkAt(c, stage) == Some(l)
    ensures AuditAt(rows, l, stage, s) && Bracketed(rows, s.0, l)
  {
    hide Bracketed;
  }

  lemma ClosedMeets(rows: seq<Row>, windows: seq<Window>, b: Books, c: Clock, r: Retired, l: nat)
    requires Ledger(rows, windows, b.owners, c) && Closed(rows, b, r) && l in r.owners
    ensures Meets(rows, windows, r.owners[l], l)
  {
    SameOpenings(rows, b, r, l);
    var d := r.owners[l];
    if d.Ending? {
      assert Holds(r.owners, l, d);
      LinkIsAudit(rows, b.results, d.ended, r.chains[d.ended], d.stage, l);
    }
  }

  lemma ClosedInjective(rows: seq<Row>, windows: seq<Window>, b: Books, c: Clock, r: Retired)
    requires Ledger(rows, windows, b.owners, c) && Closed(rows, b, r)
    ensures Injective(r.owners)
  {
    hide Meets, Less, ClockOf, Opening, ChainOk;
    forall l, m | l in r.owners && m in r.owners && r.owners[l] == r.owners[m] ensures l == m {
      SameOpenings(rows, b, r, l);
      SameOpenings(rows, b, r, m);
      var d := r.owners[l];
      if d.Ending? {
        assert Holds(r.owners, l, d) && Holds(r.owners, m, d);
      }
    }
  }

  lemma ClosedOwned(
    rows: seq<Row>, windows: seq<Window>, discovered: seq<nat>, b: Books, r: Retired, d: Duty)
    requires Ledger(rows, windows, b.owners, Clock(|windows|, 0, 0, 0)) && Closed(rows, b, r)
    requires forall s :: s in r.chains <==> s.1 < 2 && s.0 in discovered
    ensures Owned(r.owners, d) <==> IsDuty(rows, windows, discovered, b.results, d)
  {
    if d.Ending? {
      EndingOwned(rows, discovered, b, r, d.ended, d.stage);
    } else {
      hide Meets, Less, ClockOf, Opening, Closed;
      if Owned(r.owners, d) {
        var l :| l in r.owners && r.owners[l] == d;
        SameOpenings(rows, b, r, l);
        assert Owned(b.owners, d);
      }
      if Opening(rows, windows, d) {
        AllDue(rows, windows, d);
        assert Owned(b.owners, d);
        var l :| l in b.owners && b.owners[l] == d;
        SameOpenings(rows, b, r, l);
      }
    }
  }

  /** Which stages a chain has. */
  lemma ChainStages(rows: seq<Row>, results: map<Stream, Kept>, s: Stream, c: Chain, stage: Stage)
    requires ChainOk(rows, results, s, c)
    ensures LinkAt(c, stage).Some? <==> if s in results then stage in {Retire, Forget, Forgotten} else stage == Unused
  {
    hide Bracketed, AuditAt;
  }

  lemma EndingOwned(rows: seq<Row>, discovered: seq<nat>, b: Books, r: Retired, s: Stream, stage: Stage)
    requires Closed(rows, b, r) && forall s :: s in r.chains <==> s.1 < 2 && s.0 in discovered
    ensures Owned(r.owners, Ending(s, stage)) <==>
      && s.0 in discovered && s.1 < 2
      && (if s in b.results then stage in {Retire, Forget, Forgotten} else stage == Unused)
  {
    hide ChainOk, LinkAt;
    var d := Ending(s, stage);
    if s in r.chains {
      ChainStages(rows, b.results, s, r.chains[s], stage);
    }
    if Owned(r.owners, d) {
      var l :| l in r.owners && r.owners[l] == d;
      assert Holds(r.owners, l, d);
      assert LinkOf(r.chains, l, d);
    }
    if s in r.chains && LinkAt(r.chains[s], stage).Some? {
      var l := LinkAt(r.chains[s], stage).value;
      assert LinkOf(r.chains, l, d);
      assert Holds(r.owners, l, d);
    }
  }

  lemma ClosedOneToOne(rows: seq<Row>, windows: seq<Window>, discovered: seq<nat>, b: Books, r: Retired)
    requires Ledger(rows, windows, b.owners, Clock(|windows|, 0, 0, 0)) && Closed(rows, b, r)
    requires forall s :: s in r.chains <==> s.1 < 2 && s.0 in discovered
    requires |r.owners| == |ClaimableLines(rows)|
    ensures OneToOne(rows, windows, discovered, b.results, r.owners)
  {
    hide Ledger, Closed, Meets, IsDuty, Owned, Claimable;
    forall l | l in r.owners ensures Meets(rows, windows, r.owners[l], l) && l in ClaimableLines(rows) {
      ClosedMeets(rows, windows, b, Clock(|windows|, 0, 0, 0), r, l);
      MeetsItsStream(rows, windows, r.owners[l], l);
    }
    assert |r.owners.Keys| == |r.owners|;
    SubsetSize(r.owners.Keys, ClaimableLines(rows));
    ClosedInjective(rows, windows, b, Clock(|windows|, 0, 0, 0), r);
    forall d ensures Owned(r.owners, d) <==> IsDuty(rows, windows, discovered, b.results, d) {
      ClosedOwned(rows, windows, discovered, b, r, d);
    }
  }

  lemma ClosedBooked(rows: seq<Row>, windows: seq<Window>, b: Books, c: Clock, r: Retired)
    requires Opened(rows, windows, b, c) && Closed(rows, b, r)
    ensures Booked(rows, Books(r.owners, b.results))
  {
    hide Closed, Ledger, Guarded, Unambiguous, KeptAt, Less, ClockOf;
    forall l: nat ensures l in b.owners ==> l in r.owners && r.owners[l] == b.owners[l] {
      SameOpenings(rows, b, r, l);
      if l in b.owners {
        NoEndingYet(rows, windows, b.owners, c, l);
      }
    }
    forall l | l in r.owners && IsKeep(r.owners[l]) ensures UpToDate(rows, r.owners, b.results, l) {
      SameOpenings(rows, b, r, l);
      assert UpToDate(rows, b.owners, b.results, l);
    }
  }

  lemma ClosedGuarded(rows: seq<Row>, windows: seq<Window>, b: Books, c: Clock, r: Retired)
    requires Opened(rows, windows, b, c) && Closed(rows, b, r)
    ensures Guarded(r.owners)
  {
    hide Closed, Ledger, Unambiguous, Booked;
    forall l | l in r.owners && r.owners[l].Recovering? ensures l in b.owners && b.owners[l] == r.owners[l] {
      SameOpenings(rows, b, r, l);
    }
  }

  lemma ClosedUnambiguous(rows: seq<Row>, windows: seq<Window>, b: Books, c: Clock, r: Retired)
    requires Opened(rows, windows, b, c) && Closed(rows, b, r)
    ensures Unambiguous(rows, windows, r.owners)
  {
    hide Closed, Ledger, Guarded, Booked, Contends, Less, ClockOf;
    forall l, m: nat | l in r.owners && m != l && Contends(rows, windows, r.owners, r.owners[l], m)
      ensures m in r.owners && !r.owners[m].Ending? && Less(ClockOf(rows, r.owners[m]), ClockOf(rows, r.owners[l]))
    {
      SameOpenings(rows, b, r, l);
      SameOpenings(rows, b, r, m);
      SameContends(rows, windows, b, r, r.owners[l], m);
    }
  }

  lemma SameContends(rows: seq<Row>, windows: seq<Window>, b: Books, r: Retired, d: Duty, m: nat)
    requires Closed(rows, b, r)
    ensures Contends(rows, windows, r.owners, d, m) <==> Contends(rows, windows, b.owners, d, m)
    ensures Contends(rows, windows, r.owners, d, m) ==> !d.Ending?
  {
    hide ChainOk, Linked, Alike;
    if d.Recovering? {
      assert forall x: nat :: Holds(r.owners, x, As(d, Register)) <==> Holds(b.owners, x, As(d, Register));
      assert RegisteredBefore(r.owners, As(d, Register), m) <==> RegisteredBefore(b.owners, As(d, Register), m);
    }
    hide RegisteredBefore;
  }

  /** A row of a stream in use: some duty has kept a result for that stream. */
  lemma OpeningIsBooked(
    rows: seq<Row>, windows: seq<Window>, discovered: seq<nat>, results: map<Stream, Kept>, owners: Owners, l: nat)
    requires OneToOne(rows, windows, discovered, results, owners) && Booked(rows, Books(owners, results))
    requires l in owners && !owners[l].Ending?
    ensures l < |rows| && Claimable(rows[l]) && rows[l].stream in results
  {
    hide Meets, Less, ClockOf, Opening, StreamOf;
    MeetsItsStream(rows, windows, owners[l], l);
    assert Owned(owners, owners[l]);
    var d := As(owners[l], Keep);
    SameStream(rows, windows, owners[l]);
    assert Owned(owners, d);
    var m :| m in owners && owners[m] == d;
    MeetsItsStream(rows, windows, d, m);
    assert UpToDate(rows, owners, results, m);
  }

  lemma SameStream(rows: seq<Row>, windows: seq<Window>, d: Duty)
    requires Opening(rows, windows, d)
    ensures Opening(rows, windows, As(d, Keep)) && IsKeep(As(d, Keep)) && !As(d, Keep).Ending?
    ensures StreamOf(rows, windows, As(d, Keep)) == StreamOf(rows, windows, d)
  {}

  lemma NothingUnused(
    rows: seq<Row>, windows: seq<Window>, discovered: seq<nat>, results: map<Stream, Kept>, owners: Owners,
    chains: map<Stream, Chain>)
    requires OneToOne(rows, windows, discovered, results, owners) && Booked(rows, Books(owners, results))
    requires AllEnded(rows, discovered, results, owners, chains)
    ensures UnusedHasNothing(rows, discovered, results, chains)
  {
    hide Booked, ChainOk, Meets, Opening, StreamOf, Linked;
    forall l | 0 <= l < |rows| && Claimable(rows[l]) && rows[l].stream !in results
      ensures rows[l].stream in chains && chains[rows[l].stream] == Never(l)
    {
      assert l in ClaimableLines(rows);
      var d := owners[l];
      if !d.Ending? {
        OpeningIsBooked(rows, windows, discovered, results, owners, l);
        assert false;
      } else {
        assert Owned(owners, d);
        MeetsItsStream(rows, windows, d, l);
        EndingIsLink(rows, windows, owners, chains, d, l);
      }
    }
  }

  lemma EndingIsLink(
    rows: seq<Row>, windows: seq<Window>, owners: Owners, chains: map<Stream, Chain>, d: Duty, l: nat)
    requires Linked(owners, chains) && Holds(owners, l, d) && d.Ending?
    ensures d.ended in chains && LinkAt(chains[d.ended], d.stage) == Some(l) && d.ended == StreamOf(rows, windows, d)
  {}

  /** What acceptance means. */
  lemma AcceptedIsAccounted(rows: seq<Row>, windows: seq<Window>, discovered: seq<nat>)
    requires Distinct(discovered) && Accepted(rows, windows, discovered)
    ensures var b := AllBooks(rows, windows, |windows|).value;
      var r := AllRetired(rows, discovered, b, |discovered|).value;
      AllAccounted(rows, windows, discovered, r.owners, b.results, r.chains)
  {
    hide Ledger, Closed, Booked, Guarded, Unambiguous, AllBooks, AllRetired, OneToOne, UnusedHasNothing;
    var b := AllBooks(rows, windows, |windows|).value;
    var r := AllRetired(rows, discovered, b, |discovered|).value;
    var c := Clock(|windows|, 0, 0, 0);
    AllBooksKeep(rows, windows, |windows|);
    RetiredKeeps(rows, windows, c, discovered, b, |discovered|);
    assert discovered[..|discovered|] == discovered;
    ClosedOneToOne(rows, windows, discovered, b, r);
    ClosedBooked(rows, windows, b, c, r);
    ClosedGuarded(rows, windows, b, c, r);
    ClosedUnambiguous(rows, windows, b, c, r);
    ClosedEnded(rows, discovered, b, r);
    NothingUnused(rows, windows, discovered, b.results, r.owners, r.chains);
  }

  lemma ClosedEnded(rows: seq<Row>, discovered: seq<nat>, b: Books, r: Retired)
    requires Closed(rows, b, r) && forall s :: s in r.chains <==> s.1 < 2 && s.0 in discovered
    ensures AllEnded(rows, discovered, b.results, r.owners, r.chains)
  {
    hide ChainOk, LinkAt, Holds;
  }

  /** `_tx_audits` */
  method CheckAudits(rows: seq<Row>, windows: seq<Window>, discovered: seq<nat>)
    returns (ok: bool, owners: Owners, results: map<Stream, Kept>, chains: map<Stream, Chain>)
    requires Distinct(discovered)
    ensures ok <==> Accepted(rows, windows, discovered)
    ensures ok ==> AllAccounted(rows, windows, discovered, owners, results, chains)
  {
    hide WindowBooks, GenerationRetired, AllAccounted;
    ok, owners, results, chains := false, map[], map[], map[];
    var b := RecoverAll(rows, windows);
    if b.None? {
      return;
    }
    var r := Retired(b.value.owners, map[]);
    for i := 0 to |discovered|
      invariant Some(r) == AllRetired(rows, discovered, b.value, i)
    {
      var next := RetireGeneration(rows, discovered[i], b.value.results, r);
      if next.None? {
        RetiredRefusalStays(rows, discovered, b.value, i + 1, |discovered|);
        return;
      }
      r := next.value;
    }
    ok, owners, results, chains := |r.owners| == |ClaimableLines(rows)|, r.owners, b.value.results, r.chains;
    if ok {
      AcceptedIsAccounted(rows, windows, discovered);
    }
  }
}
