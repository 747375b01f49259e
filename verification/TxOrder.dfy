/**
 Whether the result that a retirement repeats is that of the last retained row.

 The check books the result of the last recovery of a stream.  Rows may be retained in
 another order than the recoveries come in, so the two need not agree; when they do can be
 read off the log.
 */
module TxOrder {
  import opened Common
  import opened TxAudits

  /** Windows follow one another. */
  ghost predicate Separate(windows: seq<Window>) {
    forall i, j | 0 <= i < j < |windows| :: windows[i].end <= windows[j].begin
  }

  /** The window has a recovery or the partial source of this stream. */
  ghost predicate Recovers(rows: seq<Row>, w: Window, s: Stream) {
    s.1 < 2 && (Partially(w, s) || exists q :: RecoveryOf(rows, w, s.0, q))
  }

  predicate Partially(w: Window, s: Stream) { w.partial && s == (w.generation, 0) }

  ghost predicate RecoveryOf(rows: seq<Row>, w: Window, g: nat, q: int) {
    RecoveryIn(rows, w, q) && rows[q].generation == g
  }

  ghost predicate LastWindow(rows: seq<Row>, windows: seq<Window>, i: nat, s: Stream) {
    && i < |windows| && Recovers(rows, windows[i], s)
    && forall j | i < j < |windows| :: !Recovers(rows, windows[j], s)
  }

  ghost predicate LastRecovery(rows: seq<Row>, w: Window, g: nat, q: int) {
    RecoveryOf(rows, w, g, q) && forall p | RecoveryOf(rows, w, g, p) :: p <= q
  }

  /** A retained or partial row of the stream inside the window. */
  ghost predicate KeptIn(rows: seq<Row>, w: Window, s: Stream, l: nat) {
    w.begin < l < w.end && l < |rows| && Retention(rows[l]) && rows[l].stream == s
  }

  /** The row of the window's last word on the stream: its partial source, or the phase of its last recovery. */
  ghost predicate Closes(rows: seq<Row>, w: Window, s: Stream, l: nat) {
    && KeptIn(rows, w, s, l)
    && if Partially(w, s) then rows[l].stage == Partial
       else exists q :: LastRecovery(rows, w, s.0, q) && rows[l].phase == Some(rows[q].recoveryPhase)
  }

  /** In the last window of every stream the closing row comes last. */
  ghost predicate Sequenced(rows: seq<Row>, windows: seq<Window>) {
    forall i: nat, s: Stream, l: nat, m: nat |
      i < |windows| && LastWindow(rows, windows, i, s) && KeptIn(rows, windows[i], s, l) &&
        Closes(rows, windows[i], s, m) ::
      l <= m
  }

  /** A row retained later than the booked result of its stream. */
  ghost predicate Overtaken(rows: seq<Row>, results: map<Stream, Kept>, l: nat) {
    l < |rows| && Retention(rows[l]) && rows[l].stream in results && results[rows[l].stream].line < l
  }

  ghost predicate Accounted(
    rows: seq<Row>, windows: seq<Window>, discovered: seq<nat>, owners: Owners, results: map<Stream, Kept>)
  {
    && OneToOne(rows, windows, discovered, results, owners)
    && Booked(rows, Books(owners, results)) && Unambiguous(rows, windows, owners)
  }

  /** A retained row is owned by a duty to keep for its stream, inside that duty's window. */
  lemma KeepOwner(
    rows: seq<Row>, windows: seq<Window>, discovered: seq<nat>, owners: Owners, results: map<Stream, Kept>, l: nat)
    requires OneToOne(rows, windows, discovered, results, owners) && l < |rows| && Retention(rows[l])
    ensures l in owners && KeepsFor(rows, windows, owners[l], rows[l].stream) && Meets(rows, windows, owners[l], l)
    ensures KeptIn(rows, windows[owners[l].window], rows[l].stream, l)
    ensures owners[l].Resuming? <==> rows[l].stage == Partial
    ensures owners[l].Recovering? ==> rows[l].phase == Some(rows[owners[l].recovery].recoveryPhase)
  {
    assert l in ClaimableLines(rows);
    assert Owned(owners, owners[l]) && Meets(rows, windows, owners[l], l);
    MeetsItsStream(rows, windows, owners[l], l);
  }

  /** A duty of the log to keep a result of this stream. */
  ghost predicate KeepsFor(rows: seq<Row>, windows: seq<Window>, d: Duty, s: Stream) {
    match d
    case Recovering(i, q, x, kind) =>
      kind == Keep && i < |windows| && RecoveryOf(rows, windows[i], s.0, q) && x == s.1 && x < 2
    case Resuming(i, kind) => kind == Keep && i < |windows| && Partially(windows[i], s)
    case Ending(_, _) => false
  }

  lemma DutyIsMet(
    rows: seq<Row>, windows: seq<Window>, discovered: seq<nat>, owners: Owners, results: map<Stream, Kept>,
    d: Duty, s: Stream)
    returns (l: nat)
    requires OneToOne(rows, windows, discovered, results, owners) && KeepsFor(rows, windows, d, s)
    ensures l in owners && owners[l] == d && l < |rows| && Retention(rows[l]) && rows[l].stream == s
  {
    hide Claimable, Injective;
    assert IsDuty(rows, windows, discovered, results, d);
    assert Owned(owners, d);
    l :| l in owners && owners[l] == d;
    MeetsItsStream(rows, windows, d, l);
  }

  /** The booked line of a stream belongs to its last duty. */
  lemma BookedLast(
    rows: seq<Row>, windows: seq<Window>, discovered: seq<nat>, owners: Owners, results: map<Stream, Kept>,
    d: Duty, s: Stream)
    requires Accounted(rows, windows, discovered, owners, results) && KeepsFor(rows, windows, d, s)
    ensures s in results && BookedAt(rows, owners, s, results[s])
    ensures !Less(ClockOf(rows, owners[results[s].line]), ClockOf(rows, d))
  {
    hide OneToOne, Unambiguous, KeepsFor, Less, ClockOf, KeptAt;
    var l := DutyIsMet(rows, windows, discovered, owners, results, d, s);
    KeepIsKeep(rows, windows, d, s);
    assert UpToDate(rows, owners, results, l);
  }

  lemma KeepIsKeep(rows: seq<Row>, windows: seq<Window>, d: Duty, s: Stream)
    requires KeepsFor(rows, windows, d, s)
    ensures IsKeep(d)
  {}

  lemma BookedIsKept(
    rows: seq<Row>, windows: seq<Window>, discovered: seq<nat>, owners: Owners, results: map<Stream, Kept>, s: Stream)
    requires Accounted(rows, windows, discovered, owners, results) && s in results
    ensures var line := results[s].line;
      && line in owners && line < |rows| && Retention(rows[line]) && rows[line].stream == s
      && KeepsFor(rows, windows, owners[line], s) && owners[line].window < |windows|
      && KeptIn(rows, windows[owners[line].window], s, line)
  {
    hide OneToOne, Unambiguous, UpToDate;
    assert BookedAt(rows, owners, s, results[s]);
    KeepOwner(rows, windows, discovered, owners, results, results[s].line);
  }

  /** The window of the booked result is the last one of its stream. */
  lemma BookedWindow(
    rows: seq<Row>, windows: seq<Window>, discovered: seq<nat>, owners: Owners, results: map<Stream, Kept>, s: Stream)
    requires Accounted(rows, windows, discovered, owners, results) && s in results
    ensures var line := results[s].line;
      line in owners && !owners[line].Ending? && LastWindow(rows, windows, owners[line].window, s)
  {
    hide Accounted;
    BookedIsKept(rows, windows, discovered, owners, results, s);
    var d := owners[results[s].line];
    forall j | d.window < j < |windows| ensures !Recovers(rows, windows[j], s) {
      if Recovers(rows, windows[j], s) {
        var e := DutyIn(rows, windows, j, s);
        BookedLast(rows, windows, discovered, owners, results, e, s);
        assert false;
      }
    }
  }

  lemma DutyIn(rows: seq<Row>, windows: seq<Window>, j: nat, s: Stream) returns (d: Duty)
    requires j < |windows| && Recovers(rows, windows[j], s)
    ensures KeepsFor(rows, windows, d, s) && !d.Ending? && d.window == j
  {
    if Partially(windows[j], s) {
      d := Resuming(j, Keep);
    } else {
      var q :| RecoveryOf(rows, windows[j], s.0, q);
      d := Recovering(j, q, s.1, Keep);
    }
  }

  /** The booked row is the closing row of that window. */
  lemma BookedCloses(
    rows: seq<Row>, windows: seq<Window>, discovered: seq<nat>, owners: Owners, results: map<Stream, Kept>, s: Stream)
    requires Accounted(rows, windows, discovered, owners, results) && s in results
    ensures var line := results[s].line;
      && line in owners && !owners[line].Ending? && owners[line].window < |windows|
      && Closes(rows, windows[owners[line].window], s, line)
      && (owners[line].Recovering? ==> LastRecovery(rows, windows[owners[line].window], s.0, owners[line].recovery))
      && (Partially(windows[owners[line].window], s) ==> owners[line].Resuming?)
  {
    hide Accounted;
    BookedIsKept(rows, windows, discovered, owners, results, s);
    var line := results[s].line;
    var d := owners[line];
    var w := windows[d.window];
    AccountedParts(rows, windows, discovered, owners, results);
    hide OneToOne, Unambiguous;
    KeepOwner(rows, windows, discovered, owners, results, line);
    if Partially(w, s) {
      BookedLast(rows, windows, discovered, owners, results, Resuming(d.window, Keep), s);
      assert d.Resuming?;
    } else {
      forall p | RecoveryOf(rows, w, s.0, p) ensures p <= d.recovery {
        BookedLast(rows, windows, discovered, owners, results, Recovering(d.window, p, s.1, Keep), s);
      }
      assert LastRecovery(rows, w, s.0, d.recovery);
    }
  }

  lemma AccountedParts(
    rows: seq<Row>, windows: seq<Window>, discovered: seq<nat>, owners: Owners, results: map<Stream, Kept>)
    requires Accounted(rows, windows, discovered, owners, results)
    ensures OneToOne(rows, windows, discovered, results, owners) && Unambiguous(rows, windows, owners)
  {}

  /** It is the only closing row. */
  lemma ClosingIsBooked(
    rows: seq<Row>, windows: seq<Window>, discovered: seq<nat>, owners: Owners, results: map<Stream, Kept>,
    i: nat, s: Stream, m: nat)
    requires Accounted(rows, windows, discovered, owners, results) && Separate(windows)
    requires LastWindow(rows, windows, i, s) && Closes(rows, windows[i], s, m)
    ensures s in results && m == results[s].line
  {
    hide Accounted, OneToOne, Unambiguous;
    AccountedParts(rows, windows, discovered, owners, results);
    KeepOwner(rows, windows, discovered, owners, results, m);
    var e := owners[m];
    BookedLast(rows, windows, discovered, owners, results, e, s);
    BookedWindow(rows, windows, discovered, owners, results, s);
    BookedCloses(rows, windows, discovered, owners, results, s);
    var d := owners[results[s].line];
    SameWindow(windows, e.window, i, m);
    LastIsOne(rows, windows, d.window, i, s);
    if Partially(windows[i], s) {
      SameDuty(rows, windows, discovered, owners, results, m, results[s].line);
    } else {
      BookedIsKept(rows, windows, discovered, owners, results, s);
      KeepOwner(rows, windows, discovered, owners, results, results[s].line);
      NotRivals(rows, windows, owners, m, results[s].line);
      SameDuty(rows, windows, discovered, owners, results, m, results[s].line);
    }
  }

  lemma SameWindow(windows: seq<Window>, i: nat, j: nat, l: nat)
    requires Separate(windows) && i < |windows| && j < |windows|
    requires windows[i].begin < l < windows[i].end && windows[j].begin < l < windows[j].end
    ensures i == j
  {}

  lemma LastIsOne(rows: seq<Row>, windows: seq<Window>, i: nat, j: nat, s: Stream)
    requires LastWindow(rows, windows, i, s) && LastWindow(rows, windows, j, s)
    ensures i == j
  {}

  lemma SameDuty(
    rows: seq<Row>, windows: seq<Window>, discovered: seq<nat>, owners: Owners, results: map<Stream, Kept>,
    l: nat, m: nat)
    requires OneToOne(rows, windows, discovered, results, owners) && l in owners && m in owners
    requires owners[l] == owners[m]
    ensures l == m
  {
    hide Owned, IsDuty, Meets;
  }

  /** Two recoveries that look for their retained row in the same place. */
  ghost predicate Rivals(rows: seq<Row>, d: Duty, e: Duty) {
    && d.Recovering? && e.Recovering? && d.kind == Keep && e.kind == Keep
    && d.window == e.window && d.ase == e.ase && d.recovery != e.recovery
    && d.recovery < |rows| && e.recovery < |rows| && rows[d.recovery].Recovery? && rows[e.recovery].Recovery?
    && rows[d.recovery].generation == rows[e.recovery].generation
    && rows[d.recovery].recoveryPhase == rows[e.recovery].recoveryPhase
  }

  /** What one rival keeps could be taken for what the other keeps. */
  lemma RivalContends(rows: seq<Row>, windows: seq<Window>, owners: Owners, d: Duty, e: Duty, l: nat)
    requires Rivals(rows, d, e) && Meets(rows, windows, d, l)
    ensures Contends(rows, windows, owners, e, l)
  {}

  lemma NotRivals(rows: seq<Row>, windows: seq<Window>, owners: Owners, l: nat, m: nat)
    requires Unambiguous(rows, windows, owners) && l in owners && m in owners
    requires Meets(rows, windows, owners[l], l) && Meets(rows, windows, owners[m], m)
    ensures !Rivals(rows, owners[l], owners[m])
  {
    if Rivals(rows, owners[l], owners[m]) {
      hide Contends, Meets, Less, ClockOf;
      RivalContends(rows, windows, owners, owners[l], owners[m], l);
      RivalContends(rows, windows, owners, owners[m], owners[l], m);
      LessAsymmetric(ClockOf(rows, owners[l]), ClockOf(rows, owners[m]));
      assert false;
    }
  }

  /** No retained row of an accepted log comes after its stream's booked result if and only if the log is sequenced. */
  lemma SequencedIff(
    rows: seq<Row>, windows: seq<Window>, discovered: seq<nat>, owners: Owners, results: map<Stream, Kept>)
    requires Accounted(rows, windows, discovered, owners, results) && Separate(windows)
    ensures Sequenced(rows, windows) <==> !exists l :: Overtaken(rows, results, l)
  {
    hide Accounted, OneToOne, LastWindow, Closes, KeptIn;
    if Sequenced(rows, windows) {
      forall l ensures !Overtaken(rows, results, l) {
        NotOvertaken(rows, windows, discovered, owners, results, l);
      }
    }
    if !exists l :: Overtaken(rows, results, l) {
      forall i: nat, s: Stream, l: nat, m: nat |
        i < |windows| && LastWindow(rows, windows, i, s) && KeptIn(rows, windows[i], s, l) &&
          Closes(rows, windows[i], s, m)
        ensures l <= m
      {
        ClosingIsBooked(rows, windows, discovered, owners, results, i, s, m);
        KeptIsRetention(rows, windows[i], s, l);
        assert !Overtaken(rows, results, l);
      }
    }
  }

  lemma KeptIsRetention(rows: seq<Row>, w: Window, s: Stream, l: nat)
    requires KeptIn(rows, w, s, l)
    ensures l < |rows| && Retention(rows[l]) && rows[l].stream == s
  {}

  lemma NotOvertaken(
    rows: seq<Row>, windows: seq<Window>, discovered: seq<nat>, owners: Owners, results: map<Stream, Kept>, l: nat)
    requires Accounted(rows, windows, discovered, owners, results) && Separate(windows) && Sequenced(rows, windows)
    ensures !Overtaken(rows, results, l)
  {
    hide Accounted, OneToOne, Unambiguous;
    if Overtaken(rows, results, l) {
      var s := rows[l].stream;
      AccountedParts(rows, windows, discovered, owners, results);
      KeepOwner(rows, windows, discovered, owners, results, l);
      BookedLast(rows, windows, discovered, owners, results, owners[l], s);
      BookedWindow(rows, windows, discovered, owners, results, s);
      BookedCloses(rows, windows, discovered, owners, results, s);
      assert false;
    }
  }

  /** Every retained row of the stream precedes its retirement, which repeats the last of them. */
  ghost predicate RepeatsLast(rows: seq<Row>, results: map<Stream, Kept>, s: Stream, retire: nat) {
    && retire < |rows| && rows[retire].Audit? && s in results && results[s].line < retire
    && KeptAt(rows, s, results[s])
    && rows[retire].sends == Some(results[s].count) && rows[retire].fnv == Some(results[s].fnv)
    && forall l | 0 <= l < |rows| && Retention(rows[l]) && rows[l].stream == s :: l <= results[s].line
  }

  /**
   For every accepted log: each stream's booked result is that of its last retained row if and
   only if the log is sequenced; then each retirement repeats the last retained row of its
   stream and comes after all of them, and otherwise some retained row is overtaking.
   */
  lemma AcceptedOrder(rows: seq<Row>, windows: seq<Window>, discovered: seq<nat>)
    requires Distinct(discovered) && Separate(windows) && Accepted(rows, windows, discovered)
    ensures var b := AllBooks(rows, windows, |windows|).value;
      var chains := AllRetired(rows, discovered, b, |discovered|).value.chains;
      && (Sequenced(rows, windows) <==>
            forall l: nat | l < |rows| && Retention(rows[l]) ::
              rows[l].stream in b.results && l <= b.results[rows[l].stream].line)
      && (Sequenced(rows, windows) <==> !exists l :: Overtaken(rows, b.results, l))
      && (Sequenced(rows, windows) ==>
            forall s | s in chains && chains[s].Ended? :: RepeatsLast(rows, b.results, s, chains[s].retire))
  {
    hide Accepted, AllBooks, AllRetired, Sequenced, OneToOne, Booked, Unambiguous, Guarded, AllEnded, UnusedHasNothing;
    var b := BooksOf(rows, windows, discovered);
    var r := RetiredOf(rows, windows, discovered);
    AcceptedIsAccounted(rows, windows, discovered);
    SequencedIff(rows, windows, discovered, r.owners, b.results);
    forall l: nat | l < |rows| && Retention(rows[l]) ensures rows[l].stream in b.results {
      RetentionIsBooked(rows, windows, discovered, r.owners, b.results, l);
    }
    if !exists l :: Overtaken(rows, b.results, l) {
      forall l: nat | l < |rows| && Retention(rows[l]) ensures l <= b.results[rows[l].stream].line {
        assert !Overtaken(rows, b.results, l);
      }
      forall s | s in r.chains && r.chains[s].Ended? ensures RepeatsLast(rows, b.results, s, r.chains[s].retire) {
        EndRepeats(rows, windows, discovered, r.owners, b.results, r.chains, s);
      }
    }
  }

  lemma EndRepeats(
    rows: seq<Row>, windows: seq<Window>, discovered: seq<nat>, owners: Owners, results: map<Stream, Kept>,
    chains: map<Stream, Chain>, s: Stream)
    requires Accounted(rows, windows, discovered, owners, results)
    requires AllEnded(rows, discovered, results, owners, chains)
    requires forall l: nat | l < |rows| && Retention(rows[l]) ::
      rows[l].stream in results && l <= results[rows[l].stream].line
    requires s in chains && chains[s].Ended?
    ensures RepeatsLast(rows, results, s, chains[s].retire)
  {
    hide OneToOne, Unambiguous, Linked, UpToDate;
    assert ChainOk(rows, results, s, chains[s]);
    assert BookedAt(rows, owners, s, results[s]);
  }

  ghost function BooksOf(rows: seq<Row>, windows: seq<Window>, discovered: seq<nat>): Books
    requires Accepted(rows, windows, discovered)
  {
    AllBooks(rows, windows, |windows|).value
  }

  ghost function RetiredOf(rows: seq<Row>, windows: seq<Window>, discovered: seq<nat>): Retired
    requires Accepted(rows, windows, discovered)
  {
    AllRetired(rows, discovered, BooksOf(rows, windows, discovered), |discovered|).value
  }

  lemma RetentionIsBooked(
    rows: seq<Row>, windows: seq<Window>, discovered: seq<nat>, owners: Owners, results: map<Stream, Kept>, l: nat)
    requires Accounted(rows, windows, discovered, owners, results) && l < |rows| && Retention(rows[l])
    ensures rows[l].stream in results
  {
    hide OneToOne, Booked, Unambiguous, KeepsFor, BookedAt, KeptAt;
    KeepOwner(rows, windows, discovered, owners, results, l);
    BookedLast(rows, windows, discovered, owners, results, owners[l], rows[l].stream);
  }
}
