/**
 The transmit audit accepts every log that is accounted for.

 Whenever the duties of a log and its rows can be matched one to one and unambiguously,
 the check finds exactly that matching, so acceptance and accounting are the same.
 */
module TxComplete {
  import opened Common
  import opened TxAudits

  ghost predicate Matched(
    rows: seq<Row>, windows: seq<Window>, discovered: seq<nat>, owners: Owners, results: map<Stream, Kept>)
  {
    && OneToOne(rows, windows, discovered, results, owners)
    && Guarded(owners) && Unambiguous(rows, windows, owners)
  }

  /** The part of a matching that comes up before the clock. */
  ghost function Upto(rows: seq<Row>, owners: Owners, c: Clock): Owners {
    map l | l in owners && !owners[l].Ending? && Less(ClockOf(rows, owners[l]), c) :: owners[l]
  }

  lemma OwnerIsOpening(
    rows: seq<Row>, windows: seq<Window>, discovered: seq<nat>, owners: Owners, results: map<Stream, Kept>, l: nat)
    requires OneToOne(rows, windows, discovered, results, owners) && l in owners
    ensures Meets(rows, windows, owners[l], l)
    ensures !owners[l].Ending? ==> Opening(rows, windows, owners[l])
  {
    hide Meets, Opening;
    assert Owned(owners, owners[l]);
  }

  lemma DutyHasLine(
    rows: seq<Row>, windows: seq<Window>, discovered: seq<nat>, owners: Owners, results: map<Stream, Kept>, d: Duty)
    returns (l: nat)
    requires OneToOne(rows, windows, discovered, results, owners) && Opening(rows, windows, d)
    ensures Holds(owners, l, d) && Meets(rows, windows, d, l)
  {
    hide Meets;
    assert IsDuty(rows, windows, discovered, results, d);
    assert Owned(owners, d);
    l :| l in owners && owners[l] == d;
  }

  lemma UptoClaim(
    rows: seq<Row>, windows: seq<Window>, discovered: seq<nat>, owners: Owners, results: map<Stream, Kept>,
    c: Clock, d: Duty, l: nat)
    requires OneToOne(rows, windows, discovered, results, owners)
    requires Holds(owners, l, d) && !d.Ending? && ClockOf(rows, d) == c
    ensures l !in Upto(rows, owners, c) && Upto(rows, owners, c)[l := d] == Upto(rows, owners, Next(c))
  {
    LessNext(c, c);
    forall k | k in owners && !owners[k].Ending?
      ensures Less(ClockOf(rows, owners[k]), Next(c)) <==> Less(ClockOf(rows, owners[k]), c) || k == l
    {
      hide Less, ClockOf, OneToOne;
      LessNext(ClockOf(rows, owners[k]), c);
      OwnerIsOpening(rows, windows, discovered, owners, results, k);
      OwnerIsOpening(rows, windows, discovered, owners, results, l);
      if ClockOf(rows, owners[k]) == c {
        ClockInjective(rows, windows, d, owners[k]);
        SameLine(rows, windows, discovered, owners, results, k, l);
      }
    }
  }

  lemma SameLine(
    rows: seq<Row>, windows: seq<Window>, discovered: seq<nat>, owners: Owners, results: map<Stream, Kept>,
    k: nat, l: nat)
    requires OneToOne(rows, windows, discovered, results, owners)
    requires k in owners && l in owners && owners[k] == owners[l]
    ensures k == l
  {
    hide Meets, Owned, IsDuty;
  }

  lemma UptoSkip(
    rows: seq<Row>, windows: seq<Window>, discovered: seq<nat>, owners: Owners, results: map<Stream, Kept>,
    c: Clock, c': Clock)
    requires OneToOne(rows, windows, discovered, results, owners) && Idle(rows, windows, c, c')
    ensures Upto(rows, owners, c) == Upto(rows, owners, c')
  {
    NothingDue(rows, windows, c, c');
    hide Less, ClockOf, OneToOne, Opening;
    forall k | k in owners && !owners[k].Ending?
      ensures Less(ClockOf(rows, owners[k]), c) <==> Less(ClockOf(rows, owners[k]), c')
    {
      OwnerIsOpening(rows, windows, discovered, owners, results, k);
    }
  }

  /** The search for a duty's row finds the row that the matching gives it. */
  lemma Found(
    rows: seq<Row>, windows: seq<Window>, discovered: seq<nat>, owners: Owners, results: map<Stream, Kept>,
    c: Clock, d: Duty, l: nat, w: Want)
    requires Matched(rows, windows, discovered, owners, results)
    requires Holds(owners, l, d) && !d.Ending? && ClockOf(rows, d) == c
    requires l < |rows| && Fits(rows, l, w)
    requires forall m: nat | m < |rows| && w.low < m < w.high && Alike(rows[m], w.stage, w.stream, w.phase) ::
      m == l || Contends(rows, windows, owners, d, m)
    ensures OneOf(rows, w, Upto(rows, owners, c).Keys) == Some(l)
  {
    hide Less, ClockOf, OneToOne, Contends, Guarded;
    UptoClaim(rows, windows, discovered, owners, results, c, d, l);
    var used := Upto(rows, owners, c).Keys;
    forall j: nat | j < |rows| && w.low < j < w.high && Alike(rows[j], w.stage, w.stream, w.phase) && j != l
      ensures j in used
    {
      assert Contends(rows, windows, owners, owners[l], j);
    }
    hide Unambiguous, Upto;
    forall j | 0 <= j < |rows| ensures !Unreadable(rows, j, w, used) {
      assert Unreadable(rows, j, w, used) ==> Alike(rows[j], w.stage, w.stream, w.phase);
    }
    forall j | 0 <= j < |rows| && j !in used && Fits(rows, j, w) ensures j == l {
      assert Alike(rows[j], w.stage, w.stream, w.phase);
    }
    assert OnlyFit(rows, w, used, l);
  }

  // ---- the windows -------------------------------------------------------

  lemma RegisterFound(
    rows: seq<Row>, windows: seq<Window>, discovered: seq<nat>, owners: Owners, results: map<Stream, Kept>,
    i: nat, q: nat, x: nat, reg: nat)
    requires Matched(rows, windows, discovered, owners, results)
    requires i < |windows| && RecoveryIn(rows, windows[i], q) && x < 2
    requires Holds(owners, reg, Recovering(i, q, x, Register))
    requires Meets(rows, windows, Recovering(i, q, x, Register), reg)
    ensures var w, s, phase := windows[i], (rows[q].generation, x), rows[q].recoveryPhase;
      OneOf(rows, Want(None, s, w.begin, q, Some(phase)), Upto(rows, owners, Clock(i, q, x, 0)).Keys) == Some(reg)
    ensures Upto(rows, owners, Clock(i, q, x, 0))[reg := Recovering(i, q, x, Register)] ==
      Upto(rows, owners, Clock(i, q, x, 1))
    ensures rows[reg].ret == Some(0)
  {
    hide Matched, Upto;
    MatchedParts(rows, windows, discovered, owners, results);
    hide OneToOne;
    var w, s, phase := windows[i], (rows[q].generation, x), rows[q].recoveryPhase;
    var d := Recovering(i, q, x, Register);
    Found(rows, windows, discovered, owners, results, Clock(i, q, x, 0), d, reg,
      Want(None, s, w.begin, q, Some(phase)));
    UptoClaim(rows, windows, discovered, owners, results, Clock(i, q, x, 0), d, reg);
  }

  lemma MatchedParts(
    rows: seq<Row>, windows: seq<Window>, discovered: seq<nat>, owners: Owners, results: map<Stream, Kept>)
    requires Matched(rows, windows, discovered, owners, results)
    ensures OneToOne(rows, windows, discovered, results, owners)
  {}

  lemma GuardFound(
    rows: seq<Row>, windows: seq<Window>, discovered: seq<nat>, owners: Owners, results: map<Stream, Kept>,
    i: nat, q: nat, x: nat, reg: nat, active: nat)
    requires Matched(rows, windows, discovered, owners, results)
    requires i < |windows| && RecoveryIn(rows, windows[i], q) && x < 2
    requires Holds(owners, reg, Recovering(i, q, x, Register))
    requires Holds(owners, active, Recovering(i, q, x, Guard))
    requires Meets(rows, windows, Recovering(i, q, x, Guard), active)
    ensures var s, phase := (rows[q].generation, x), rows[q].recoveryPhase;
      OneOf(rows, Want(Some(Active), s, reg, q, Some(phase)),
            Upto(rows, owners, Clock(i, q, x, 1)).Keys) == Some(active)
    ensures Upto(rows, owners, Clock(i, q, x, 1))[active := Recovering(i, q, x, Guard)] ==
      Upto(rows, owners, Clock(i, q, x, 2))
    ensures rows[active].Audit? && rows[active].forgetRet == Some(-16)
  {
    GuardAfter(owners, reg, active);
    hide Matched, Upto, Guarded;
    MatchedParts(rows, windows, discovered, owners, results);
    hide OneToOne;
    var s, phase := (rows[q].generation, x), rows[q].recoveryPhase;
    var d := Recovering(i, q, x, Guard);
    forall m: nat | reg < m ensures RegisteredBefore(owners, As(d, Register), m) {
      assert Holds(owners, reg, As(d, Register));
    }
    Found(rows, windows, discovered, owners, results, Clock(i, q, x, 1), d, active,
      Want(Some(Active), s, reg, q, Some(phase)));
    UptoClaim(rows, windows, discovered, owners, results, Clock(i, q, x, 1), d, active);
  }

  lemma GuardAfter(owners: Owners, reg: nat, active: nat)
    requires Guarded(owners) && reg in owners && active in owners
    requires owners[reg].Recovering? && owners[reg].kind == Register && owners[active] == As(owners[reg], Guard)
    ensures reg < active
  {}

  lemma KeepFound(
    rows: seq<Row>, windows: seq<Window>, discovered: seq<nat>, owners: Owners, results: map<Stream, Kept>,
    i: nat, q: nat, x: nat, kept: nat) returns (tx: nat)
    requires Matched(rows, windows, discovered, owners, results)
    requires i < |windows| && RecoveryIn(rows, windows[i], q) && x < 2
    requires Holds(owners, kept, Recovering(i, q, x, Keep)) && Meets(rows, windows, Recovering(i, q, x, Keep), kept)
    ensures var w, s, phase := windows[i], (rows[q].generation, x), rows[q].recoveryPhase;
      && SoleOf(rows, w.begin, w.end, Sent(phase, x)) == Some(tx) && q < tx
      && OneOf(rows, Want(Some(Retained), s, tx, w.end, Some(phase)),
               Upto(rows, owners, Clock(i, q, x, 2)).Keys) == Some(kept)
    ensures Upto(rows, owners, Clock(i, q, x, 2))[kept := Recovering(i, q, x, Keep)] ==
      Upto(rows, owners, Clock(i, q, x, 3))
    ensures Sound(rows[kept], 30)
  {
    hide Matched, Upto, Fnv8;
    MatchedParts(rows, windows, discovered, owners, results);
    hide OneToOne;
    var w, s, phase := windows[i], (rows[q].generation, x), rows[q].recoveryPhase;
    var d := Recovering(i, q, x, Keep);
    tx :| q < tx < kept && tx < |rows| && rows[tx] == Transmit(phase, x, true) &&
      forall u | w.begin < u < w.end && u < |rows| && rows[u] == Transmit(phase, x, true) :: u == tx;
    assert OnlySuch(rows, w.begin, w.end, Sent(phase, x), tx);
    Found(rows, windows, discovered, owners, results, Clock(i, q, x, 2), d, kept,
      Want(Some(Retained), s, tx, w.end, Some(phase)));
    UptoClaim(rows, windows, discovered, owners, results, Clock(i, q, x, 2), d, kept);
  }

  lemma AseFound(
    rows: seq<Row>, windows: seq<Window>, discovered: seq<nat>, owners: Owners, results: map<Stream, Kept>,
    i: nat, q: nat, x: nat, b: Books)
    requires Matched(rows, windows, discovered, owners, results)
    requires i < |windows| && RecoveryIn(rows, windows[i], q) && x < 2
    requires b.owners == Upto(rows, owners, Clock(i, q, x, 0))
    ensures AseBooks(rows, windows, i, q, x, b).Some?
    ensures AseBooks(rows, windows, i, q, x, b).value.owners == Upto(rows, owners, Clock(i, q, x, 3))
  {
    hide Matched, Upto, Meets, Sound, OneToOne, OnlyFit, OnlySuch;
    MatchedParts(rows, windows, discovered, owners, results);
    var reg := DutyHasLine(rows, windows, discovered, owners, results, Recovering(i, q, x, Register));
    var active := DutyHasLine(rows, windows, discovered, owners, results, Recovering(i, q, x, Guard));
    var kept := DutyHasLine(rows, windows, discovered, owners, results, Recovering(i, q, x, Keep));
    RegisterFound(rows, windows, discovered, owners, results, i, q, x, reg);
    GuardFound(rows, windows, discovered, owners, results, i, q, x, reg, active);
    var tx := KeepFound(rows, windows, discovered, owners, results, i, q, x, kept);
  }

  lemma RecoveryFound(
    rows: seq<Row>, windows: seq<Window>, discovered: seq<nat>, owners: Owners, results: map<Stream, Kept>,
    i: nat, q: nat, b: Books)
    requires Matched(rows, windows, discovered, owners, results)
    requires i < |windows| && RecoveryIn(rows, windows[i], q) && b.owners == Upto(rows, owners, Clock(i, q, 0, 0))
    ensures RecoveryBooks(rows, windows, i, q, b).Some?
    ensures RecoveryBooks(rows, windows, i, q, b).value.owners == Upto(rows, owners, Clock(i, q + 1, 0, 0))
  {
    hide Matched, Upto, OneToOne, AseBooks;
    MatchedParts(rows, windows, discovered, owners, results);
    AseFound(rows, windows, discovered, owners, results, i, q, 0, b);
    UptoSkip(rows, windows, discovered, owners, results, Clock(i, q, 0, 3), Clock(i, q, 1, 0));
    AseFound(rows, windows, discovered, owners, results, i, q, 1, AseBooks(rows, windows, i, q, 0, b).value);
    UptoSkip(rows, windows, discovered, owners, results, Clock(i, q, 1, 3), Clock(i, q + 1, 0, 0));
  }

  lemma {:induction false} RecoveriesFound(
    rows: seq<Row>, windows: seq<Window>, discovered: seq<nat>, owners: Owners, results: map<Stream, Kept>,
    i: nat, b: Books, n: nat)
    requires Matched(rows, windows, discovered, owners, results)
    requires i < |windows| && n <= |rows| && b.owners == Upto(rows, owners, Clock(i, 0, 0, 0))
    ensures RecoveriesBooks(rows, windows, i, b, n).Some?
    ensures RecoveriesBooks(rows, windows, i, b, n).value.owners == Upto(rows, owners, Clock(i, n, 0, 0))
  {
    hide Matched, Upto, OneToOne, RecoveryBooks;
    if n > 0 {
      RecoveriesFound(rows, windows, discovered, owners, results, i, b, n - 1);
      if RecoveryIn(rows, windows[i], n - 1) {
        RecoveryFound(rows, windows, discovered, owners, results, i, n - 1,
          RecoveriesBooks(rows, windows, i, b, n - 1).value);
      } else {
        MatchedParts(rows, windows, discovered, owners, results);
        UptoSkip(rows, windows, discovered, owners, results, Clock(i, n - 1, 0, 0), Clock(i, n, 0, 0));
      }
    }
  }

  lemma PartRegisterFound(
    rows: seq<Row>, windows: seq<Window>, discovered: seq<nat>, owners: Owners, results: map<Stream, Kept>,
    i: nat, reg: nat) returns (partial: nat)
    requires Matched(rows, windows, discovered, owners, results) && i < |windows| && windows[i].partial
    requires Holds(owners, reg, Resuming(i, Register)) && Meets(rows, windows, Resuming(i, Register), reg)
    ensures var w, s := windows[i], (windows[i].generation, 0);
      && SoleOf(rows, w.begin, w.end, AcceptedPart) == Some(partial) && rows[partial].accepted == Some(10)
      && OneOf(rows, Want(None, s, w.begin, partial, None),
               Upto(rows, owners, Clock(i, |rows|, 0, 0)).Keys) == Some(reg)
    ensures Upto(rows, owners, Clock(i, |rows|, 0, 0))[reg := Resuming(i, Register)] ==
      Upto(rows, owners, Clock(i, |rows|, 0, 1))
    ensures rows[reg].ret == Some(0)
  {
    hide Matched, Upto;
    MatchedParts(rows, windows, discovered, owners, results);
    hide OneToOne;
    var w, d := windows[i], Resuming(i, Register);
    partial :| reg < partial < w.end && partial < |rows| && rows[partial].PartialSource? &&
      rows[partial].accepted == Some(10) && forall u |
      w.begin < u < w.end && u < |rows| && rows[u].PartialSource? && rows[u].accepted.Some? :: u == partial;
    assert OnlySuch(rows, w.begin, w.end, AcceptedPart, partial);
    Found(rows, windows, discovered, owners, results, Clock(i, |rows|, 0, 0), d, reg,
      Want(None, (w.generation, 0), w.begin, partial, None));
    UptoClaim(rows, windows, discovered, owners, results, Clock(i, |rows|, 0, 0), d, reg);
  }

  /** The row that the kept one follows. */
  lemma DrainedOf(rows: seq<Row>, windows: seq<Window>, i: nat, kept: nat) returns (drained: nat)
    requires i < |windows| && Meets(rows, windows, Resuming(i, Keep), kept)
    ensures var w := windows[i];
      && w.begin < drained < kept && drained < |rows|
      && rows[drained].PartialSource? && rows[drained].unregister == Some(0)
      && SoleOf(rows, w.begin, w.end, DrainedPart) == Some(drained)
  {
    hide Fnv8;
    var w := windows[i];
    drained :| w.begin < drained < kept && drained < |rows| && rows[drained].PartialSource? &&
      rows[drained].unregister == Some(0) && forall u |
      w.begin < u < w.end && u < |rows| && rows[u].PartialSource? && rows[u].unregister.Some? :: u == drained;
    assert OnlySuch(rows, w.begin, w.end, DrainedPart, drained);
  }

  lemma PartKeepFound(
    rows: seq<Row>, windows: seq<Window>, discovered: seq<nat>, owners: Owners, results: map<Stream, Kept>,
    i: nat, kept: nat) returns (drained: nat)
    requires Matched(rows, windows, discovered, owners, results) && i < |windows| && windows[i].partial
    requires Holds(owners, kept, Resuming(i, Keep)) && Meets(rows, windows, Resuming(i, Keep), kept)
    ensures var w, s := windows[i], (windows[i].generation, 0);
      && SoleOf(rows, w.begin, w.end, DrainedPart) == Some(drained) && rows[drained].unregister == Some(0)
      && OneOf(rows, Want(Some(Partial), s, drained, w.end, None),
               Upto(rows, owners, Clock(i, |rows|, 0, 2)).Keys) == Some(kept)
    ensures Upto(rows, owners, Clock(i, |rows|, 0, 2))[kept := Resuming(i, Keep)] ==
      Upto(rows, owners, Clock(i, |rows|, 0, 3))
    ensures Sound(rows[kept], 10)
  {
    hide Matched, Upto, Fnv8;
    MatchedParts(rows, windows, discovered, owners, results);
    hide OneToOne;
    var w, d := windows[i], Resuming(i, Keep);
    drained := DrainedOf(rows, windows, i, kept);
    hide SoleOf, OnlySuch;
    Found(rows, windows, discovered, owners, results, Clock(i, |rows|, 0, 2), d, kept,
      Want(Some(Partial), (w.generation, 0), drained, w.end, None));
    UptoClaim(rows, windows, discovered, owners, results, Clock(i, |rows|, 0, 2), d, kept);
  }

  lemma PartialFound(
    rows: seq<Row>, windows: seq<Window>, discovered: seq<nat>, owners: Owners, results: map<Stream, Kept>,
    i: nat, b: Books)
    requires Matched(rows, windows, discovered, owners, results) && i < |windows| && windows[i].partial
    requires b.owners == Upto(rows, owners, Clock(i, |rows|, 0, 0))
    ensures PartialBooks(rows, windows, i, b).Some?
    ensures PartialBooks(rows, windows, i, b).value.owners == Upto(rows, owners, Clock(i, |rows|, 0, 3))
  {
    hide Matched, Upto, Meets, Sound, OneToOne, OnlyFit, OnlySuch;
    MatchedParts(rows, windows, discovered, owners, results);
    var reg := DutyHasLine(rows, windows, discovered, owners, results, Resuming(i, Register));
    var kept := DutyHasLine(rows, windows, discovered, owners, results, Resuming(i, Keep));
    var partial := PartRegisterFound(rows, windows, discovered, owners, results, i, reg);
    UptoSkip(rows, windows, discovered, owners, results, Clock(i, |rows|, 0, 1), Clock(i, |rows|, 0, 2));
    var drained := PartKeepFound(rows, windows, discovered, owners, results, i, kept);
  }

  lemma WindowFound(
    rows: seq<Row>, windows: seq<Window>, discovered: seq<nat>, owners: Owners, results: map<Stream, Kept>,
    i: nat, b: Books)
    requires Matched(rows, windows, discovered, owners, results) && i < |windows|
    requires b.owners == Upto(rows, owners, Clock(i, 0, 0, 0))
    ensures WindowBooks(rows, windows, i, b).Some?
    ensures WindowBooks(rows, windows, i, b).value.owners == Upto(rows, owners, Clock(i + 1, 0, 0, 0))
  {
    hide Matched, Upto, OneToOne, RecoveriesBooks, PartialBooks;
    MatchedParts(rows, windows, discovered, owners, results);
    RecoveriesFound(rows, windows, discovered, owners, results, i, b, |rows|);
    if windows[i].partial {
      PartialFound(rows, windows, discovered, owners, results, i, RecoveriesBooks(rows, windows, i, b, |rows|).value);
      UptoSkip(rows, windows, discovered, owners, results, Clock(i, |rows|, 0, 3), Clock(i + 1, 0, 0, 0));
    } else {
      UptoSkip(rows, windows, discovered, owners, results, Clock(i, |rows|, 0, 0), Clock(i + 1, 0, 0, 0));
    }
  }

  lemma NothingYet(rows: seq<Row>, owners: Owners)
    ensures Upto(rows, owners, Clock(0, 0, 0, 0)) == map[]
  {
    assert forall c: Clock :: !Less(c, Clock(0, 0, 0, 0));
  }

  lemma {:induction false} AllBooksFound(
    rows: seq<Row>, windows: seq<Window>, discovered: seq<nat>, owners: Owners, results: map<Stream, Kept>, n: nat)
    requires Matched(rows, windows, discovered, owners, results) && n <= |windows|
    ensures AllBooks(rows, windows, n).Some?
    ensures AllBooks(rows, windows, n).value.owners == Upto(rows, owners, Clock(n, 0, 0, 0))
  {
    hide Matched, Upto, WindowBooks;
    if n == 0 {
      NothingYet(rows, owners);
    } else {
      AllBooksFound(rows, windows, discovered, owners, results, n - 1);
      WindowFound(rows, windows, discovered, owners, results, n - 1, AllBooks(rows, windows, n - 1).value);
    }
  }

  // ---- the booked results ------------------------------------------------

  lemma KeptIsDetermined(rows: seq<Row>, s: Stream, a: Kept, b: Kept)
    requires KeptAt(rows, s, a) && KeptAt(rows, s, b) && a.line == b.line
    ensures a == b
  {}

  lemma LessTotal(a: Clock, b: Clock)
    requires !Less(a, b) && !Less(b, a)
    ensures a == b
  {}

  /** All claims of the windows are there at the end. */
  lemma UptoAll(
    rows: seq<Row>, windows: seq<Window>, discovered: seq<nat>, owners: Owners, results: map<Stream, Kept>, l: nat)
    requires OneToOne(rows, windows, discovered, results, owners)
    ensures var early := Upto(rows, owners, Clock(|windows|, 0, 0, 0));
      && (l in early ==> l in owners && owners[l] == early[l] && !owners[l].Ending?)
      && (l in owners && !owners[l].Ending? ==> l in early && early[l] == owners[l])
  {
    if l in owners && !owners[l].Ending? {
      hide OneToOne, Less, ClockOf;
      OwnerIsOpening(rows, windows, discovered, owners, results, l);
      AllDue(rows, windows, owners[l]);
    }
  }

  /** The two books have the same claims to keep, so they book the same results. */
  lemma SameResult(
    rows: seq<Row>, windows: seq<Window>, discovered: seq<nat>, owners: Owners, results: map<Stream, Kept>,
    b: Books, s: Stream)
    requires OneToOne(rows, windows, discovered, results, owners)
    requires Booked(rows, Books(owners, results)) && Booked(rows, b)
    requires b.owners == Upto(rows, owners, Clock(|windows|, 0, 0, 0))
    ensures s in results <==> s in b.results
    ensures s in results ==> results[s] == b.results[s]
  {
    hide OneToOne, Upto, Less, ClockOf, KeptAt;
    if s in results {
      var k := results[s];
      assert BookedAt(rows, owners, s, k);
      UptoAll(rows, windows, discovered, owners, results, k.line);
      KeptRow(rows, s, k);
      assert UpToDate(rows, b.owners, b.results, k.line);
    }
    if s in b.results {
      var k := b.results[s];
      assert BookedAt(rows, b.owners, s, k);
      UptoAll(rows, windows, discovered, owners, results, k.line);
      KeptRow(rows, s, k);
      assert UpToDate(rows, owners, results, k.line);
      var line := results[s].line;
      assert BookedAt(rows, owners, s, results[s]);
      UptoAll(rows, windows, discovered, owners, results, line);
      KeptRow(rows, s, results[s]);
      assert UpToDate(rows, b.owners, b.results, line);
      LessTotal(ClockOf(rows, owners[line]), ClockOf(rows, owners[k.line]));
      OwnerIsOpening(rows, windows, discovered, owners, results, line);
      OwnerIsOpening(rows, windows, discovered, owners, results, k.line);
      ClockInjective(rows, windows, owners[line], owners[k.line]);
      SameLine(rows, windows, discovered, owners, results, line, k.line);
      KeptIsDetermined(rows, s, results[s], k);
    }
  }

  lemma KeptRow(rows: seq<Row>, s: Stream, k: Kept)
    requires KeptAt(rows, s, k)
    ensures k.line < |rows| && rows[k.line].Audit? && rows[k.line].stream == s
  {}

  lemma BooksFound(
    rows: seq<Row>, windows: seq<Window>, discovered: seq<nat>, owners: Owners, results: map<Stream, Kept>)
    requires Matched(rows, windows, discovered, owners, results) && Booked(rows, Books(owners, results))
    ensures AllBooks(rows, windows, |windows|) == Some(Books(Upto(rows, owners, Clock(|windows|, 0, 0, 0)), results))
  {
    hide Matched, Upto, Booked, AllBooks, OneToOne;
    AllBooksFound(rows, windows, discovered, owners, results, |windows|);
    AllBooksKeep(rows, windows, |windows|);
    MatchedParts(rows, windows, discovered, owners, results);
    var b := AllBooks(rows, windows, |windows|).value;
    forall s ensures (s in results <==> s in b.results) && (s in results ==> results[s] == b.results[s]) {
      SameResult(rows, windows, discovered, owners, results, b, s);
    }
    assert results == b.results;
  }

  // ---- retirement --------------------------------------------------------

  /** The streams retired once `n` generations and `x` streams of the next are done. */
  predicate Done(discovered: seq<nat>, n: nat, x: nat, s: Stream) requires n <= |discovered| {
    s.0 in discovered[..n] || (n < |discovered| && s.0 == discovered[n] && s.1 < x)
  }

  ghost function Through(owners: Owners, discovered: seq<nat>, n: nat, x: nat): Owners requires n <= |discovered| {
    map l | l in owners && (owners[l].Ending? ==> Done(discovered, n, x, owners[l].ended)) :: owners[l]
  }

  ghost function ChainsThrough(chains: map<Stream, Chain>, discovered: seq<nat>, n: nat, x: nat): map<Stream, Chain>
    requires n <= |discovered|
  {
    map s | s in chains && Done(discovered, n, x, s) :: chains[s]
  }

  /** The search for a stage of a stream's end finds its one row. */
  lemma StageFound(
    rows: seq<Row>, windows: seq<Window>, discovered: seq<nat>, owners: Owners, results: map<Stream, Kept>,
    s: Stream, stage: Stage, l: nat, used: set<nat>, low: nat, high: nat)
    requires OneToOne(rows, windows, discovered, results, owners) && Holds(owners, l, Ending(s, stage))
    requires stage in {Unused, Retire, Forget, Forgotten} && low < l < high && l !in used
    ensures OneOf(rows, Want(Some(stage), s, low, high, None), used) == Some(l)
  {
    var w := Want(Some(stage), s, low, high, None);
    OwnerIsOpening(rows, windows, discovered, owners, results, l);
    forall j: nat | j < |rows| && Candidate(rows[j], w) ensures j == l {
      StageOwner(rows, windows, discovered, owners, results, s, stage, j);
      hide OneToOne;
      SameLine(rows, windows, discovered, owners, results, j, l);
    }
    assert OnlyFit(rows, w, used, l);
  }

  lemma StageOwner(
    rows: seq<Row>, windows: seq<Window>, discovered: seq<nat>, owners: Owners, results: map<Stream, Kept>,
    s: Stream, stage: Stage, j: nat)
    requires OneToOne(rows, windows, discovered, results, owners) && AuditAt(rows, j, stage, s)
    requires stage in {Unused, Retire, Forget, Forgotten}
    ensures j in owners && owners[j] == Ending(s, stage)
  {
    assert j in ClaimableLines(rows);
    hide OneToOne;
    OwnerIsOpening(rows, windows, discovered, owners, results, j);
  }

  lemma BracketFound(rows: seq<Row>, g: nat, l: nat) returns (unsub: nat, closed: nat)
    requires Bracketed(rows, g, l)
    ensures SoleOf(rows, -1, |rows|, RetiredBy(g)) == Some(closed)
    ensures SoleOf(rows, -1, |rows|, UnsubscribedBy(g)) == Some(unsub)
    ensures unsub < l < closed
  {
    unsub, closed :| 0 <= unsub < l < closed < |rows| && rows[unsub] == ControlClose(g, true) &&
      rows[closed] == Cleanup(g, true) &&
      (forall j | 0 <= j < |rows| && rows[j] == ControlClose(g, true) :: j == unsub) &&
      (forall j | 0 <= j < |rows| && rows[j] == Cleanup(g, true) :: j == closed);
    assert OnlySuch(rows, -1, |rows|, RetiredBy(g), closed) && OnlySuch(rows, -1, |rows|, UnsubscribedBy(g), unsub);
  }

  /** The end of a stream is found as the chain says. */
  lemma ChainFound(
    rows: seq<Row>, windows: seq<Window>, discovered: seq<nat>, owners: Owners, results: map<Stream, Kept>,
    chains: map<Stream, Chain>, s: Stream, used: set<nat>) returns (unsub: nat, closed: nat)
    requires OneToOne(rows, windows, discovered, results, owners) && AllEnded(rows, discovered, results, owners, chains)
    requires s in chains && forall stage, l | LinkAt(chains[s], stage) == Some(l) :: l !in used
    ensures SoleOf(rows, -1, |rows|, RetiredBy(s.0)) == Some(closed)
    ensures SoleOf(rows, -1, |rows|, UnsubscribedBy(s.0)) == Some(unsub)
    ensures ChainOf(rows, s, unsub, closed, results, used) == Some(chains[s])
  {
    hide OneToOne, Bracketed;
    var c := chains[s];
    assert ChainOk(rows, results, s, c);
    match c {
      case Never(u) =>
        LinkHolds(owners, chains, s, Unused, u);
        unsub, closed := BracketFound(rows, s.0, u);
        StageFound(rows, windows, discovered, owners, results, s, Unused, u, used, unsub, closed);
      case Ended(r, f, g) =>
        LinkHolds(owners, chains, s, Retire, r);
        LinkHolds(owners, chains, s, Forget, f);
        LinkHolds(owners, chains, s, Forgotten, g);
        unsub, closed := BracketFound(rows, s.0, r);
        var u1, c1 := BracketFound(rows, s.0, f);
        var u2, c2 := BracketFound(rows, s.0, g);
        assert LinkAt(c, Retire) == Some(r) && LinkAt(c, Forget) == Some(f) && LinkAt(c, Forgotten) == Some(g);
        StageFound(rows, windows, discovered, owners, results, s, Retire, r, used, Max(unsub, results[s].line), closed);
        StageFound(rows, windows, discovered, owners, results, s, Forget, f, used + {r}, r, closed);
        StageFound(rows, windows, discovered, owners, results, s, Forgotten, g, used + {r, f}, f, closed);
    }
  }

  lemma LinkHolds(owners: Owners, chains: map<Stream, Chain>, s: Stream, stage: Stage, l: nat)
    requires Linked(owners, chains) && s in chains && LinkAt(chains[s], stage) == Some(l)
    ensures Holds(owners, l, Ending(s, stage))
  {
    assert LinkOf(chains, l, Ending(s, stage));
  }

  /** One more stream's end completes the claims by exactly its links. */
  lemma ThroughNext(
    rows: seq<Row>, discovered: seq<nat>, owners: Owners, results: map<Stream, Kept>, chains: map<Stream, Chain>,
    n: nat, x: nat)
    requires AllEnded(rows, discovered, results, owners, chains) && Distinct(discovered) && n < |discovered| && x < 2
    ensures var s := (discovered[n], x);
      && s in chains
      && (forall stage, l | LinkAt(chains[s], stage) == Some(l) :: l !in Through(owners, discovered, n, x))
      && WithChain(Through(owners, discovered, n, x), s, chains[s]) == Through(owners, discovered, n, x + 1)
      && ChainsThrough(chains, discovered, n, x)[s := chains[s]] == ChainsThrough(chains, discovered, n, x + 1)
  {
    hide ChainOk;
    var s: Stream := (discovered[n], x);
    assert s in chains;
    forall stage, l | LinkAt(chains[s], stage) == Some(l) ensures l !in Through(owners, discovered, n, x) {
      LinkHolds(owners, chains, s, stage, l);
    }
    var before, after := Through(owners, discovered, n, x), Through(owners, discovered, n, x + 1);
    LinksFresh(rows, results, s, chains[s], before);
    forall l: nat, d: Duty ensures Holds(WithChain(before, s, chains[s]), l, d) <==> Holds(after, l, d) {
      ChainHolds(before, s, chains[s], l, d);
      assert d.Ending? ==> (Holds(owners, l, d) <==> LinkOf(chains, l, d));
    }
    SameHolds(WithChain(before, s, chains[s]), after);
  }

  lemma LinksFresh(rows: seq<Row>, results: map<Stream, Kept>, s: Stream, c: Chain, owners: Owners)
    requires ChainOk(rows, results, s, c)
    requires forall stage, l | LinkAt(c, stage) == Some(l) :: l !in owners
    ensures FreshChain(owners, c)
  {
    LinksAreFresh(rows, results, s, c, owners);
  }

  lemma SameHolds(a: Owners, b: Owners)
    requires forall l: nat, d: Duty :: Holds(a, l, d) <==> Holds(b, l, d)
    ensures a == b
  {
    forall l: nat ensures (l in a <==> l in b) && (l in a ==> a[l] == b[l]) {
      assert l in a ==> Holds(a, l, a[l]);
      assert l in b ==> Holds(b, l, b[l]);
    }
  }

  lemma ThroughGeneration(owners: Owners, chains: map<Stream, Chain>, discovered: seq<nat>, n: nat)
    requires n < |discovered|
    requires forall l | l in owners && owners[l].Ending? :: owners[l].ended.1 < 2
    requires forall s | s in chains :: s.1 < 2
    ensures Through(owners, discovered, n, 2) == Through(owners, discovered, n + 1, 0)
    ensures ChainsThrough(chains, discovered, n, 2) == ChainsThrough(chains, discovered, n + 1, 0)
  {
    assert discovered[..n + 1] == discovered[..n] + [discovered[n]];
  }

  lemma EndingsInRange(
    rows: seq<Row>, discovered: seq<nat>, owners: Owners, results: map<Stream, Kept>, chains: map<Stream, Chain>)
    requires AllEnded(rows, discovered, results, owners, chains)
    ensures forall l | l in owners && owners[l].Ending? :: owners[l].ended.1 < 2 && owners[l].ended.0 in discovered
    ensures forall s | s in chains :: s.1 < 2
  {
    hide ChainOk;
    forall l | l in owners && owners[l].Ending? ensures owners[l].ended.1 < 2 && owners[l].ended.0 in discovered {
      assert Holds(owners, l, owners[l]);
    }
  }

  lemma GenerationFound(
    rows: seq<Row>, windows: seq<Window>, discovered: seq<nat>, owners: Owners, results: map<Stream, Kept>,
    chains: map<Stream, Chain>, n: nat)
    requires OneToOne(rows, windows, discovered, results, owners) && AllEnded(rows, discovered, results, owners, chains)
    requires Distinct(discovered) && n < |discovered|
    ensures GenerationRetired(rows, discovered[n], results,
      Retired(Through(owners, discovered, n, 0), ChainsThrough(chains, discovered, n, 0))) ==
      Some(Retired(Through(owners, discovered, n + 1, 0), ChainsThrough(chains, discovered, n + 1, 0)))
  {
    hide OneToOne, AllEnded, ChainOf, WithChain, LinkAt, Through, ChainsThrough, OnlySuch;
    var g := discovered[n];
    ThroughNext(rows, discovered, owners, results, chains, n, 0);
    ThroughNext(rows, discovered, owners, results, chains, n, 1);
    EndingsInRange(rows, discovered, owners, results, chains);
    ThroughGeneration(owners, chains, discovered, n);
    var u0, c0 := ChainFound(rows, windows, discovered, owners, results, chains, (g, 0),
      Through(owners, discovered, n, 0).Keys);
    var u1, c1 := ChainFound(rows, windows, discovered, owners, results, chains, (g, 1),
      Through(owners, discovered, n, 1).Keys);
  }

  lemma RetiredNext(rows: seq<Row>, discovered: seq<nat>, b: Books, n: nat)
    requires n <= |discovered|
    ensures n == 0 ==> AllRetired(rows, discovered, b, n) == Some(Retired(b.owners, map[]))
    ensures n > 0 && AllRetired(rows, discovered, b, n - 1).Some? ==>
      AllRetired(rows, discovered, b, n) ==
      GenerationRetired(rows, discovered[n - 1], b.results, AllRetired(rows, discovered, b, n - 1).value)
  {
    hide GenerationRetired;
  }

  lemma NoChains(chains: map<Stream, Chain>, discovered: seq<nat>)
    ensures ChainsThrough(chains, discovered, 0, 0) == map[]
  {
  }

  lemma {:induction false} RetiredFound(
    rows: seq<Row>, windows: seq<Window>, discovered: seq<nat>, owners: Owners, results: map<Stream, Kept>,
    chains: map<Stream, Chain>, b: Books, n: nat)
    requires OneToOne(rows, windows, discovered, results, owners) && AllEnded(rows, discovered, results, owners, chains)
    requires Distinct(discovered) && n <= |discovered|
    requires b == Books(Through(owners, discovered, 0, 0), results)
    ensures AllRetired(rows, discovered, b, n) ==
      Some(Retired(Through(owners, discovered, n, 0), ChainsThrough(chains, discovered, n, 0)))
  {
    hide OneToOne, AllEnded, Through, ChainsThrough, GenerationRetired, AllRetired;
    RetiredNext(rows, discovered, b, n);
    if n == 0 {
      NoChains(chains, discovered);
    } else {
      RetiredFound(rows, windows, discovered, owners, results, chains, b, n - 1);
      GenerationFound(rows, windows, discovered, owners, results, chains, n - 1);
    }
  }

  lemma OpeningsFirst(
    rows: seq<Row>, windows: seq<Window>, discovered: seq<nat>, owners: Owners, results: map<Stream, Kept>)
    requires OneToOne(rows, windows, discovered, results, owners) && |discovered| >= 0
    ensures Upto(rows, owners, Clock(|windows|, 0, 0, 0)) == Through(owners, discovered, 0, 0)
  {
    hide OneToOne;
    var a, b := Upto(rows, owners, Clock(|windows|, 0, 0, 0)), Through(owners, discovered, 0, 0);
    forall l ensures (l in a <==> l in b) && (l in a ==> a[l] == b[l]) {
      UptoAll(rows, windows, discovered, owners, results, l);
    }
  }

  lemma AllThrough(owners: Owners, discovered: seq<nat>)
    requires forall l | l in owners && owners[l].Ending? :: owners[l].ended.0 in discovered
    ensures Through(owners, discovered, |discovered|, 0) == owners
  {
    assert discovered[..|discovered|] == discovered;
  }

  /** A log that is accounted for is accepted, with exactly that matching and those results. */
  lemma AccountedIsAccepted(
    rows: seq<Row>, windows: seq<Window>, discovered: seq<nat>, owners: Owners, results: map<Stream, Kept>,
    chains: map<Stream, Chain>)
    requires Distinct(discovered) && AllAccounted(rows, windows, discovered, owners, results, chains)
    ensures Accepted(rows, windows, discovered)
    ensures AllBooks(rows, windows, |windows|).value.results == results
    ensures AllRetired(rows, discovered, AllBooks(rows, windows, |windows|).value, |discovered|).value.owners == owners
  {
    hide AllBooks, AllRetired, Upto, Through, ChainsThrough, Booked, AllEnded, Guarded, Unambiguous, OneToOne;
    BooksFound(rows, windows, discovered, owners, results);
    OpeningsFirst(rows, windows, discovered, owners, results);
    RetiredFound(rows, windows, discovered, owners, results, chains, Books(Through(owners, discovered, 0, 0), results),
      |discovered|);
    EndingsInRange(rows, discovered, owners, results, chains);
    AllThrough(owners, discovered);
    AllOwned(rows, windows, discovered, owners, results);
  }

  lemma AllOwned(
    rows: seq<Row>, windows: seq<Window>, discovered: seq<nat>, owners: Owners, results: map<Stream, Kept>)
    requires OneToOne(rows, windows, discovered, results, owners)
    ensures |owners| == |ClaimableLines(rows)|
  {
    assert |owners| == |owners.Keys|;
  }

  /** Acceptance is the existence of such a matching. */
  lemma AcceptedIffAccounted(rows: seq<Row>, windows: seq<Window>, discovered: seq<nat>)
    requires Distinct(discovered)
    ensures Accepted(rows, windows, discovered) <==>
      exists owners, results, chains :: AllAccounted(rows, windows, discovered, owners, results, chains)
  {
    hide Accepted, AllAccounted;
    if Accepted(rows, windows, discovered) {
      AcceptedIsAccounted(rows, windows, discovered);
      AcceptedHasBooks(rows, windows, discovered);
    }
    forall owners, results, chains | AllAccounted(rows, windows, discovered, owners, results, chains)
      ensures Accepted(rows, windows, discovered)
    {
      AccountedIsAccepted(rows, windows, discovered, owners, results, chains);
    }
  }

  lemma AcceptedHasBooks(rows: seq<Row>, windows: seq<Window>, discovered: seq<nat>)
    requires Accepted(rows, windows, discovered)
    ensures AllBooks(rows, windows, |windows|).Some?
    ensures AllRetired(rows, discovered, AllBooks(rows, windows, |windows|).value, |discovered|).Some?
  {}
}
