/**
 Two logs in which one case window holds two recoveries of the same generation.

 Both are accepted.  They differ only in the order of their retained rows: with the rows of
 the first recovery retained last, each stream is retired with the result of the second
 recovery, although a retained row with another hash comes later.
 */
module UntidyLog {
  import opened Common
  import opened TxAudits
  import opened TxOrder

  // Lines of the duties of phase `p` (1 or 2) and ASE `x` (0 or 1).
  function RegAt(p: nat, x: nat): nat requires p in {1, 2} && x < 2 { 2 * p - 1 + x }
  function ActiveAt(p: nat, x: nat): nat requires p in {1, 2} && x < 2 { 2 * p + 3 + x }
  function RecoveryAt(p: nat): nat requires p in {1, 2} { 8 + p }
  function SentAt(p: nat, x: nat): nat requires p in {1, 2} && x < 2 { 9 + 2 * p + x }
  function KeptAtLine(swapped: bool, p: nat, x: nat): nat requires p in {1, 2} && x < 2 {
    if swapped then 19 - 2 * p + x else 13 + 2 * p + x
  }

  function Hash(p: nat): string { if p == 1 then "00000001" else "00000002" }

  function AuditRow(stage: Stage, x: nat, p: nat, forgetRet: int, resultRet: int): Row {
    Audit(stage, (1, x), Some(p), Some(0), Some(forgetRet), Some(resultRet), Some(30), Some(Hash(p)))
  }

  function RowAt(swapped: bool, i: nat): Row {
    if 1 <= i <= 4 then Registration((1, (i - 1) % 2), Some((i + 1) / 2), Some(0), false)
    else if 5 <= i <= 8 then AuditRow(Active, (i - 5) % 2, (i - 3) / 2, -16, 0)
    else if 9 <= i <= 10 then Recovery(1, i - 8)
    else if 11 <= i <= 14 then Transmit((i - 9) / 2, (i - 11) % 2, true)
    else if 15 <= i <= 16 then AuditRow(Retained, i - 15, if swapped then 2 else 1, 0, 0)
    else if 17 <= i <= 18 then AuditRow(Retained, i - 17, if swapped then 1 else 2, 0, 0)
    else if i == 20 then ControlClose(1, true)
    else if i == 21 || i == 24 then AuditRow(Retire, (i - 21) / 3, 2, 0, 0)
    else if i == 22 || i == 25 then AuditRow(Forget, (i - 22) / 3, 2, 0, 0)
    else if i == 23 || i == 26 then AuditRow(Forgotten, (i - 23) / 3, 2, 0, -61)
    else if i == 27 then Cleanup(1, true)
    else Unrelated
  }

  ghost predicate IsLog(rows: seq<Row>, swapped: bool) {
    |rows| == 28 && forall i | 0 <= i < 28 :: rows[i] == RowAt(swapped, i)
  }

  function Log(swapped: bool): seq<Row> { seq(28, i requires 0 <= i < 28 => RowAt(swapped, i)) }

  lemma LogIsLog(swapped: bool)
    ensures IsLog(Log(swapped), swapped)
  {}

  const Cases := [Window(0, 19, false, 1)]

  lemma RegFound(rows: seq<Row>, swapped: bool, p: nat, x: nat, used: set<nat>)
    requires IsLog(rows, swapped) && p in {1, 2} && x < 2 && RegAt(p, x) !in used
    ensures OneOf(rows, Want(None, (1, x), 0, RecoveryAt(p), Some(p)), used) == Some(RegAt(p, x))
  {
    assert OnlyFit(rows, Want(None, (1, x), 0, RecoveryAt(p), Some(p)), used, RegAt(p, x));
  }

  lemma ActiveFound(rows: seq<Row>, swapped: bool, p: nat, x: nat, used: set<nat>)
    requires IsLog(rows, swapped) && p in {1, 2} && x < 2 && ActiveAt(p, x) !in used
    ensures OneOf(rows, Want(Some(Active), (1, x), RegAt(p, x), RecoveryAt(p), Some(p)), used) == Some(ActiveAt(p, x))
  {
    assert OnlyFit(rows, Want(Some(Active), (1, x), RegAt(p, x), RecoveryAt(p), Some(p)), used, ActiveAt(p, x));
  }

  lemma SentFound(rows: seq<Row>, swapped: bool, p: nat, x: nat)
    requires IsLog(rows, swapped) && p in {1, 2} && x < 2
    ensures SoleOf(rows, 0, 19, Sent(p, x)) == Some(SentAt(p, x))
  {
    assert OnlySuch(rows, 0, 19, Sent(p, x), SentAt(p, x));
  }

  lemma KeptFound(rows: seq<Row>, swapped: bool, p: nat, x: nat, used: set<nat>)
    requires IsLog(rows, swapped) && p in {1, 2} && x < 2 && KeptAtLine(swapped, p, x) !in used
    ensures OneOf(rows, Want(Some(Retained), (1, x), SentAt(p, x), 19, Some(p)), used) ==
      Some(KeptAtLine(swapped, p, x))
  {
    assert OnlyFit(rows, Want(Some(Retained), (1, x), SentAt(p, x), 19, Some(p)), used, KeptAtLine(swapped, p, x));
  }

  lemma RowsAre(rows: seq<Row>, swapped: bool, p: nat, x: nat)
    requires IsLog(rows, swapped) && p in {1, 2} && x < 2
    ensures rows[RegAt(p, x)].Registration? && rows[RegAt(p, x)].ret == Some(0)
    ensures rows[ActiveAt(p, x)].Audit? && rows[ActiveAt(p, x)].forgetRet == Some(-16)
    ensures rows[RecoveryAt(p)] == Recovery(1, p)
    ensures Sound(rows[KeptAtLine(swapped, p, x)], 30) && rows[KeptAtLine(swapped, p, x)].fnv == Some(Hash(p))
  {
    assert Fnv8(Hash(p));
  }

  /** The claims of one ASE. */
  function AfterAse(b: Books, swapped: bool, p: nat, x: nat): Books requires p in {1, 2} && x < 2 {
    Books(b.owners
            [RegAt(p, x) := Recovering(0, RecoveryAt(p), x, Register)]
            [ActiveAt(p, x) := Recovering(0, RecoveryAt(p), x, Guard)]
            [KeptAtLine(swapped, p, x) := Recovering(0, RecoveryAt(p), x, Keep)],
          b.results[(1, x) := Kept(30, Hash(p), KeptAtLine(swapped, p, x))])
  }

  lemma AseAccepted(rows: seq<Row>, swapped: bool, p: nat, x: nat, b: Books)
    requires IsLog(rows, swapped) && p in {1, 2} && x < 2
    requires RegAt(p, x) !in b.owners && ActiveAt(p, x) !in b.owners && KeptAtLine(swapped, p, x) !in b.owners
    ensures rows[RecoveryAt(p)].Recovery?
    ensures AseBooks(rows, Cases, 0, RecoveryAt(p), x, b) == Some(AfterAse(b, swapped, p, x))
  {
    RowsAre(rows, swapped, p, x);
    hide OneOf, SoleOf, OnlyFit, OnlySuch, IsLog, Sound, Hash;
    var b1 := b.owners[RegAt(p, x) := Recovering(0, RecoveryAt(p), x, Register)];
    var b2 := b1[ActiveAt(p, x) := Recovering(0, RecoveryAt(p), x, Guard)];
    RegFound(rows, swapped, p, x, b.owners.Keys);
    ActiveFound(rows, swapped, p, x, b1.Keys);
    SentFound(rows, swapped, p, x);
    KeptFound(rows, swapped, p, x, b2.Keys);
  }

  function Both(b: Books, swapped: bool, p: nat): Books requires p in {1, 2} {
    AfterAse(AfterAse(b, swapped, p, 0), swapped, p, 1)
  }

  lemma RecoveryAccepted(rows: seq<Row>, swapped: bool, p: nat, b: Books)
    requires IsLog(rows, swapped) && p in {1, 2}
    requires forall x: nat | x < 2 ::
      RegAt(p, x) !in b.owners && ActiveAt(p, x) !in b.owners && KeptAtLine(swapped, p, x) !in b.owners
    ensures rows[RecoveryAt(p)].Recovery?
    ensures RecoveryBooks(rows, Cases, 0, RecoveryAt(p), b) == Some(Both(b, swapped, p))
  {
    hide AseBooks, IsLog;
    AseAccepted(rows, swapped, p, 0, b);
    AseAccepted(rows, swapped, p, 1, AfterAse(b, swapped, p, 0));
  }

  function Final(swapped: bool): Books { Both(Both(NoBooks, swapped, 1), swapped, 2) }

  lemma RecoveryRows(rows: seq<Row>, swapped: bool, i: nat)
    requires IsLog(rows, swapped) && i < 28
    ensures rows[i].Recovery? <==> i == RecoveryAt(1) || i == RecoveryAt(2)
  {}

  lemma Claimed(swapped: bool)
    ensures forall p: nat, x: nat | p == 2 && x < 2 ::
      var owners := Both(NoBooks, swapped, 1).owners;
      RegAt(p, x) !in owners && ActiveAt(p, x) !in owners && KeptAtLine(swapped, p, x) !in owners
    ensures Final(swapped).owners.Keys == {1, 2, 3, 4, 5, 6, 7, 8, 15, 16, 17, 18}
  {
    hide Hash;
  }

  lemma {:induction false} RecoveriesAccepted(rows: seq<Row>, swapped: bool, n: nat)
    requires IsLog(rows, swapped) && n <= 28
    ensures RecoveriesBooks(rows, Cases, 0, NoBooks, n) ==
      Some(if n <= 9 then NoBooks else if n == 10 then Both(NoBooks, swapped, 1) else Final(swapped))
  {
    hide RecoveryBooks, RowAt, AfterAse, Both, IsLog;
    LogSize(rows, swapped);
    if n > 0 {
      RecoveriesAccepted(rows, swapped, n - 1);
      RecoveryRows(rows, swapped, n - 1);
      if n == 10 {
        RecoveryAccepted(rows, swapped, 1, NoBooks);
      }
      if n == 11 {
        Claimed(swapped);
        RecoveryAccepted(rows, swapped, 2, Both(NoBooks, swapped, 1));
      }
    }
  }

  lemma LogSize(rows: seq<Row>, swapped: bool)
    requires IsLog(rows, swapped)
    ensures |rows| == 28
  {}

  lemma CaseAccepted(rows: seq<Row>, swapped: bool)
    requires IsLog(rows, swapped)
    ensures AllBooks(rows, Cases, 1) == Some(Final(swapped))
  {
    hide RecoveriesBooks, IsLog, Both;
    LogSize(rows, swapped);
    RecoveriesAccepted(rows, swapped, 28);
    assert AllBooks(rows, Cases, 0) == Some(NoBooks);
  }

  // ---- retirement --------------------------------------------------------

  lemma ClosingFound(rows: seq<Row>, swapped: bool)
    requires IsLog(rows, swapped)
    ensures SoleOf(rows, -1, 28, RetiredBy(1)) == Some(27) && SoleOf(rows, -1, 28, UnsubscribedBy(1)) == Some(20)
  {
    assert OnlySuch(rows, -1, 28, RetiredBy(1), 27);
    assert OnlySuch(rows, -1, 28, UnsubscribedBy(1), 20);
  }

  lemma StageFound(rows: seq<Row>, swapped: bool, stage: Stage, x: nat, low: nat, used: set<nat>, k: nat)
    requires IsLog(rows, swapped) && x < 2 && stage in {Retire, Forget, Forgotten} && low < k && k !in used
    requires k == (if stage == Retire then 21 else if stage == Forget then 22 else 23) + 3 * x
    ensures OneOf(rows, Want(Some(stage), (1, x), low, 27, None), used) == Some(k)
  {
    hide Hash;
    var w := Want(Some(stage), (1, x), low, 27, None);
    forall j | 0 <= j < 28 && Candidate(rows[j], w) ensures j == k {
      EndsAt(rows, swapped, stage, x, j);
    }
    assert OnlyFit(rows, w, used, k);
  }

  /** Where the rows of a stream's end are. */
  lemma EndsAt(rows: seq<Row>, swapped: bool, stage: Stage, x: nat, j: nat)
    requires IsLog(rows, swapped) && x < 2 && stage in {Retire, Forget, Forgotten} && j < 28
    requires rows[j].Audit? && rows[j].stage == stage && rows[j].stream == (1, x)
    ensures j == (if stage == Retire then 21 else if stage == Forget then 22 else 23) + 3 * x
  {
    hide Hash;
  }

  lemma FinalResults(swapped: bool, x: nat)
    requires x < 2
    ensures (1, x) in Final(swapped).results
    ensures Final(swapped).results[(1, x)] == Kept(30, Hash(2), KeptAtLine(swapped, 2, x))
    ensures Final(swapped).results.Keys == {(1, 0), (1, 1)}
  {
    hide Hash;
  }

  lemma EndRows(rows: seq<Row>, swapped: bool, x: nat)
    requires IsLog(rows, swapped) && x < 2
    ensures var r, f, g := rows[21 + 3 * x], rows[22 + 3 * x], rows[23 + 3 * x];
      && r.Audit? && r.resultRet == Some(0) && r.sends == Some(30) && r.fnv == Some(Hash(2))
      && f.Audit? && f.ret == Some(0) && g.Audit? && g.resultRet == Some(-61)
  {
    hide Hash;
  }

  lemma ChainFound(rows: seq<Row>, swapped: bool, x: nat, used: set<nat>)
    requires IsLog(rows, swapped) && x < 2 && forall l | 21 + 3 * x <= l <= 23 + 3 * x :: l !in used
    ensures ChainOf(rows, (1, x), 20, 27, Final(swapped).results, used) ==
      Some(Ended(21 + 3 * x, 22 + 3 * x, 23 + 3 * x))
  {
    LogSize(rows, swapped);
    EndRows(rows, swapped, x);
    hide OneOf, OnlyFit, Hash, Final, IsLog;
    FinalResults(swapped, x);
    var k := 21 + 3 * x;
    StageFound(rows, swapped, Retire, x, 20, used, k);
    StageFound(rows, swapped, Forget, x, k, used + {k}, k + 1);
    StageFound(rows, swapped, Forgotten, x, k + 1, used + {k, k + 1}, k + 2);
  }

  const Lines: set<nat> := {1, 2, 3, 4, 5, 6, 7, 8, 15, 16, 17, 18} + {21, 22, 23} + {24, 25, 26}

  lemma RetirementAccepted(rows: seq<Row>, swapped: bool)
    requires IsLog(rows, swapped)
    ensures var r := AllRetired(rows, [1], Final(swapped), 1); r.Some? && r.value.owners.Keys == Lines
  {
    hide OneOf, SoleOf, ChainOf, Final, OnlySuch, IsLog, WithChain, GenerationRetired;
    LogSize(rows, swapped);
    Claimed(swapped);
    var b := Final(swapped);
    GenerationAccepted(rows, swapped, Retired(b.owners, map[]));
    assert AllRetired(rows, [1], b, 0) == Some(Retired(b.owners, map[]));
  }

  lemma ChainKeys(owners: Owners, s: Stream, r: nat, f: nat, g: nat)
    ensures WithChain(owners, s, Ended(r, f, g)).Keys == owners.Keys + {r, f, g}
  {}

  lemma GenerationAccepted(rows: seq<Row>, swapped: bool, r: Retired)
    requires IsLog(rows, swapped) && forall l | 21 <= l <= 26 :: l !in r.owners
    ensures var r' := GenerationRetired(rows, 1, Final(swapped).results, r);
      r'.Some? && r'.value.owners.Keys == r.owners.Keys + {21, 22, 23} + {24, 25, 26}
  {
    hide OneOf, SoleOf, ChainOf, Final, OnlySuch, IsLog, WithChain;
    LogSize(rows, swapped);
    ClosingFound(rows, swapped);
    ChainFound(rows, swapped, 0, r.owners.Keys);
    ChainKeys(r.owners, (1, 0), 21, 22, 23);
    var first := WithChain(r.owners, (1, 0), Ended(21, 22, 23));
    ChainFound(rows, swapped, 1, first.Keys);
    ChainKeys(first, (1, 1), 24, 25, 26);
  }

  lemma AllRowsClaimed(rows: seq<Row>, swapped: bool)
    requires IsLog(rows, swapped)
    ensures Lines == ClaimableLines(rows)
  {
    hide Hash;
    forall i: nat ensures i in Lines <==> i in ClaimableLines(rows) {
    }
  }

  /** Both logs are accepted, with the results of their second recovery. */
  lemma BothAccepted(rows: seq<Row>, swapped: bool)
    requires IsLog(rows, swapped)
    ensures Accepted(rows, Cases, [1]) && AllBooks(rows, Cases, 1) == Some(Final(swapped))
  {
    hide AllBooks, AllRetired, Final, ClaimableLines, IsLog;
    CaseAccepted(rows, swapped);
    RetirementAccepted(rows, swapped);
    AllRowsClaimed(rows, swapped);
    var r := AllRetired(rows, [1], Final(swapped), 1).value;
    assert |r.owners| == |r.owners.Keys|;
  }

  lemma RetainedRows(rows: seq<Row>, swapped: bool, l: nat)
    requires IsLog(rows, swapped) && l < 28
    ensures Retention(rows[l]) <==> 15 <= l <= 18
    ensures 15 <= l <= 18 ==> rows[l].stream == (1, (l - 15) % 2)
    ensures 17 <= l <= 18 ==> rows[l].fnv == Some(Hash(if swapped then 1 else 2))
  {
    hide Hash;
  }

  /** Accepted, and yet the last retained row of each stream is not the one its retirement repeats. */
  lemma AcceptedThoughUntidy()
    ensures var rows := Log(true);
      && Accepted(rows, Cases, [1]) && Separate(Cases) && !Sequenced(rows, Cases)
      && var results := AllBooks(rows, Cases, 1).value.results;
      forall x: nat | x < 2 ::
        && Overtaken(rows, results, 17 + x) && rows[17 + x].stream == (1, x)
        && rows[17 + x].fnv != Some(results[(1, x)].fnv)
  {
    hide AllBooks, Accepted, Sequenced, Log, Final, IsLog, RowAt, Hash;
    LogIsLog(true);
    var rows := Log(true);
    LogSize(rows, true);
    BothAccepted(rows, true);
    forall x: nat | x < 2
      ensures Overtaken(rows, Final(true).results, 17 + x) && rows[17 + x].stream == (1, x)
      ensures rows[17 + x].fnv != Some(Final(true).results[(1, x)].fnv)
    {
      RowOvertaken(rows, x);
    }
    RowOvertaken(rows, 0);
    AcceptedOrder(rows, Cases, [1]);
  }

  lemma RowOvertaken(rows: seq<Row>, x: nat)
    requires IsLog(rows, true) && x < 2
    ensures Overtaken(rows, Final(true).results, 17 + x) && rows[17 + x].stream == (1, x)
    ensures (1, x) in Final(true).results && rows[17 + x].fnv != Some(Final(true).results[(1, x)].fnv)
  {
    hide Final, RowAt, Hash;
    FinalResults(true, x);
    RetainedRows(rows, true, 17 + x);
    HashesDiffer();
  }

  lemma HashesDiffer()
    ensures Hash(1) != Hash(2)
  {
    assert Hash(1)[7] != Hash(2)[7];
  }

  /** With the retained rows in the order of the recoveries the log is accepted and sequenced. */
  lemma AcceptedInOrder()
    ensures Accepted(Log(false), Cases, [1]) && Sequenced(Log(false), Cases)
  {
    hide AllBooks, Accepted, Sequenced, Log, Final, IsLog, RowAt, Hash;
    LogIsLog(false);
    var rows := Log(false);
    LogSize(rows, false);
    BothAccepted(rows, false);
    AcceptedOrder(rows, Cases, [1]);
    forall l ensures !Overtaken(rows, Final(false).results, l) {
      FinalResults(false, 0);
      FinalResults(false, 1);
      if l < 28 {
        RetainedRows(rows, false, l);
      }
    }
  }
}
