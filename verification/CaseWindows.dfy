/**
 Case windows of a client log and the receiver's diagnostics inside them.

 Events carry the simulated time; `_events` delivers them in time order.  The
 main result is conservation: when both checks accept, the diagnostics in the
 whole receiver log are exactly those that the cases declare.
 */
module CaseWindows {
  import opened Common

  type Diagnostic = (string, string, string)    // severity, module, text

  datatype Entry = Entry(key: Diagnostic, count: nat)

  datatype Case = Case(id: string, generationDelta: int, phaseDelta: int, diagnostics: seq<Entry>)

  datatype Marker =
    | CaseBegin(name: string, step: nat, generation: nat, phase: nat)
    | CaseEnd(name: string, step: nat, generation: nat, phase: nat, flags: seq<nat>)
    | NoMarker

  datatype Event = Event(time: int, marker: Marker, diagnostic: Option<Diagnostic>)

  datatype Window = Window(begin: nat, end: nat)    // positions in the client log

  ghost predicate InTimeOrder(events: seq<Event>) {
    forall i, j | 0 <= i <= j < |events| :: events[i].time <= events[j].time
  }

  // ---- the windows -------------------------------------------------------

  /** The positions of the CASE rows among the first `n` events. */
  function Marks(client: seq<Event>, n: nat): (f: seq<nat>)
    requires n <= |client|
    ensures forall i | 0 <= i < |f| :: f[i] < n && !client[f[i]].marker.NoMarker?
    ensures forall i, j | 0 <= i < j < |f| :: f[i] < f[j]
  {
    if n == 0 then [] else Marks(client, n - 1) + if client[n - 1].marker.NoMarker? then [] else [n - 1]
  }

  function PhaseSum(cases: seq<Case>): int {
    if cases == [] then 0 else PhaseSum(cases[..|cases| - 1]) + cases[|cases| - 1].phaseDelta
  }

  predicate BeginOk(cases: seq<Case>, k: nat, e: Event) {
    e.marker.CaseBegin? && k < |cases| && e.marker.name == cases[k].id && e.marker.step == k + 1
  }

  predicate EndOk(cases: seq<Case>, k: nat, b: Event, e: Event)
    requires BeginOk(cases, k, b)
  {
    && e.marker.CaseEnd? && e.marker.name == cases[k].id && e.marker.step == k + 1 && b.time < e.time
    && e.marker.generation == b.marker.generation + cases[k].generationDelta
    && b.marker.phase == PhaseSum(cases[..k])
    && e.marker.phase == b.marker.phase + cases[k].phaseDelta
    && forall i | 0 <= i < |e.marker.flags| :: e.marker.flags[i] == 1
  }

  ghost predicate PairOk(client: seq<Event>, cases: seq<Case>, f: seq<nat>, k: nat)
    requires 2 * k + 1 < |f| && forall i | 0 <= i < |f| :: f[i] < |client|
  {
    BeginOk(cases, k, client[f[2 * k]]) && EndOk(cases, k, client[f[2 * k]], client[f[2 * k + 1]])
  }

  /** The CASE rows are BEGIN and END of each case of the inventory, in its order, and no others. */
  ghost predicate Arranged(client: seq<Event>, cases: seq<Case>) {
    var f := Marks(client, |client|);
    |f| == 2 * |cases| && forall k | 0 <= k < |cases| :: PairOk(client, cases, f, k)
  }

  lemma {:induction false} MarksPrefix(client: seq<Event>, n: nat, m: nat)
    requires n <= m <= |client|
    ensures |Marks(client, n)| <= |Marks(client, m)| && Marks(client, n) == Marks(client, m)[..|Marks(client, n)|]
  {
    if n < m {
      MarksPrefix(client, n, m - 1);
    }
  }

  lemma MarksStep(client: seq<Event>, n: nat)
    requires n <= |client|
    ensures n == 0 ==> Marks(client, n) == []
    ensures n > 0 ==> Marks(client, n) == Marks(client, n - 1) + if client[n - 1].marker.NoMarker? then [] else [n - 1]
  {
  }

  lemma PairKinds(client: seq<Event>, cases: seq<Case>, f: seq<nat>, k: nat)
    requires 2 * k + 1 < |f| && forall i | 0 <= i < |f| :: f[i] < |client|
    requires PairOk(client, cases, f, k)
    ensures client[f[2 * k]].marker.CaseBegin? && client[f[2 * k + 1]].marker.CaseEnd?
    ensures BeginOk(cases, k, client[f[2 * k]]) && EndOk(cases, k, client[f[2 * k]], client[f[2 * k + 1]])
  {
  }

  /** What the loop knows before event `i`. */
  ghost predicate Tracked(client: seq<Event>, cases: seq<Case>, i: nat, ordered: seq<Window>, pending: Option<nat>) {
    i <= |client| && |ordered| <= |cases| && |Marks(client, i)| >= 2 * |ordered| &&
    var f := Marks(client, i);
    && (forall k | 0 <= k < |ordered| ::
          PairOk(client, cases, f, k) && ordered[k] == Window(f[2 * k], f[2 * k + 1]))
    && match pending
       case None => |f| == 2 * |ordered|
       case Some(b) =>
         |f| == 2 * |ordered| + 1 && |ordered| < |cases| && b == f[2 * |ordered|] &&
           BeginOk(cases, |ordered|, client[b])
  }

  lemma TrackOther(client: seq<Event>, cases: seq<Case>, i: nat, ordered: seq<Window>, pending: Option<nat>)
    requires Tracked(client, cases, i, ordered, pending) && i < |client| && client[i].marker.NoMarker?
    ensures Tracked(client, cases, i + 1, ordered, pending)
  {
    MarksStep(client, i + 1);
  }

  lemma TrackBegin(client: seq<Event>, cases: seq<Case>, i: nat, ordered: seq<Window>)
    requires Tracked(client, cases, i, ordered, None) && i < |client| && |ordered| < |cases|
    requires client[i].marker.CaseBegin? && BeginOk(cases, |ordered|, client[i])
    ensures Tracked(client, cases, i + 1, ordered, Some(i))
  {
    MarksStep(client, i + 1);
    hide Marks, BeginOk, EndOk;
    forall k | 0 <= k < |ordered|
      ensures PairOk(client, cases, Marks(client, i + 1), k)
      ensures ordered[k] == Window(Marks(client, i + 1)[2 * k], Marks(client, i + 1)[2 * k + 1])
    {
      assert PairOk(client, cases, Marks(client, i), k);
    }
  }

  lemma TrackEnd(client: seq<Event>, cases: seq<Case>, i: nat, ordered: seq<Window>, b: nat)
    requires Tracked(client, cases, i, ordered, Some(b)) && i < |client| && client[i].marker.CaseEnd?
    requires EndOk(cases, |ordered|, client[b], client[i])
    ensures Tracked(client, cases, i + 1, ordered + [Window(b, i)], None)
  {
    MarksStep(client, i + 1);
    hide Marks, BeginOk, EndOk;
    forall k | 0 <= k < |ordered|
      ensures PairOk(client, cases, Marks(client, i + 1), k)
      ensures ordered[k] == Window(Marks(client, i + 1)[2 * k], Marks(client, i + 1)[2 * k + 1])
    {
      assert PairOk(client, cases, Marks(client, i), k);
    }
  }

  /** The next CASE row of an arranged log is the one the loop waits for. */
  lemma Awaited(client: seq<Event>, cases: seq<Case>, i: nat, ordered: seq<Window>, pending: Option<nat>)
    requires Tracked(client, cases, i, ordered, pending) && i < |client| && !client[i].marker.NoMarker?
    requires Arranged(client, cases)
    ensures |ordered| < |cases|
    ensures pending.None? ==> client[i].marker.CaseBegin? && BeginOk(cases, |ordered|, client[i])
    ensures pending.Some? ==> client[i].marker.CaseEnd? && EndOk(cases, |ordered|, client[pending.value], client[i])
  {
    MarksStep(client, i + 1);
    MarksPrefix(client, i + 1, |client|);
    PairKinds(client, cases, Marks(client, |client|), |ordered|);
  }

  lemma TrackDone(client: seq<Event>, cases: seq<Case>, ordered: seq<Window>, pending: Option<nat>)
    requires Tracked(client, cases, |client|, ordered, pending)
    ensures Arranged(client, cases) <==> pending.None? && |ordered| == |cases|
  {
  }

  /** `_case_windows` */
  method FindWindows(client: seq<Event>, cases: seq<Case>) returns (r: Option<seq<Window>>)
    ensures r.Some? <==> Arranged(client, cases)
    ensures r.Some? ==> |r.value| == |cases| && forall k | 0 <= k < |cases| ::
      r.value[k] == Window(Marks(client, |client|)[2 * k], Marks(client, |client|)[2 * k + 1])
  {
    var ordered: seq<Window> := [];
    var pending: Option<nat> := None;
    for i := 0 to |client|
      invariant Tracked(client, cases, i, ordered, pending)
    {
      hide Marks, PairOk, Arranged;
      match client[i].marker
      case CaseBegin(name, step, _, _) =>
        if pending.Some? || |ordered| >= |cases|
           || !(name == cases[|ordered|].id && step == |ordered| + 1) {
          if Arranged(client, cases) {
            Awaited(client, cases, i, ordered, pending);
          }
          return None;
        }
        TrackBegin(client, cases, i, ordered);
        pending := Some(i);
      case CaseEnd(name, step, generation, phase, flags) =>
        if pending.None? || !(name == cases[|ordered|].id && step == |ordered| + 1
                              && client[pending.value].time < client[i].time)
           || generation != client[pending.value].marker.generation + cases[|ordered|].generationDelta
           || client[pending.value].marker.phase != PhaseSum(cases[..|ordered|])
           || phase != client[pending.value].marker.phase + cases[|ordered|].phaseDelta
           || exists j :: 0 <= j < |flags| && flags[j] != 1 {
          if Arranged(client, cases) {
            Awaited(client, cases, i, ordered, pending);
          }
          return None;
        }
        TrackEnd(client, cases, i, ordered, pending.value);
        ordered, pending := ordered + [Window(pending.value, i)], None;
      case NoMarker =>
        TrackOther(client, cases, i, ordered, pending);
    }
    TrackDone(client, cases, ordered, pending);
    if pending.Some? || |ordered| != |cases| {
      return None;
    }
    r := Some(ordered);
  }

  /** Windows of an accepted log are ordered and disjoint, in position and in time, and phases telescope. */
  lemma {:induction false} WindowsTelescope(client: seq<Event>, cases: seq<Case>, k: nat)
    requires Arranged(client, cases) && InTimeOrder(client) && k < |cases|
    ensures var f := Marks(client, |client|);
      && f[2 * k] < f[2 * k + 1] && client[f[2 * k]].time < client[f[2 * k + 1]].time
      && client[f[2 * k + 1]].marker.phase == PhaseSum(cases[..k + 1])
      && (k + 1 < |cases| ==>
            && f[2 * k + 1] < f[2 * k + 2] && client[f[2 * k + 1]].time <= client[f[2 * k + 2]].time
            && client[f[2 * k + 2]].marker.phase == client[f[2 * k + 1]].marker.phase)
  {
    var f := Marks(client, |client|);
    assert PairOk(client, cases, f, k);
    assert cases[..k + 1][..k] == cases[..k];
    if k + 1 < |cases| {
      assert PairOk(client, cases, f, k + 1);
    }
  }

  /** The phases of all cases add up to the phase of the last CASE_END. */
  lemma {:induction false} PhasesAddUp(client: seq<Event>, cases: seq<Case>)
    requires Arranged(client, cases) && InTimeOrder(client) && cases != []
    ensures client[Marks(client, |client|)[2 * |cases| - 1]].marker.phase == PhaseSum(cases)
  {
    WindowsTelescope(client, cases, |cases| - 1);
    assert cases[..|cases|] == cases;
  }

  // ---- the diagnostics ---------------------------------------------------

  datatype Span = Span(from: int, to: int)    // simulated time, end excluded

  predicate Within(t: int, s: Span) { s.from <= t < s.to }

  function Count(receiver: seq<Event>, s: Span, x: Diagnostic): nat {
    if receiver == [] then 0
    else
      var last := receiver[|receiver| - 1];
      Count(receiver[..|receiver| - 1], s, x) + if last.diagnostic == Some(x) && Within(last.time, s) then 1 else 0
  }

  /** Occurrences in the whole log. */
  function CountAll(receiver: seq<Event>, x: Diagnostic): nat {
    if receiver == [] then 0
    else CountAll(receiver[..|receiver| - 1], x) + if receiver[|receiver| - 1].diagnostic == Some(x) then 1 else 0
  }

  /** What a case's table means to the checker: the last entry of a key counts. */
  function Expected(entries: seq<Entry>, x: Diagnostic): nat {
    if entries == [] then 0
    else if entries[|entries| - 1].key == x then entries[|entries| - 1].count
    else Expected(entries[..|entries| - 1], x)
  }

  /** What the case declares: all its entries. */
  function Declared(entries: seq<Entry>, x: Diagnostic): nat {
    if entries == [] then 0
    else Declared(entries[..|entries| - 1], x) + if entries[|entries| - 1].key == x
      then entries[|entries| - 1].count else 0
  }

  ghost predicate Templates(entries: seq<Entry>) {
    forall i, j | 0 <= i < j < |entries| :: entries[i].key != entries[j].key
  }

  function Owners(spans: seq<Span>, t: int): nat {
    if spans == [] then 0 else Owners(spans[..|spans| - 1], t) + if Within(t, spans[|spans| - 1]) then 1 else 0
  }

  ghost predicate Diagnosed(receiver: seq<Event>, client: seq<Event>, spans: seq<Span>, cases: seq<Case>)
    requires |spans| == |cases|
  {
    && (forall i | 0 <= i < |client| :: client[i].diagnostic.None?)
    && (forall i | 0 <= i < |receiver| && receiver[i].diagnostic.Some? :: Owners(spans, receiver[i].time) == 1)
    && (forall k, x: Diagnostic | 0 <= k < |cases| :: Count(receiver, spans[k], x) == Expected(cases[k].diagnostics, x))
  }

  function At(m: map<Diagnostic, nat>, x: Diagnostic): nat { if x in m then m[x] else 0 }

  method TallySpan(receiver: seq<Event>, s: Span) returns (m: map<Diagnostic, nat>)
    ensures forall x :: At(m, x) == Count(receiver, s, x)
  {
    m := map[];
    for i := 0 to |receiver|
      invariant forall x :: At(m, x) == Count(receiver[..i], s, x)
    {
      assert receiver[..i + 1][..i] == receiver[..i];
      var e := receiver[i];
      if e.diagnostic.Some? && Within(e.time, s) {
        m := m[e.diagnostic.value := At(m, e.diagnostic.value) + 1];
      }
    }
    assert receiver[..|receiver|] == receiver;
  }

  method TallyCase(entries: seq<Entry>) returns (m: map<Diagnostic, nat>)
    ensures forall x :: At(m, x) == Expected(entries, x)
  {
    m := map[];
    for i := 0 to |entries|
      invariant forall x :: At(m, x) == Expected(entries[..i], x)
    {
      assert entries[..i + 1][..i] == entries[..i];
      m := m[entries[i].key := entries[i].count];
    }
    assert entries[..|entries|] == entries;
  }

  method CountOwners(spans: seq<Span>, t: int) returns (n: nat)
    ensures n == Owners(spans, t)
  {
    n := 0;
    for i := 0 to |spans|
      invariant n == Owners(spans[..i], t)
    {
      assert spans[..i + 1][..i] == spans[..i];
      if Within(t, spans[i]) {
        n := n + 1;
      }
    }
    assert spans[..|spans|] == spans;
  }

  /** `_family_diagnostics` */
  method CheckDiagnostics(
    receiver: seq<Event>, client: seq<Event>, spans: seq<Span>, cases: seq<Case>)
    returns (ok: bool)
    requires |spans| == |cases|
    ensures ok <==> Diagnosed(receiver, client, spans, cases)
  {
    if exists i :: 0 <= i < |client| && client[i].diagnostic.Some? {
      return false;
    }
    for i := 0 to |receiver|
      invariant forall j | 0 <= j < i && receiver[j].diagnostic.Some? :: Owners(spans, receiver[j].time) == 1
    {
      if receiver[i].diagnostic.Some? {
        var n := CountOwners(spans, receiver[i].time);
        if n != 1 {
          return false;
        }
      }
    }
    for k := 0 to |cases|
      invariant forall j, x: Diagnostic | 0 <= j < k ::
        Count(receiver, spans[j], x) == Expected(cases[j].diagnostics, x)
    {
      var actual := TallySpan(receiver, spans[k]);
      var expected := TallyCase(cases[k].diagnostics);
      if exists x :: x in actual.Keys + expected.Keys && At(actual, x) != At(expected, x) {
        ghost var x :| x in actual.Keys + expected.Keys && At(actual, x) != At(expected, x);
        assert Count(receiver, spans[k], x) != Expected(cases[k].diagnostics, x);
        return false;
      }
      forall x: Diagnostic ensures Count(receiver, spans[k], x) == Expected(cases[k].diagnostics, x) {
        assert At(actual, x) == At(expected, x);
      }
    }
    ok := true;
  }

  // ---- conservation ------------------------------------------------------

  function SpanSum(receiver: seq<Event>, spans: seq<Span>, x: Diagnostic): nat {
    if spans == [] then 0
    else SpanSum(receiver, spans[..|spans| - 1], x) + Count(receiver, spans[|spans| - 1], x)
  }

  function DeclaredSum(cases: seq<Case>, x: Diagnostic): nat {
    if cases == [] then 0
    else DeclaredSum(cases[..|cases| - 1], x) + Declared(cases[|cases| - 1].diagnostics, x)
  }

  /** One more event adds to the spans that own its time. */
  lemma {:induction false} SpanSumNext(receiver: seq<Event>, e: Event, spans: seq<Span>, x: Diagnostic)
    ensures SpanSum(receiver + [e], spans, x) ==
      SpanSum(receiver, spans, x) + if e.diagnostic == Some(x) then Owners(spans, e.time) else 0
  {
    if spans != [] {
      SpanSumNext(receiver, e, spans[..|spans| - 1], x);
      assert (receiver + [e])[..|receiver|] == receiver;
    }
  }

  lemma SpanSumEmpty(spans: seq<Span>, x: Diagnostic)
    ensures SpanSum([], spans, x) == 0
  {
  }

  /** When every diagnostic has one owner, nothing is lost or counted twice. */
  lemma {:induction false} SpansPartition(receiver: seq<Event>, spans: seq<Span>, x: Diagnostic)
    requires forall i | 0 <= i < |receiver| && receiver[i].diagnostic.Some? :: Owners(spans, receiver[i].time) == 1
    ensures SpanSum(receiver, spans, x) == CountAll(receiver, x)
  {
    if receiver == [] {
      SpanSumEmpty(spans, x);
    } else {
      var n := |receiver| - 1;
      SpansPartition(receiver[..n], spans, x);
      SpanSumNext(receiver[..n], receiver[n], spans, x);
      assert receiver == receiver[..n] + [receiver[n]];
    }
  }

  lemma ExpectedAbsent(entries: seq<Entry>, x: Diagnostic)
    requires forall i | 0 <= i < |entries| :: entries[i].key != x
    ensures Expected(entries, x) == 0 && Declared(entries, x) == 0
  {
  }

  lemma {:induction false} ExpectedIsDeclared(entries: seq<Entry>, x: Diagnostic)
    requires Templates(entries)
    ensures Expected(entries, x) == Declared(entries, x)
  {
    if entries != [] {
      var n := |entries| - 1;
      ExpectedIsDeclared(entries[..n], x);
      if entries[n].key == x {
        ExpectedAbsent(entries[..n], x);
      }
    }
  }

  /** Declared counts are positive, so the checker reads a table as declared exactly when no key repeats. */
  lemma {:induction false} ExpectedIffTemplates(entries: seq<Entry>)
    requires forall i | 0 <= i < |entries| :: entries[i].count > 0
    ensures Templates(entries) <==> forall x :: Expected(entries, x) == Declared(entries, x)
  {
    if Templates(entries) {
      forall x ensures Expected(entries, x) == Declared(entries, x) {
        ExpectedIsDeclared(entries, x);
      }
    } else {
      var i, j :| 0 <= i < j < |entries| && entries[i].key == entries[j].key;
      RepeatedKey(entries, i, j);
    }
  }

  lemma {:induction false} DeclaredAtLeast(entries: seq<Entry>, i: nat)
    requires i < |entries| && entries[i].count > 0
    ensures Declared(entries, entries[i].key) > 0
  {
    if i < |entries| - 1 {
      DeclaredAtLeast(entries[..|entries| - 1], i);
    }
  }

  /** A repeated key makes the checker expect less than declared. */
  lemma {:induction false} RepeatedKey(entries: seq<Entry>, i: nat, j: nat)
    requires i < j < |entries| && entries[i].key == entries[j].key
    requires forall k | 0 <= k < |entries| :: entries[k].count > 0
    ensures Expected(entries, entries[i].key) < Declared(entries, entries[i].key)
  {
    var n, x := |entries| - 1, entries[i].key;
    if entries[n].key == x {
      assert entries[..n][i] == entries[i];
      DeclaredAtLeast(entries[..n], i);
    } else {
      RepeatedKey(entries[..n], i, j);
    }
  }

  lemma {:induction false} SpansDeclared(receiver: seq<Event>, spans: seq<Span>, cases: seq<Case>, x: Diagnostic)
    requires |spans| == |cases|
    requires forall k | 0 <= k < |cases| :: Templates(cases[k].diagnostics)
    requires forall k | 0 <= k < |cases| :: Count(receiver, spans[k], x) == Expected(cases[k].diagnostics, x)
    ensures SpanSum(receiver, spans, x) == DeclaredSum(cases, x)
  {
    if cases != [] {
      var n := |cases| - 1;
      SpansDeclared(receiver, spans[..n], cases[..n], x);
      ExpectedIsDeclared(cases[n].diagnostics, x);
    }
  }

  /** The diagnostics of the whole receiver log are exactly those that the cases declare. */
  lemma {:induction false} DiagnosticsConserved(
    receiver: seq<Event>, client: seq<Event>, spans: seq<Span>, cases: seq<Case>, x: Diagnostic)
    requires |spans| == |cases| && Diagnosed(receiver, client, spans, cases)
    requires forall k | 0 <= k < |cases| :: Templates(cases[k].diagnostics)
    ensures CountAll(receiver, x) == DeclaredSum(cases, x)
  {
    SpansPartition(receiver, spans, x);
    SpansDeclared(receiver, spans, cases, x);
  }

  function SpansOf(client: seq<Event>, ws: seq<Window>): seq<Span>
    requires forall i | 0 <= i < |ws| :: ws[i].begin < |client| && ws[i].end < |client|
  {
    seq(|ws|, i requires 0 <= i < |ws| => Span(client[ws[i].begin].time, client[ws[i].end].time))
  }

  /** Windows of an accepted log own a moment at most once, so a stray diagnostic is one outside every case. */
  lemma WindowsOwnOnce(client: seq<Event>, cases: seq<Case>, ws: seq<Window>, t: int)
    requires Arranged(client, cases) && InTimeOrder(client) && |ws| == |cases|
    requires forall k | 0 <= k < |cases| ::
      ws[k] == Window(Marks(client, |client|)[2 * k], Marks(client, |client|)[2 * k + 1])
    ensures Owners(SpansOf(client, ws), t) <= 1
  {
    DisjointOwners(SpansOf(client, ws), t);
  }

  lemma {:induction false} DisjointOwners(spans: seq<Span>, t: int)
    requires forall i, j | 0 <= i < j < |spans| :: spans[i].to <= spans[j].from
    ensures Owners(spans, t) <= 1
  {
    if spans != [] {
      var n := |spans| - 1;
      if Within(t, spans[n]) {
        NoOwners(spans[..n], t);
      } else {
        DisjointOwners(spans[..n], t);
      }
    }
  }

  lemma NoOwners(spans: seq<Span>, t: int)
    requires forall i | 0 <= i < |spans| :: spans[i].to <= t
    ensures Owners(spans, t) == 0
  {
  }

  // ---- what acceptance means, moment by moment ----------------------------

  /** The spans of the cases, by the positions of their rows. */
  ghost function CaseSpans(client: seq<Event>, cases: seq<Case>): seq<Span> requires Arranged(client, cases) {
    var f := Marks(client, |client|);
    seq(|cases|, k requires 0 <= k < |cases| => Span(client[f[2 * k]].time, client[f[2 * k + 1]].time))
  }

  /** The moment lies in the k-th case: not before its CASE_BEGIN, and before its CASE_END. */
  ghost predicate InCase(client: seq<Event>, cases: seq<Case>, k: nat, t: int)
    requires Arranged(client, cases) && k < |cases|
  {
    var f := Marks(client, |client|);
    client[f[2 * k]].time <= t && t < client[f[2 * k + 1]].time
  }

  /** The positions of this diagnostic within the k-th case. */
  ghost function Occurrences(
    receiver: seq<Event>, client: seq<Event>, cases: seq<Case>, k: nat, x: Diagnostic): set<nat>
    requires Arranged(client, cases) && k < |cases|
  {
    set i: nat | i < |receiver| && receiver[i].diagnostic == Some(x) && InCase(client, cases, k, receiver[i].time)
  }

  ghost predicate Somewhere(client: seq<Event>, cases: seq<Case>, t: int) requires Arranged(client, cases) {
    exists k: nat :: k < |cases| && InCase(client, cases, k, t)
  }

  /** No diagnostic at the client, none of the receiver outside the cases, and in each case as often as expected. */
  ghost predicate Clean(receiver: seq<Event>, client: seq<Event>, cases: seq<Case>) requires Arranged(client, cases) {
    && (forall i | 0 <= i < |client| :: client[i].diagnostic.None?)
    && (forall i | 0 <= i < |receiver| && receiver[i].diagnostic.Some? :: Somewhere(client, cases, receiver[i].time))
    && forall k: nat, x: Diagnostic | k < |cases| ::
         |Occurrences(receiver, client, cases, k, x)| == Expected(cases[k].diagnostics, x)
  }

  lemma {:induction false} CountMeans(receiver: seq<Event>, s: Span, x: Diagnostic)
    ensures Count(receiver, s, x) == |Inside(receiver, s, x)|
  {
    if receiver == [] {
      assert Inside(receiver, s, x) == {};
    } else {
      var n := |receiver| - 1;
      CountMeans(receiver[..n], s, x);
      InsideSnoc(receiver, s, x);
    }
  }

  /** The positions of this diagnostic within the span. */
  ghost function Inside(receiver: seq<Event>, s: Span, x: Diagnostic): set<nat> {
    set i: nat |
      i < |receiver| && receiver[i].diagnostic == Some(x) && s.from <= receiver[i].time && receiver[i].time < s.to
  }

  lemma InsideSnoc(receiver: seq<Event>, s: Span, x: Diagnostic)
    requires receiver != []
    ensures var n := |receiver| - 1;
      |Inside(receiver, s, x)| ==
      |Inside(receiver[..n], s, x)| +
        if receiver[n].diagnostic == Some(x) && s.from <= receiver[n].time < s.to then 1 else 0
  {
    var n := |receiver| - 1;
    var here := receiver[n].diagnostic == Some(x) && s.from <= receiver[n].time < s.to;
    assert Inside(receiver, s, x) == Inside(receiver[..n], s, x) + if here then {n} else {};
  }

  lemma {:induction false} OwnersSome(spans: seq<Span>, t: int)
    ensures Owners(spans, t) > 0 <==> exists k :: 0 <= k < |spans| && Within(t, spans[k])
  {
    if spans != [] {
      var n := |spans| - 1;
      OwnersSome(spans[..n], t);
      assert forall k | 0 <= k < n :: spans[..n][k] == spans[k];
    }
  }

  lemma SpanIsCase(client: seq<Event>, cases: seq<Case>, k: nat, t: int)
    requires Arranged(client, cases) && k < |cases|
    ensures Within(t, CaseSpans(client, cases)[k]) <==> InCase(client, cases, k, t)
  {
  }

  lemma CaseWindow(client: seq<Event>, cases: seq<Case>, t: int)
    requires Arranged(client, cases) && InTimeOrder(client)
    ensures Owners(CaseSpans(client, cases), t) <= 1
    ensures Owners(CaseSpans(client, cases), t) == 1 <==> Somewhere(client, cases, t)
  {
    var spans := CaseSpans(client, cases);
    forall i, j | 0 <= i < j < |spans| ensures spans[i].to <= spans[j].from {
      assert PairOk(client, cases, Marks(client, |client|), i) && PairOk(client, cases, Marks(client, |client|), j);
    }
    DisjointOwners(spans, t);
    OwnersSome(spans, t);
    hide Arranged, Within, InCase, CaseSpans, Owners;
    forall k: nat | k < |cases| ensures Within(t, CaseSpans(client, cases)[k]) <==> InCase(client, cases, k, t) {
      SpanIsCase(client, cases, k, t);
    }
  }

  lemma CaseCount(receiver: seq<Event>, client: seq<Event>, cases: seq<Case>, k: nat, x: Diagnostic)
    requires Arranged(client, cases) && k < |cases|
    ensures Count(receiver, CaseSpans(client, cases)[k], x) == |Occurrences(receiver, client, cases, k, x)|
  {
    var s := CaseSpans(client, cases)[k];
    CountMeans(receiver, s, x);
    assert Occurrences(receiver, client, cases, k, x) == Inside(receiver, s, x);
  }

  /** In a client log in time order, the loops ask exactly for this. */
  lemma DiagnosedMeans(receiver: seq<Event>, client: seq<Event>, cases: seq<Case>)
    requires Arranged(client, cases) && InTimeOrder(client)
    ensures Diagnosed(receiver, client, CaseSpans(client, cases), cases) <==> Clean(receiver, client, cases)
  {
    hide Arranged, InTimeOrder, Owners, Count, Occurrences, Somewhere, Expected;
    forall i | 0 <= i < |receiver|
      ensures Owners(CaseSpans(client, cases), receiver[i].time) == 1 <==> Somewhere(client, cases, receiver[i].time)
    {
      CaseWindow(client, cases, receiver[i].time);
    }
    forall k: nat, x: Diagnostic | k < |cases|
      ensures Count(receiver, CaseSpans(client, cases)[k], x) == |Occurrences(receiver, client, cases, k, x)|
    {
      CaseCount(receiver, client, cases, k, x);
    }
  }

  lemma WindowSpans(client: seq<Event>, cases: seq<Case>, ws: seq<Window>)
    requires Arranged(client, cases) && |ws| == |cases|
    requires forall k | 0 <= k < |cases| ::
      ws[k] == Window(Marks(client, |client|)[2 * k], Marks(client, |client|)[2 * k + 1])
    ensures forall k | 0 <= k < |ws| :: ws[k].begin < |client| && ws[k].end < |client|
    ensures SpansOf(client, ws) == CaseSpans(client, cases)
  {
  }

  /** The two checks in their order; an accepted log pair conserves its diagnostics. */
  method CheckFamily(receiver: seq<Event>, client: seq<Event>, cases: seq<Case>) returns (ok: bool)
    ensures ok <==> Arranged(client, cases) && Diagnosed(receiver, client, CaseSpans(client, cases), cases)
    ensures InTimeOrder(client) ==> (ok <==> Arranged(client, cases) && Clean(receiver, client, cases))
    ensures ok && (forall k | 0 <= k < |cases| :: Templates(cases[k].diagnostics)) ==>
      forall x :: CountAll(receiver, x) == DeclaredSum(cases, x)
  {
    hide Arranged, Diagnosed, Clean, CountAll, DeclaredSum, Templates, InTimeOrder;
    var ws := FindWindows(client, cases);
    if ws.None? {
      return false;
    }
    WindowSpans(client, cases, ws.value);
    var spans := SpansOf(client, ws.value);
    ok := CheckDiagnostics(receiver, client, spans, cases);
    if InTimeOrder(client) {
      DiagnosedMeans(receiver, client, cases);
    }
    if ok && forall k | 0 <= k < |cases| :: Templates(cases[k].diagnostics) {
      forall x ensures CountAll(receiver, x) == DeclaredSum(cases, x) {
        DiagnosticsConserved(receiver, client, spans, cases, x);
      }
    }
  }
}
