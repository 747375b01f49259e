/**
 The Linux subreaper that ends every process it adopted.

 The process table is the adversary.  Between any two system calls of the scope
 an arbitrary finite list of actions runs: processes fork (also on a PID freed a
 moment ago), exit, vanish, change parent, time passes and the scope itself may
 be cancelled.  What the adversary does before the n-th call, what a directory
 listing shows and which calls fail are fields of an `Environment`, so a
 contract proved for every environment holds for every interleaving.
 */
module Descendants {
  import opened Common

  type Pid = int
  type Key = (Pid, int)   // a PID and the birth tick read from its stat line

  const SIGTERM := 15
  const SIGKILL := 9
  const GRACE := 2000       // milliseconds between TERM and KILL
  const CLEANUP := 8000
  const PAUSE := 20

  datatype Process = Process(parent: Pid, birth: int, defunct: bool)

  /** A signal that reached the process instance with this PID and birth tick at this time. */
  datatype Delivery = Delivery(instance: Key, signum: int, at: int)

  /**
   `table` holds the processes that currently own a PID; `born` remembers every
   instance that ever lived.  An instance is named by its PID and birth tick:
   the one assumption about the kernel is that no two instances share both.
   */
  datatype Kernel = Kernel(
    table: map<Pid, Process>,
    born: set<Key>,
    now: int,
    cancelled: Option<int>,
    delivered: seq<Delivery>)
  {
    predicate Lives(instance: Key) {
      instance.0 in table && table[instance.0].birth == instance.1
    }
  }

  datatype Action =
    | Fork(pid: Pid, parent: Pid, birth: int)
    | Die(pid: Pid)
    | Vanish(pid: Pid)
    | Reparent(pid: Pid, parent: Pid)
    | Tick(elapsed: nat)
    | Cancel(signum: int)

  /** The adversary: what it does, shows and refuses at the n-th system call. */
  datatype Environment = Environment(
    acts: nat -> seq<Action>,
    listing: nat -> seq<Pid>,
    fails: nat -> bool,
    status: nat -> int,
    flagRead: nat -> int)

  ghost predicate Consistent(k: Kernel) {
    forall p | p in k.table :: (p, k.table[p].birth) in k.born
  }

  /** A fork that would break the assumption has no effect. */
  function Act(k: Kernel, a: Action): (k': Kernel)
    requires Consistent(k)
    ensures Consistent(k') && Evolves(k, k')
  {
    match a
    case Fork(p, parent, birth) =>
      if p in k.table || (p, birth) in k.born then k
      else k.(table := k.table[p := Process(parent, birth, false)], born := k.born + {(p, birth)})
    case Die(p) =>
      if p in k.table then k.(table := k.table[p := k.table[p].(defunct := true)]) else k
    case Vanish(p) => k.(table := k.table - {p})
    case Reparent(p, parent) =>
      if p in k.table then k.(table := k.table[p := k.table[p].(parent := parent)]) else k
    case Tick(d) => k.(now := k.now + d)
    case Cancel(signum) => if k.cancelled.None? then k.(cancelled := Some(signum)) else k
  }

  function Perturb(k: Kernel, acts: seq<Action>): (k': Kernel)
    requires Consistent(k)
    ensures Consistent(k') && Evolves(k, k')
    decreases |acts|
  {
    if acts == [] then k else Perturb(Act(k, acts[0]), acts[1..])
  }

  /**
   What no interleaving can undo: time does not go back, instances are never
   forgotten, and an instance born before `k` that lives at `k'` lived at `k`.
   */
  ghost predicate Evolves(k: Kernel, k': Kernel) {
    && k.now <= k'.now
    && k.born <= k'.born
    && k'.delivered == k.delivered
    && (k.cancelled.Some? ==> k'.cancelled == k.cancelled)
    && (forall x | x in k.born && k'.Lives(x) :: k.Lives(x))
  }

  /** The part of `Evolves` that a delivery keeps too. */
  ghost predicate Remembers(k: Kernel, k': Kernel) {
    k.now <= k'.now && k.born <= k'.born
  }

  lemma EvolvesOn(a: Kernel, b: Kernel, c: Kernel)
    requires Evolves(a, b) && Evolves(b, c)
    ensures Evolves(a, c)
  {
  }

  lemma EvolvesGives(a: Kernel, b: Kernel)
    requires Evolves(a, b)
    ensures Remembers(a, b) && a.delivered == b.delivered
  {
  }

  /** The kernel after `m` more system calls, the first being the n-th. */
  ghost function KernelAfter(k: Kernel, env: Environment, n: nat, m: nat): (k': Kernel)
    requires Consistent(k)
    ensures Consistent(k') && Evolves(k, k')
    decreases m
  {
    if m == 0 then k
    else
      var before := KernelAfter(k, env, n, m - 1);
      EvolvesOn(k, before, Perturb(before, env.acts(n + m - 1)));
      Perturb(before, env.acts(n + m - 1))
  }

  lemma KernelAfterNone(k: Kernel, env: Environment, n: nat)
    requires Consistent(k)
    ensures KernelAfter(k, env, n, 0) == k
  {
  }

  lemma {:induction false} KernelAfterJoins(k: Kernel, env: Environment, n: nat, m: nat, j: nat)
    requires Consistent(k)
    ensures KernelAfter(KernelAfter(k, env, n, m), env, n + m, j) == KernelAfter(k, env, n, m + j)
  {
    hide Consistent, Evolves;
    if j > 0 {
      KernelAfterJoins(k, env, n, m, j - 1);
    }
  }

  /** What the stat line of a PID shows at a call. */
  function Shown(k: Kernel, env: Environment, n: nat, pid: Pid): Option<Process> {
    if pid in k.table && !env.fails(n) then Some(k.table[pid]) else None
  }

  lemma ShownIsBorn(k: Kernel, env: Environment, n: nat, pid: Pid)
    requires Consistent(k)
    ensures Shown(k, env, n, pid).Some? ==> (pid, Shown(k, env, n, pid).value.birth) in k.born
  {
  }

  /** The entries of a directory listing whose stat lines, read one after the other, name the owner as parent. */
  ghost function ScanOf(env: Environment, k: Kernel, n: nat, names: seq<Pid>, owner: Pid): seq<Child>
    requires Consistent(k)
  {
    if names == [] then []
    else
      var last := |names| - 1;
      var state := Shown(KernelAfter(k, env, n, last + 1), env, n + last + 1, names[last]);
      ScanOf(env, k, n, names[..last], owner) +
        if state.Some? && state.value.parent == owner then [Child(names[last], state.value)] else []
  }

  /** A successful scan and the times between which it ran. */
  datatype Scan = Scan(from: int, at: int, children: seq<Child>)

  /** The signal gets through: the instance owns the PID when opened and when checked, and lives when sent to. */
  ghost predicate Reached(env: Environment, k: Kernel, n: nat, owner: Pid, key: Key) requires Consistent(k) {
    Identified(env, k, n, owner, key) && KernelAfter(k, env, n, 3).Lives(key) && !env.fails(n + 3)
  }

  /** The descriptor is opened, and the stat line read afterwards still shows the scanned child. */
  ghost predicate Identified(env: Environment, k: Kernel, n: nat, owner: Pid, key: Key) requires Consistent(k) {
    var k1, k2 := KernelAfter(k, env, n, 1), KernelAfter(k, env, n, 2);
    && key.0 in k1.table && !env.fails(n + 1)
    && key.0 in k2.table && !env.fails(n + 2) && k2.table[key.0].parent == owner && k2.table[key.0].birth == key.1
  }

  /** The opening, or the signal to a live child, is refused for another reason than its absence. */
  ghost predicate Hindered(env: Environment, k: Kernel, n: nat, owner: Pid, key: Key) requires Consistent(k) {
    || (key.0 in KernelAfter(k, env, n, 1).table && env.fails(n + 1))
    || (Identified(env, k, n, owner, key) && KernelAfter(k, env, n, 3).Lives(key) && env.fails(n + 3))
  }

  /** Waiting finds no such child of the owner, yet afterwards the scanned one is, and lives. */
  ghost predicate Unreapable(env: Environment, k: Kernel, n: nat, owner: Pid, key: Key) requires Consistent(k) {
    var k1, k4 := KernelAfter(k, env, n, 1), KernelAfter(k, env, n, 4);
    && !(key.0 in k1.table && k1.table[key.0].parent == owner)
    && Identified(env, k1, n + 1, owner, key)
    && k4.Lives(key) && !k4.table[key.0].defunct
  }

  /** Some call after the lo-th up to the hi-th was refused. */
  ghost predicate Refused(env: Environment, lo: nat, hi: nat) {
    exists n | lo < n <= hi :: env.fails(n)
  }

  lemma RefusedNow(env: Environment, lo: nat, n: nat, hi: nat)
    requires lo < n <= hi && env.fails(n)
    ensures Refused(env, lo, hi)
  {
  }

  lemma RefusedWidens(env: Environment, lo: nat, hi: nat, lo': nat, hi': nat)
    requires lo' <= lo && hi <= hi'
    ensures Refused(env, lo, hi) ==> Refused(env, lo', hi')
  {
  }

  /**
   Why the descriptor is opened before the identity is checked: if the scanned
   instance still owns the PID after the opening, then it is the instance that
   the descriptor refers to, whatever happened in between.
   */
  lemma OpenedBeforeChecked(k0: Kernel, k1: Kernel, k2: Kernel, pid: Pid, start: int)
    requires Evolves(k0, k1) && Evolves(k1, k2)
    requires (pid, start) in k0.born
    requires pid in k2.table && k2.table[pid].birth == start
    ensures pid in k1.table && k1.table[pid].birth == start
  {
    assert k2.Lives((pid, start));
    assert k1.Lives((pid, start));
  }

  /** The other order does not work: the PID may change hands after the check. */
  lemma CheckedBeforeOpenedIsUnsafe()
    ensures exists k0: Kernel, k1: Kernel ::
      Consistent(k0) && Evolves(k0, k1) && k0.Lives((7, 100)) && 7 in k1.table && !k1.Lives((7, 100))
  {
    var k0 := Kernel(map[7 := Process(1, 100, false)], {(7, 100)}, 0, None, []);
    var gone := Act(k0, Vanish(7));
    var k1 := Act(gone, Fork(7, 1, 200));
    assert Evolves(k0, k1);
    assert k0.Lives((7, 100)) && !k1.Lives((7, 100));
  }

  datatype Child = Child(pid: Pid, state: Process)
  datatype Adoption = Adoption(pid: Pid, parent: Pid, start: int)
  datatype Deed = Signalled(target: Key, signum: int) | Reaped(child: Key, status: int)
  datatype Attempt = Attempt(key: Key, signum: int, at: int)
  datatype Fault = NoSuchProcess | OsFailure
  datatype Observed = Opened(instance: Key) | NotOurs | Raised(fault: Fault)

  /** The signals among the recorded actions, in order. */
  function SignalsOf(deeds: seq<Deed>): seq<(Key, int)> {
    if deeds == [] then []
    else
      var last := deeds[|deeds| - 1];
      SignalsOf(deeds[..|deeds| - 1]) + if last.Signalled? then [(last.target, last.signum)] else []
  }

  lemma SignalsOfAppend(deeds: seq<Deed>, d: Deed)
    ensures SignalsOf(deeds + [d]) == SignalsOf(deeds) + if d.Signalled? then [(d.target, d.signum)] else []
  {
    assert (deeds + [d])[..|deeds|] == deeds;
  }

  /** Who was sent what, without the time. */
  function Untimed(delivered: seq<Delivery>): seq<(Key, int)> {
    seq(|delivered|, i requires 0 <= i < |delivered| => (delivered[i].instance, delivered[i].signum))
  }

  lemma UntimedAppend(delivered: seq<Delivery>, d: Delivery)
    ensures Untimed(delivered + [d]) == Untimed(delivered) + [(d.instance, d.signum)]
  {}

  /** TERM and KILL at most once per process, KILL only `GRACE` after its TERM. */
  ghost predicate Disciplined(tries: seq<Attempt>) {
    && (forall i, j | 0 <= i < j < |tries| ::
          !(tries[i].key == tries[j].key && tries[i].signum == tries[j].signum))
    && (forall i | 0 <= i < |tries| :: tries[i].signum == SIGTERM || tries[i].signum == SIGKILL)
    && (forall i | 0 <= i < |tries| && tries[i].signum == SIGKILL :: TermBy(tries, tries[i].key, tries[i].at - GRACE))
  }

  ghost predicate TermBy(tries: seq<Attempt>, key: Key, at: int) {
    exists j :: 0 <= j < |tries| && tries[j].key == key && tries[j].signum == SIGTERM && tries[j].at <= at
  }

  /** The scope's own bookkeeping agrees with the log of its attempts. */
  ghost predicate Ledger(tries: seq<Attempt>, termSent: set<Key>, killSent: set<Key>, termAt: map<Key, int>) {
    && Disciplined(tries)
    && (forall i | 0 <= i < |tries| :: tries[i].key in if tries[i].signum == SIGTERM then termSent else killSent)
    && termSent <= termAt.Keys
    && (forall key | key in termAt :: TermBy(tries, key, termAt[key]))
  }

  lemma TermByGrows(tries: seq<Attempt>, t: Attempt, key: Key, at: int)
    requires TermBy(tries, key, at)
    ensures TermBy(tries + [t], key, at)
  {
    var j :| 0 <= j < |tries| && tries[j].key == key && tries[j].signum == SIGTERM && tries[j].at <= at;
    assert (tries + [t])[j] == tries[j];
  }

  lemma DisciplinedGrows(tries: seq<Attempt>, t: Attempt)
    requires Disciplined(tries)
    requires t.signum == SIGTERM || (t.signum == SIGKILL && TermBy(tries, t.key, t.at - GRACE))
    requires forall i | 0 <= i < |tries| :: tries[i].key != t.key || tries[i].signum != t.signum
    ensures Disciplined(tries + [t])
  {
    forall i | 0 <= i < |tries + [t]| && (tries + [t])[i].signum == SIGKILL
      ensures TermBy(tries + [t], (tries + [t])[i].key, (tries + [t])[i].at - GRACE)
    {
      TermByGrows(tries, t, (tries + [t])[i].key, (tries + [t])[i].at - GRACE);
    }
  }

  lemma LedgerTerm(tries: seq<Attempt>, termSent: set<Key>, killSent: set<Key>, termAt: map<Key, int>,
                   key: Key, sent: int, at: int)
    requires Ledger(tries, termSent, killSent, termAt) && key !in termSent && sent <= at
    ensures Ledger(tries + [Attempt(key, SIGTERM, sent)], termSent + {key}, killSent, termAt[key := at])
  {
    var t := Attempt(key, SIGTERM, sent);
    DisciplinedGrows(tries, t);
    assert (tries + [t])[|tries|] == t;
    forall k | k in termAt && k != key ensures TermBy(tries + [t], k, termAt[k]) {
      TermByGrows(tries, t, k, termAt[k]);
    }
  }

  lemma LedgerKill(
    tries: seq<Attempt>, termSent: set<Key>, killSent: set<Key>, termAt: map<Key, int>, key: Key, sent: int)
    requires Ledger(tries, termSent, killSent, termAt) && key in termAt && key !in killSent
    requires sent - termAt[key] >= GRACE
    ensures Ledger(tries + [Attempt(key, SIGKILL, sent)], termSent, killSent + {key}, termAt)
  {
    var t := Attempt(key, SIGKILL, sent);
    DisciplinedGrows(tries, t) by {
      var j :| 0 <= j < |tries| && tries[j].key == key && tries[j].signum == SIGTERM && tries[j].at <= termAt[key];
      assert TermBy(tries, key, sent - GRACE);
    }
    forall k | k in termAt ensures TermBy(tries + [t], k, termAt[k]) {
      TermByGrows(tries, t, k, termAt[k]);
    }
  }

  function Entry(a: Adoption): Key { (a.pid, a.start) }

  function Roster(adopted: seq<Adoption>): set<Key> { set a | a in adopted :: Entry(a) }

  ghost predicate Enlisted(tries: seq<Attempt>, roster: set<Key>) {
    forall i | 0 <= i < |tries| :: tries[i].key in roster
  }

  lemma NobodyAdopted()
    ensures Roster([]) == {}
  {
  }

  lemma LedgerStart(roster: set<Key>)
    ensures Ledger([], {}, {}, map[]) && Distinct([]) && Enlisted([], roster) && Timely([], map[])
  {
  }

  lemma EnlistedGrows(tries: seq<Attempt>, t: Attempt, roster: set<Key>)
    requires Enlisted(tries, roster) && t.key in roster
    ensures Enlisted(tries + [t], roster)
  {
  }

  lemma RosterGrows(adopted: seq<Adoption>, a: Adoption)
    ensures Roster(adopted + [a]) == Roster(adopted) + {Entry(a)}
    ensures Entry(a) !in Roster(adopted) && Distinct(adopted) ==> Distinct(adopted + [a])
    ensures forall tries | Enlisted(tries, Roster(adopted)) :: Enlisted(tries, Roster(adopted + [a]))
  {
    assert forall x :: x in adopted + [a] <==> x in adopted || x == a;
    assert forall i | 0 <= i < |adopted| :: Entry(adopted[i]) in Roster(adopted);
  }

  /** No process is listed twice. */
  ghost predicate Distinct(adopted: seq<Adoption>) {
    forall i, j | 0 <= i < j < |adopted| :: Entry(adopted[i]) != Entry(adopted[j])
  }

  /** A TERM is delivered before its time is noted, a KILL not before the grace after that. */
  ghost predicate Timely(delivered: seq<Delivery>, termAt: map<Key, int>) {
    forall i | 0 <= i < |delivered| ::
      && delivered[i].instance in termAt
      && (delivered[i].signum == SIGTERM ==> delivered[i].at <= termAt[delivered[i].instance])
      && (delivered[i].signum == SIGKILL ==> delivered[i].at >= termAt[delivered[i].instance] + GRACE)
  }

  /** Between a TERM and a KILL that reached the same process lies the grace. */
  ghost predicate GraceKept(delivered: seq<Delivery>) {
    forall i, j | 0 <= i < |delivered| && 0 <= j < |delivered| && delivered[i].instance == delivered[j].instance &&
                  delivered[i].signum == SIGTERM && delivered[j].signum == SIGKILL ::
      delivered[j].at - delivered[i].at >= GRACE
  }

  lemma TimelyKeepsGrace(delivered: seq<Delivery>, termAt: map<Key, int>)
    requires Timely(delivered, termAt)
    ensures GraceKept(delivered)
  {}

  /** The first signal to a process, whose time is noted afterwards. */
  lemma TimelyTerm(before: seq<Delivery>, after: seq<Delivery>, termAt: map<Key, int>, key: Key, at: int)
    requires Timely(before, termAt) && key !in termAt
    requires after == before || exists t :: t <= at && after == before + [Delivery(key, SIGTERM, t)]
    ensures Timely(after, termAt[key := at])
  {}

  lemma TimelyKill(before: seq<Delivery>, after: seq<Delivery>, termAt: map<Key, int>, key: Key)
    requires Timely(before, termAt) && key in termAt
    requires after == before || exists t :: t >= termAt[key] + GRACE && after == before + [Delivery(key, SIGKILL, t)]
    ensures Timely(after, termAt)
  {}

  /** A process whose TERM time is noted has been tried. */
  lemma NotedIsSent(tries: seq<Attempt>, termSent: set<Key>, killSent: set<Key>, termAt: map<Key, int>, key: Key)
    requires Ledger(tries, termSent, killSent, termAt) && key in termAt
    ensures key in termSent
  {
    var j :| 0 <= j < |tries| && tries[j].key == key && tries[j].signum == SIGTERM && tries[j].at <= termAt[key];
  }

  /** What was delivered is what is on record, and only to instances scanned as direct children. */
  ghost predicate Accounted(delivered: seq<Delivery>, sighted: set<Key>, deeds: seq<Deed>) {
    && SignalsOf(deeds) == Untimed(delivered)
    && (forall d | d in delivered :: d.instance in sighted)
  }

  /** One more delivery, recorded. */
  lemma AccountedNext(delivered: seq<Delivery>, sighted: set<Key>, deeds: seq<Deed>, d: Delivery)
    requires Accounted(delivered, sighted, deeds) && d.instance in sighted
    ensures Accounted(delivered + [d], sighted, deeds + [Signalled(d.instance, d.signum)])
  {
    SignalsOfAppend(deeds, Signalled(d.instance, d.signum));
    UntimedAppend(delivered, d);
  }

  lemma AccountedMore(delivered: seq<Delivery>, sighted: set<Key>, deeds: seq<Deed>, key: Key)
    requires Accounted(delivered, sighted, deeds)
    ensures Accounted(delivered, sighted + {key}, deeds)
  {
  }

  lemma AccountedReap(delivered: seq<Delivery>, sighted: set<Key>, deeds: seq<Deed>, child: Key, status: int)
    requires Accounted(delivered, sighted, deeds)
    ensures Accounted(delivered, sighted, deeds + [Reaped(child, status)])
  {
    SignalsOfAppend(deeds, Reaped(child, status));
  }

  lemma ScanNext(env: Environment, k: Kernel, n: nat, names: seq<Pid>, owner: Pid, i: nat)
    requires Consistent(k)
    ensures ScanOf(env, k, n, names[..0], owner) == []
    ensures i < |names| ==>
      var state := Shown(KernelAfter(k, env, n, i + 1), env, n + i + 1, names[i]);
      ScanOf(env, k, n, names[..i + 1], owner) == ScanOf(env, k, n, names[..i], owner) +
        if state.Some? && state.value.parent == owner then [Child(names[i], state.value)] else []
  {
    if i < |names| {
      assert names[..i + 1][..i] == names[..i];
    }
  }

  /** Who was adopted, who was sent TERM and when, and who was sent KILL. */
  datatype Notes = Notes(roster: set<Key>, termSent: set<Key>, termAt: map<Key, int>, killSent: set<Key>)

  ghost predicate Later(a: Notes, b: Notes) {
    && a.roster <= b.roster && a.termSent <= b.termSent && a.killSent <= b.killSent
    && forall key | key in a.termAt :: key in b.termAt && b.termAt[key] == a.termAt[key]
  }

  /** A scanned child is adopted; a live one was sent TERM, and KILL if its TERM was old enough then. */
  ghost predicate TreatedChild(notes: Notes, at: int, c: Child) {
    var key := (c.pid, c.state.birth);
    && key in notes.roster
    && (!c.state.defunct ==>
          && key in notes.termSent && key in notes.termAt
          && (at - notes.termAt[key] >= GRACE ==> key in notes.killSent))
  }

  ghost predicate TreatedScan(notes: Notes, scan: Scan) {
    forall i | 0 <= i < |scan.children| :: TreatedChild(notes, scan.at, scan.children[i])
  }

  /** The scans from `lo` up to `hi`. */
  ghost predicate TreatedScans(notes: Notes, scans: seq<Scan>, lo: nat, hi: int) {
    forall k | lo <= k < hi && k < |scans| :: TreatedScan(notes, scans[k])
  }

  lemma TreatedStays(a: Notes, b: Notes, at: int, c: Child)
    requires Later(a, b) && TreatedChild(a, at, c)
    ensures TreatedChild(b, at, c)
  {
  }

  lemma ScansStay(a: Notes, b: Notes, scans: seq<Scan>, lo: nat, hi: int)
    requires Later(a, b) && TreatedScans(a, scans, lo, hi)
    ensures TreatedScans(b, scans, lo, hi)
  {
    hide TreatedChild, Later;
    forall k | lo <= k < hi && k < |scans| ensures TreatedScan(b, scans[k]) {
      forall i | 0 <= i < |scans[k].children| ensures TreatedChild(b, scans[k].at, scans[k].children[i]) {
        TreatedStays(a, b, scans[k].at, scans[k].children[i]);
      }
    }
  }

  /** The children of the current scan up to the i-th. */
  ghost predicate TreatedUpTo(notes: Notes, at: int, children: seq<Child>, i: nat) {
    forall j | 0 <= j < i && j < |children| :: TreatedChild(notes, at, children[j])
  }

  lemma UpToStays(a: Notes, b: Notes, at: int, children: seq<Child>, i: nat)
    requires Later(a, b) && TreatedUpTo(a, at, children, i)
    requires i < |children| ==> TreatedChild(b, at, children[i])
    ensures TreatedUpTo(b, at, children, i + 1)
  {
    hide TreatedChild, Later;
    forall j | 0 <= j < i + 1 && j < |children| ensures TreatedChild(b, at, children[j]) {
      if j < i {
        TreatedStays(a, b, at, children[j]);
      }
    }
  }

  lemma NothingTreated(notes: Notes, at: int, children: seq<Child>, scans: seq<Scan>)
    ensures TreatedUpTo(notes, at, children, 0) && TreatedScans(notes, scans, |scans|, |scans|)
  {
  }

  lemma ScanTreated(notes: Notes, scans: seq<Scan>, lo: nat, scan: Scan)
    requires TreatedScans(notes, scans, lo, |scans|) && TreatedUpTo(notes, scan.at, scan.children, |scan.children|)
    ensures TreatedScans(notes, scans + [scan], lo, |scans| + 1)
  {
    hide TreatedChild;
  }

  /** The scans from `lo` on, up to the last, began in this time. */
  ghost predicate Punctual(scans: seq<Scan>, lo: nat, since: int, deadline: int) {
    forall k | lo <= k < |scans| :: since <= scans[k].from && (k < |scans| - 1 ==> scans[k].from < deadline)
  }

  /** From `lo` on, only the last scan may begin `CLEANUP` after the first. */
  ghost predicate WithinCleanup(scans: seq<Scan>, lo: nat) {
    forall k | lo <= k < |scans| - 1 :: scans[k].from < scans[lo].from + CLEANUP
  }

  lemma PunctualStart(scans: seq<Scan>, since: int, deadline: int)
    ensures Punctual(scans, |scans|, since, deadline) && Prompt(scans, |scans|, since, deadline)
    ensures WithinCleanup(scans, |scans|) && WithinCleanup(scans, |scans| + 1)
  {
  }

  /** So far also the last one began before the deadline. */
  ghost predicate Prompt(scans: seq<Scan>, lo: nat, since: int, deadline: int) {
    Punctual(scans, lo, since, deadline) && (lo < |scans| ==> scans[|scans| - 1].from < deadline)
  }

  lemma PunctualNext(scans: seq<Scan>, lo: nat, since: int, deadline: int, scan: Scan)
    requires Prompt(scans, lo, since, deadline) && since <= scan.from
    ensures Punctual(scans + [scan], lo, since, deadline)
    ensures scan.from < deadline ==> Prompt(scans + [scan], lo, since, deadline)
  {
  }

  lemma PromptIsPunctual(scans: seq<Scan>, lo: nat, since: int, deadline: int)
    requires Prompt(scans, lo, since, deadline)
    ensures Punctual(scans, lo, since, deadline)
  {
  }

  lemma PunctualFromFirst(scans: seq<Scan>, lo: nat, since: int)
    requires Punctual(scans, lo, since, since + CLEANUP)
    ensures WithinCleanup(scans, lo)
  {
  }

  lemma FewerTreated(notes: Notes, scans: seq<Scan>, more: seq<Scan>, lo: nat)
    requires TreatedScans(notes, scans, lo, |scans|) && scans <= more && |more| == |scans| + 1
    ensures TreatedScans(notes, more, lo, |more| - 1)
  {
    hide TreatedScan;
  }

  class DescendantScope {
    const env: Environment
    const owner: Pid
    const savedFlag: int
    var kernel: Kernel
    var calls: nat
    var adopted: seq<Adoption>
    var actions: seq<Deed>
    var errors: nat
    var unexpectedLive: bool
    var restoredFlag: Option<int>
    var ok: bool
    var termSent: set<Key>
    var killSent: set<Key>
    var termAt: map<Key, int>
    var lastScan: seq<Child>
    var flag: int
    ghost var scans: seq<Scan>
    ghost var sighted: set<Key>      // instances read as direct children by some scan
    ghost var strays: set<Key>       // instances that were found unreapable
    ghost var tries: seq<Attempt>

    /** After a successful `__enter__`; `delivered` logs the signals of this scope. */
    constructor (env: Environment, owner: Pid, kernel: Kernel, savedFlag: int)
      requires Consistent(kernel) && kernel.delivered == []
      ensures Valid() && Fresh() && this.owner == owner && this.savedFlag == savedFlag && scans == [] && strays == {}
      ensures this.kernel == kernel && this.env == env
    {
      this.env, this.owner, this.savedFlag, this.kernel := env, owner, savedFlag, kernel;
      calls, adopted, actions, errors := 0, [], [], 0;
      unexpectedLive, restoredFlag, ok := false, None, false;
      termSent, killSent, termAt, lastScan := {}, {}, map[], [];
      sighted, strays, tries, scans, flag := {}, {}, [], [], 1;
    }

    ghost predicate Fresh() reads this {
      tries == [] && adopted == [] && kernel.delivered == []
    }

    ghost predicate Valid() reads this`kernel, this`sighted, this`actions {
      Consistent(kernel) && sighted <= kernel.born && Accounted(kernel.delivered, sighted, actions)
    }

    /** The invariant of the sweep. */
    ghost predicate Orderly()
      reads this`kernel, this`sighted, this`actions, this`tries, this`termSent, this`killSent, this`termAt,
            this`adopted
    {
      && Valid()
      && Ledger(tries, termSent, killSent, termAt)
      && Distinct(adopted)
      && Enlisted(tries, Roster(adopted))
      && Roster(adopted) <= sighted
      && Timely(kernel.delivered, termAt)
    }

    lemma OrderlyIsValid()
      requires Orderly()
      ensures Valid()
    {
    }

    lemma Begun()
      requires Valid() && Fresh() && termSent == {} && killSent == {} && termAt == map[]
      ensures Orderly()
    {
      LedgerStart(Roster([]));
      NobodyAdopted();
    }

    /** Everything that may happen between two system calls. */
    method Interfere()
      requires Valid()
      modifies this`kernel, this`calls
      ensures Valid() && Evolves(old(kernel), kernel)
      ensures kernel == KernelAfter(old(kernel), env, old(calls), 1) && calls == old(calls) + 1
    {
      assert KernelAfter(kernel, env, calls, 0) == kernel;
      kernel := Perturb(kernel, env.acts(calls));
      calls := calls + 1;
    }

    method Monotonic() returns (now: int)
      requires Valid()
      modifies this`kernel, this`calls
      ensures Valid() && Evolves(old(kernel), kernel) && now == kernel.now
      ensures Remembers(old(kernel), kernel) && kernel.delivered == old(kernel.delivered)
      ensures kernel == KernelAfter(old(kernel), env, old(calls), 1) && calls == old(calls) + 1
      ensures old(Orderly()) ==> Orderly()
    {
      Interfere();
      now := kernel.now;
    }

    /** `time.sleep` waits at least this long. */
    method Sleep()
      requires Valid()
      modifies this`kernel
      ensures Valid() && Evolves(old(kernel), kernel) && kernel.now == old(kernel.now) + PAUSE
      ensures Remembers(old(kernel), kernel) && kernel.delivered == old(kernel.delivered)
    {
      kernel := Act(kernel, Tick(PAUSE));
    }

    /** `_stat`: an unreadable or vanished process yields nothing. */
    method Stat(pid: Pid) returns (state: Option<Process>)
      requires Valid()
      modifies this`kernel, this`calls
      ensures Valid() && Evolves(old(kernel), kernel)
      ensures kernel == KernelAfter(old(kernel), env, old(calls), 1) && calls == old(calls) + 1
      ensures state == Shown(kernel, env, calls, pid)
    {
      Interfere();
      state := if pid in kernel.table && !env.fails(calls) then Some(kernel.table[pid]) else None;
    }

    /** `_children`: the directory is read entry by entry while processes come and go. */
    method Children() returns (children: Option<seq<Child>>)
      requires Valid()
      modifies this`kernel, this`calls, this`sighted, this`lastScan, this`scans
      ensures Valid() && Evolves(old(kernel), kernel) && old(sighted) <= sighted && old(calls) < calls
      ensures Remembers(old(kernel), kernel) && kernel.delivered == old(kernel.delivered)
      ensures children.None? <==> env.fails(old(calls) + 1)
      ensures children.None? ==> scans == old(scans) && lastScan == old(lastScan)
      ensures children.Some? ==> lastScan == children.value && Scanned(children.value)
      ensures children.Some? ==> scans == old(scans) + [Scan(old(kernel.now), kernel.now, children.value)]
      ensures children.Some? ==>
        var k := KernelAfter(old(kernel), env, old(calls), 1);
        children.value == ScanOf(env, k, old(calls) + 1, env.listing(old(calls) + 1), owner)
    {
      hide ScanOf, Accounted, KernelAfter, Evolves, Consistent, Shown;
      Interfere();
      EvolvesGives(old(kernel), kernel);
      if env.fails(calls) {
        return None;
      }
      var names := env.listing(calls);
      var found: seq<Child> := [];
      ghost var k, n := kernel, calls;
      ScanNext(env, k, n, names, owner, 0);
      KernelAfterNone(k, env, n);
      for i := 0 to |names|
        invariant Valid() && Evolves(old(kernel), kernel) && old(sighted) <= sighted
        invariant Remembers(old(kernel), kernel) && kernel.delivered == old(kernel.delivered)
        invariant kernel == KernelAfter(k, env, n, i) && calls == n + i && scans == old(scans)
        invariant Scanned(found) && found == ScanOf(env, k, n, names[..i], owner)
      {
        ghost var before := kernel;
        KernelAfterJoins(k, env, n, i, 1);
        ScanNext(env, k, n, names, owner, i);
        var state := Stat(names[i]);
        EvolvesOn(old(kernel), before, kernel);
        EvolvesGives(before, kernel);
        ShownIsBorn(kernel, env, calls, names[i]);
        if state.Some? && state.value.parent == owner {
          found := found + [Child(names[i], state.value)];
          AccountedMore(kernel.delivered, sighted, actions, (names[i], state.value.birth));
          sighted := sighted + {(names[i], state.value.birth)};
        }
      }
      assert names[..|names|] == names;
      lastScan := found;
      scans := scans + [Scan(old(kernel.now), kernel.now, found)];
      children := Some(found);
    }

    /** Each entry is an instance that a stat line showed as a child of the owner. */
    ghost predicate Scanned(children: seq<Child>) reads this`sighted {
      forall i | 0 <= i < |children| ::
        children[i].state.parent == owner && (children[i].pid, children[i].state.birth) in sighted
    }

    /** `_observe`: a descriptor it returns refers to the scanned instance and no other. */
    method Observe(pid: Pid, start: int) returns (r: Observed)
      requires Valid() && (pid, start) in sighted
      modifies this`kernel, this`calls
      ensures Valid() && Evolves(old(kernel), kernel) && old(calls) < calls
      ensures Remembers(old(kernel), kernel) && kernel.delivered == old(kernel.delivered)
      ensures r.Opened? ==> r.instance == (pid, start)
      ensures r.Opened? <==> Identified(env, old(kernel), old(calls), owner, (pid, start))
      ensures r.Opened? ==> kernel == KernelAfter(old(kernel), env, old(calls), 2) && calls == old(calls) + 2
      ensures r == Raised(OsFailure) <==>
        pid in KernelAfter(old(kernel), env, old(calls), 1).table && env.fails(old(calls) + 1)
    {
      KernelAfterJoins(kernel, env, calls, 1, 1);
      Interfere();
      if pid !in kernel.table {
        return Raised(NoSuchProcess);
      }
      if env.fails(calls) {
        return Raised(OsFailure);
      }
      var fd := (pid, kernel.table[pid].birth);   // whoever owns the PID now
      ghost var atOpen := kernel;
      var state := Stat(pid);
      if state.None? || state.value.parent != owner || state.value.birth != start {
        return NotOurs;
      }
      OpenedBeforeChecked(old(kernel), atOpen, kernel, pid, start);
      r := Opened(fd);
    }

    /** `pidfd_send_signal`: reaches the instance behind the descriptor or nobody. */
    method PidfdSend(fd: Key, signum: int) returns (fault: Option<Fault>)
      requires Valid()
      modifies this`kernel, this`calls
      ensures Consistent(kernel) && Remembers(old(kernel), kernel) && calls == old(calls) + 1
      ensures var lives := KernelAfter(old(kernel), env, old(calls), 1).Lives(fd);
        fault == if !lives then Some(NoSuchProcess) else if env.fails(old(calls) + 1) then Some(OsFailure) else None
      ensures kernel.delivered ==
        if fault.None? then old(kernel.delivered) + [Delivery(fd, signum, kernel.now)] else old(kernel.delivered)
    {
      Interfere();
      if !kernel.Lives(fd) {
        return Some(NoSuchProcess);
      }
      if env.fails(calls) {
        return Some(OsFailure);
      }
      kernel := kernel.(delivered := kernel.delivered + [Delivery(fd, signum, kernel.now)]);
      fault := None;
    }

    /** `_send`: at most one delivery, to the scanned instance. */
    method Send(pid: Pid, start: int, signum: int)
      requires Valid() && (pid, start) in sighted
      modifies this`kernel, this`calls, this`actions, this`errors
      ensures Valid() && Remembers(old(kernel), kernel) && old(calls) < calls
      ensures kernel.delivered == old(kernel.delivered) || exists t ::
        && old(kernel.now) <= t <= kernel.now
        && kernel.delivered == old(kernel.delivered) + [Delivery((pid, start), signum, t)]
      ensures kernel.delivered != old(kernel.delivered) <==> Reached(env, old(kernel), old(calls), owner, (pid, start))
      ensures actions == old(actions) +
        if Reached(env, old(kernel), old(calls), owner, (pid, start)) then [Signalled((pid, start), signum)] else []
      ensures errors == old(errors) + if Hindered(env, old(kernel), old(calls), owner, (pid, start)) then 1 else 0
      ensures errors > old(errors) ==> Refused(env, old(calls), calls)
    {
      hide Accounted, Identified, Evolves, KernelAfter, Consistent;
      ghost var n := calls;
      KernelAfterJoins(kernel, env, n, 2, 1);
      var fd := Observe(pid, start);
      if fd == Raised(OsFailure) {
        errors := errors + 1;
        assert env.fails(n + 1);
      }
      if fd.Opened? {
        var fault := PidfdSend(fd.instance, signum);
        if fault.None? {
          AccountedNext(old(kernel.delivered), sighted, actions, Delivery((pid, start), signum, kernel.now));
          actions := actions + [Signalled((pid, start), signum)];
        } else if fault == Some(OsFailure) {
          errors := errors + 1;
          assert env.fails(n + 3);
        }
      }
    }

    /** The zombie branch of the sweep; returns true when an exception leaves the sweep. */
    method Reap(pid: Pid, start: int) returns (escaped: bool)
      requires Valid() && (pid, start) in sighted
      modifies this`kernel, this`calls, this`actions, this`errors, this`strays
      ensures Valid() && Remembers(old(kernel), kernel) && old(calls) < calls
      ensures kernel.delivered == old(kernel.delivered)
      ensures var k := KernelAfter(old(kernel), env, old(calls), 1);
        actions == if pid in k.table && k.table[pid].parent == owner && k.table[pid].defunct
          then old(actions) + [Reaped((pid, start), env.status(old(calls) + 1))] else old(actions)
      ensures strays == old(strays) +
        if Unreapable(env, old(kernel), old(calls), owner, (pid, start)) then {(pid, start)} else {}
      ensures errors == old(errors) + if Unreapable(env, old(kernel), old(calls), owner, (pid, start)) then 1 else 0
      ensures escaped ==> Refused(env, old(calls), calls)
    {
      hide Identified, Evolves, KernelAfter, Accounted, Consistent;
      ghost var n := calls;
      Interfere();
      EvolvesGives(old(kernel), kernel);
      if pid in kernel.table && kernel.table[pid].parent == owner {
        if kernel.table[pid].defunct {
          kernel := Act(kernel, Vanish(pid));
          EvolvesGives(KernelAfter(old(kernel), env, n, 1), kernel);
          AccountedReap(kernel.delivered, sighted, actions, (pid, start), env.status(calls));
          actions := actions + [Reaped((pid, start), env.status(calls))];
        }
        return false;
      }
      KernelAfterJoins(old(kernel), env, n, 1, 2);
      KernelAfterJoins(old(kernel), env, n, 3, 1);
      var fd := Observe(pid, start);
      if fd.Opened? {
        ghost var before := kernel;
        Interfere();
        EvolvesGives(before, kernel);
        if kernel.Lives(fd.instance) && !kernel.table[fd.instance.0].defunct {
          errors := errors + 1;
          strays := strays + {(pid, start)};
        }
      }
      escaped := fd == Raised(OsFailure);
      assert escaped ==> env.fails(n + 2);
    }

    method Terminate(pid: Pid, start: int)
      requires Orderly() && (pid, start) in sighted && (pid, start) in Roster(adopted) && (pid, start) !in termSent
      modifies this`kernel, this`calls, this`actions, this`errors, this`termSent, this`termAt, this`tries
      ensures Orderly() && Remembers(old(kernel), kernel) && old(calls) <= calls
      ensures errors == old(errors) + if Hindered(env, old(kernel), old(calls), owner, (pid, start)) then 1 else 0
      ensures errors > old(errors) ==> Refused(env, old(calls), calls)
      ensures tries == old(tries) + [Attempt((pid, start), SIGTERM, kernel.now)]
      ensures termSent == old(termSent) + {(pid, start)} && termAt == old(termAt)[(pid, start) := kernel.now]
      ensures kernel.delivered != old(kernel.delivered) <==> Reached(env, old(kernel), old(calls), owner, (pid, start))
      ensures (pid, start) !in old(termAt)
    {
      hide Consistent, Accounted, Ledger, Distinct, Enlisted, Roster, Timely, Evolves, Reached, Hindered, KernelAfter;
      ghost var n := calls;
      var key := (pid, start);
      if key in termAt {
        NotedIsSent(tries, termSent, killSent, termAt, key);
      }
      Send(pid, start, SIGTERM);
      ghost var sent := calls;
      var at := Monotonic();
      RefusedWidens(env, n, sent, n, calls);
      EnlistedGrows(tries, Attempt(key, SIGTERM, at), Roster(adopted));
      LedgerTerm(tries, termSent, killSent, termAt, key, at, at);
      TimelyTerm(old(kernel.delivered), kernel.delivered, termAt, key, at);
      tries := tries + [Attempt(key, SIGTERM, at)];
      termSent := termSent + {key};
      termAt := termAt[key := at];
    }

    method Kill(pid: Pid, start: int)
      requires Orderly() && (pid, start) in sighted && (pid, start) in Roster(adopted)
      requires (pid, start) in termAt && (pid, start) !in killSent && kernel.now - termAt[(pid, start)] >= GRACE
      modifies this`kernel, this`calls, this`actions, this`errors, this`killSent, this`tries
      ensures Orderly() && Remembers(old(kernel), kernel) && old(calls) <= calls
      ensures errors == old(errors) + if Hindered(env, old(kernel), old(calls), owner, (pid, start)) then 1 else 0
      ensures errors > old(errors) ==> Refused(env, old(calls), calls)
      ensures tries == old(tries) + [Attempt((pid, start), SIGKILL, old(kernel.now))]
      ensures killSent == old(killSent) + {(pid, start)}
      ensures kernel.delivered != old(kernel.delivered) <==> Reached(env, old(kernel), old(calls), owner, (pid, start))
    {
      hide Consistent, Accounted, Ledger, Distinct, Enlisted, Roster, Timely, Evolves, Reached, Hindered, KernelAfter;
      ghost var n := calls;
      var key := (pid, start);
      EnlistedGrows(tries, Attempt(key, SIGKILL, kernel.now), Roster(adopted));
      LedgerKill(tries, termSent, killSent, termAt, key, kernel.now);
      tries := tries + [Attempt(key, SIGKILL, kernel.now)];
      killSent := killSent + {key};
      Send(pid, start, SIGKILL);
      TimelyKill(old(kernel.delivered), kernel.delivered, termAt, key);
    }

    /**
     The body of the sweep for one scanned child: it is adopted; a live one has been
     sent TERM, and KILL once its TERM is old enough; a defunct one is sent nothing.
     */
    method Treat(pid: Pid, child: Process, known: set<Key>) returns (known': set<Key>, escaped: bool)
      requires Orderly() && child.parent == owner && (pid, child.birth) in sighted
      requires known == Roster(adopted)
      modifies this`kernel, this`calls, this`adopted, this`actions, this`errors, this`strays
      modifies this`termSent, this`killSent, this`termAt, this`tries
      ensures Orderly() && Remembers(old(kernel), kernel) && old(errors) <= errors && old(calls) <= calls
      ensures old(strays) <= strays
      ensures errors > old(errors) || escaped ==> Refused(env, old(calls), calls) || strays != {}
      ensures known' == Roster(adopted) == old(Roster(adopted)) + {(pid, child.birth)}
      ensures !child.defunct ==> !escaped && termSent == old(termSent) + {(pid, child.birth)}
      ensures !child.defunct && (pid, child.birth) in old(termSent) ==>
        (old(kernel.now) - old(termAt)[(pid, child.birth)] >= GRACE ==> (pid, child.birth) in killSent)
      ensures child.defunct ==> tries == old(tries) && termSent == old(termSent) && killSent == old(killSent)
      ensures Later(old(NotesNow()), NotesNow())
      ensures forall at | at <= old(kernel.now) :: TreatedChild(NotesNow(), at, Child(pid, child))
    {
      hide Consistent, Accounted, Distinct, Enlisted, Disciplined, TermBy, Timely, Evolves, Reached, Hindered;
      hide KernelAfter, Unreapable, Refused;
      ghost var n := calls;
      var key := (pid, child.birth);
      known', escaped := known, false;
      if key !in known {
        known' := known + {key};
        RosterGrows(adopted, Adoption(pid, child.parent, child.birth));
        adopted := adopted + [Adoption(pid, child.parent, child.birth)];
      }
      if child.defunct {
        escaped := Reap(pid, child.birth);
        return;
      }
      assert termSent <= termAt.Keys;
      if key !in termSent {
        Terminate(pid, child.birth);
      } else {
        var now := Monotonic();
        if now - termAt[key] >= GRACE && key !in killSent {
          Kill(pid, child.birth);
          RefusedWidens(env, n + 1, calls, n, calls);
        }
      }
    }

    ghost function NotesNow(): Notes reads this { Notes(Roster(adopted), termSent, termAt, killSent) }

    /** The loop over the children of one scan; what was treated before stays so. */
    method TreatAll(children: seq<Child>, known: set<Key>, ghost at: int, ghost earlier: seq<Scan>, ghost lo: nat)
      returns (known': set<Key>, escaped: bool)
      requires Orderly() && Scanned(children) && known == Roster(adopted) && at <= kernel.now
      requires TreatedScans(NotesNow(), earlier, lo, |earlier|)
      modifies this`kernel, this`calls, this`adopted, this`actions, this`errors, this`strays
      modifies this`termSent, this`killSent, this`termAt, this`tries
      ensures Orderly() && Remembers(old(kernel), kernel) && old(errors) <= errors && old(calls) <= calls
      ensures old(strays) <= strays && known' == Roster(adopted)
      ensures errors > old(errors) || escaped ==> Refused(env, old(calls), calls) || strays != {}
      ensures !escaped ==> TreatedScans(NotesNow(), earlier, lo, |earlier|)
      ensures !escaped ==> TreatedUpTo(NotesNow(), at, children, |children|)
    {
      hide Consistent, Accounted, Ledger, Distinct, Enlisted, Timely, TreatedScans, TreatedUpTo, TreatedChild, Later;
      hide Roster, Refused, Evolves, KernelAfter;
      NothingTreated(NotesNow(), at, children, earlier);
      ghost var n := calls;
      known', escaped := known, false;
      for i := 0 to |children|
        invariant Orderly() && old(errors) <= errors && Remembers(old(kernel), kernel) && n <= calls
        invariant old(strays) <= strays && Scanned(children) && known' == Roster(adopted)
        invariant errors > old(errors) ==> Refused(env, n, calls) || strays != {}
        invariant TreatedScans(NotesNow(), earlier, lo, |earlier|)
        invariant TreatedUpTo(NotesNow(), at, children, i)
      {
        ghost var notes, m := NotesNow(), calls;
        known', escaped := Treat(children[i].pid, children[i].state, known');
        RefusedWidens(env, n, m, n, calls);
        RefusedWidens(env, m, calls, n, calls);
        if escaped {
          return;
        }
        ScansStay(notes, NotesNow(), earlier, lo, |earlier|);
        assert children[i] == Child(children[i].pid, children[i].state);
        UpToStays(notes, NotesNow(), at, children, i);
      }
    }

    /** One turn of the sweep: a scan, its treatment and, unless the scan was empty, a pause. */
    method Round(known: set<Key>, ghost lo: nat, ghost since: int, ghost deadline: int)
      returns (known': set<Key>, done: bool, escaped: bool)
      requires Prompt(scans, lo, since, deadline) && since <= kernel.now < deadline
      requires Orderly() && known == Roster(adopted) && TreatedScans(NotesNow(), scans, lo, |scans|) && lo <= |scans|
      modifies this`kernel, this`calls, this`sighted, this`lastScan, this`scans, this`adopted, this`actions,
               this`errors, this`strays, this`termSent, this`killSent, this`termAt, this`tries
      ensures Orderly() && old(errors) <= errors && Remembers(old(kernel), kernel) && old(calls) <= calls
      ensures old(strays) <= strays && known' == Roster(adopted) && old(scans) <= scans
      ensures Prompt(scans, lo, since, deadline)
      ensures errors > old(errors) || escaped ==> Refused(env, old(calls), calls) || strays != {}
      ensures !escaped ==>
        && |scans| == |old(scans)| + 1 && lastScan == scans[|old(scans)|].children
        && TreatedScans(NotesNow(), scans, lo, |scans|)
        && (done <==> lastScan == [])
        && (done ==> TreatedScans(NotesNow(), scans, lo, |scans| - 1))
        && (!done ==> kernel.now >= old(kernel.now) + PAUSE)
    {
      hide Consistent, Accounted, Ledger, Distinct, Enlisted, Timely, TreatedScans, TreatedUpTo, TreatedChild, Later;
      hide Roster, Evolves, KernelAfter, ScanOf, Refused, Valid, Scanned, Punctual, WithinCleanup, Prompt;
      ghost var n, earlier := calls, scans;
      known', done, escaped := known, false, false;
      var scan := Children();
      if scan.None? {
        RefusedNow(env, n, n + 1, calls);
        escaped := true;
        return;
      }
      PunctualNext(earlier, lo, since, deadline, scans[|earlier|]);
      ghost var at, m := kernel.now, calls;
      known', escaped := TreatAll(scan.value, known, at, earlier, lo);
      RefusedWidens(env, m, calls, n, calls);
      if escaped {
        return;
      }
      FewerTreated(NotesNow(), earlier, scans, lo);
      ScanTreated(NotesNow(), earlier, lo, scans[|earlier|]);
      done := scan.value == [];
      if !done {
        Sleep();
      }
    }

    /** The scan after the deadline: children that remain are an error. */
    method LastLook(ghost lo: nat, ghost since: int, ghost deadline: int) returns (escaped: bool)
      requires Prompt(scans, lo, since, deadline) && since <= kernel.now
      requires Orderly() && TreatedScans(NotesNow(), scans, lo, |scans|)
      modifies this`kernel, this`calls, this`sighted, this`lastScan, this`scans, this`errors
      ensures Orderly() && Remembers(old(kernel), kernel) && old(calls) <= calls && old(scans) <= scans
      ensures NotesNow() == old(NotesNow())
      ensures Punctual(scans, lo, since, deadline)
      ensures escaped ==> Refused(env, old(calls), calls) && errors == old(errors)
      ensures !escaped ==>
        && |scans| == |old(scans)| + 1 && lastScan == scans[|old(scans)|].children
        && errors == old(errors) + (if lastScan != [] then 1 else 0)
        && TreatedScans(NotesNow(), scans, lo, |scans| - 1)
    {
      hide Consistent, Accounted, Ledger, Distinct, Enlisted, Timely, TreatedScans, TreatedUpTo, TreatedChild, Later;
      hide Roster, Evolves, KernelAfter, ScanOf, Refused, Valid, Scanned, Punctual, WithinCleanup, Prompt;
      ghost var n, earlier := calls, scans;
      PromptIsPunctual(scans, lo, since, deadline);
      var scan := Children();
      if scan.None? {
        RefusedNow(env, n, n + 1, calls);
        return true;
      }
      FewerTreated(NotesNow(), earlier, scans, lo);
      PunctualNext(earlier, lo, since, deadline, scans[|earlier|]);
      if scan.value != [] {
        errors := errors + 1;
      }
      escaped := false;
    }

    /** `_sweep`; returns true when an exception left it. */
    method Sweep(deadline: int) returns (escaped: bool)
      requires Orderly() && adopted == []
      modifies this`kernel, this`calls, this`sighted, this`lastScan, this`scans, this`adopted, this`actions,
               this`errors, this`strays, this`termSent, this`killSent, this`termAt, this`tries
      ensures Orderly() && old(errors) <= errors && Remembers(old(kernel), kernel) && old(calls) <= calls
      ensures old(strays) <= strays
      ensures errors > old(errors) || escaped ==> Refused(env, old(calls), calls) || strays != {} || lastScan != []
      ensures !escaped && errors == 0 ==> lastScan == []
      ensures old(scans) <= scans
      ensures !escaped ==> |scans| > |old(scans)| && lastScan == scans[|scans| - 1].children
      ensures !escaped && lastScan != [] ==> errors > old(errors) && kernel.now >= deadline
      ensures Punctual(scans, |old(scans)|, old(kernel.now), deadline)
      ensures !escaped ==> TreatedScans(NotesNow(), scans, |old(scans)|, |scans| - 1)
    {
      hide Consistent, Accounted, Ledger, Distinct, Enlisted, Timely, TreatedScans, TreatedUpTo, TreatedChild, Later;
      hide Roster, Evolves, KernelAfter, ScanOf, Refused, Valid, Scanned, Punctual, WithinCleanup, Orderly, Prompt;
      ghost var n := calls;
      NothingTreated(NotesNow(), 0, [], scans);
      NobodyAdopted();
      PunctualStart(scans, kernel.now, deadline);
      var known: set<Key> := {};
      escaped := false;
      while true
        invariant Orderly() && old(errors) <= errors && Remembers(old(kernel), kernel) && n <= calls
        invariant old(strays) <= strays && (errors > old(errors) ==> Refused(env, n, calls) || strays != {})
        invariant known == Roster(adopted) && old(scans) <= scans
        invariant TreatedScans(NotesNow(), scans, |old(scans)|, |scans|)
        invariant Prompt(scans, |old(scans)|, old(kernel.now), deadline)
        decreases deadline - kernel.now
      {
        ghost var m := calls;
        OrderlyIsValid();
        var now := Monotonic();
        RefusedWidens(env, n, m, n, calls);
        if now >= deadline {
          break;
        }
        m := calls;
        var done;
        known, done, escaped := Round(known, |old(scans)|, old(kernel.now), deadline);
        RefusedWidens(env, n, m, n, calls);
        RefusedWidens(env, m, calls, n, calls);
        if escaped || done {
          PromptIsPunctual(scans, |old(scans)|, old(kernel.now), deadline);
          return;
        }
      }
      ghost var m := calls;
      escaped := LastLook(|old(scans)|, old(kernel.now), deadline);
      RefusedWidens(env, n, m, n, calls);
      RefusedWidens(env, m, calls, n, calls);
    }

    /** Puts the saved subreaper flag back and reads it again. */
    method Restore()
      requires Valid()
      modifies this`kernel, this`calls, this`errors, this`restoredFlag, this`flag
      ensures Valid() && old(errors) <= errors && kernel.delivered == old(kernel.delivered) && old(calls) <= calls
      ensures errors == old(errors) ==> flag == savedFlag && restoredFlag == Some(savedFlag)
      ensures errors > old(errors) ==>
        Refused(env, old(calls), calls) || (restoredFlag.Some? && restoredFlag != Some(savedFlag))
    {
      hide Refused, Accounted, KernelAfter;
      ghost var n := calls;
      Interfere();
      if env.fails(calls) {
        RefusedNow(env, n, calls, calls);
        errors := errors + 1;
        return;
      }
      flag := savedFlag;
      Interfere();
      if env.fails(calls) {
        RefusedNow(env, n, calls, calls);
        errors := errors + 1;
        return;
      }
      restoredFlag := Some(env.flagRead(calls));
      if restoredFlag != Some(savedFlag) {
        errors := errors + 1;
      }
    }

    /** The first scan of the exit; returns false when it failed. */
    method FirstLook(bodyRaised: bool) returns (seen: bool)
      requires Valid() && Fresh()
      modifies this`kernel, this`calls, this`sighted, this`lastScan, this`scans,
               this`termSent, this`killSent, this`termAt, this`unexpectedLive
      ensures Valid() && Orderly() && Fresh() && Remembers(old(kernel), kernel) && old(calls) < calls
      ensures termSent == {} && killSent == {} && termAt == map[]
      ensures !seen ==> Refused(env, old(calls), calls) && scans == old(scans) && unexpectedLive == old(unexpectedLive)
      ensures seen ==> |scans| == |old(scans)| + 1 && old(scans) <= scans
      ensures seen ==>
        (unexpectedLive <==> !bodyRaised && exists c :: c in scans[|old(scans)|].children && !c.state.defunct)
    {
      hide Consistent, Accounted, Ledger, Distinct, Enlisted, Roster, TreatedScans, Evolves, KernelAfter, ScanOf;
      hide Refused;
      hide Valid, Scanned, Timely, Orderly;
      ghost var n := calls;
      termSent, killSent, termAt := {}, {}, map[];
      var initial := Children();
      Begun();
      if initial.None? {
        RefusedNow(env, n, n + 1, calls);
        return false;
      }
      unexpectedLive := !bodyRaised && exists i :: 0 <= i < |initial.value| && !initial.value[i].state.defunct;
      seen := true;
    }

    /** The first scan and the sweep; returns true when an exception left them. */
    method Clean(bodyRaised: bool) returns (escaped: bool)
      requires Valid() && Fresh()
      modifies this`kernel, this`calls, this`sighted, this`lastScan, this`scans, this`adopted, this`actions,
               this`errors, this`strays, this`termSent, this`killSent, this`termAt, this`tries, this`unexpectedLive
      ensures Orderly() && old(errors) <= errors && old(calls) <= calls && old(strays) <= strays
      ensures errors > old(errors) || escaped ==> Refused(env, old(calls), calls) || strays != {} || lastScan != []
      ensures !escaped && lastScan != [] ==> kernel.now >= old(kernel.now) + CLEANUP
      ensures WithinCleanup(scans, |old(scans)| + 1)
      ensures !escaped && errors == 0 ==> lastScan == []
      ensures old(scans) <= scans
      ensures |scans| == |old(scans)| ==> escaped && unexpectedLive == old(unexpectedLive)
      ensures |scans| > |old(scans)| ==>
        (unexpectedLive <==> !bodyRaised && exists c :: c in scans[|old(scans)|].children && !c.state.defunct)
      ensures !escaped ==> TreatedScans(NotesNow(), scans, |old(scans)| + 1, |scans| - 1)
    {
      hide Consistent, Accounted, Ledger, Distinct, Enlisted, Roster, TreatedScans, Evolves, KernelAfter, ScanOf;
      hide Refused, Valid, Scanned, Punctual, WithinCleanup, Timely, Orderly;
      ghost var n := calls;
      var seen := FirstLook(bodyRaised);
      PunctualStart(scans, 0, 0);
      if !seen {
        return true;
      }
      var now := Monotonic();
      Begun();
      ghost var m := calls;
      assert scans[..|old(scans)| + 1] == scans;
      escaped := Sweep(now + CLEANUP);
      PunctualFromFirst(scans, |old(scans)| + 1, now);
      RefusedWidens(env, m, calls, n, calls);
    }

    /**
     `__exit__`.  Over every interleaving: each signal reached an instance that a
     scan had shown as a direct child and is on record under that PID and birth
     tick; attempts are disciplined and only at adopted processes; and an `ok`
     scope saw no child in its last scan and has restored the flag.
     */
    method Exit(bodyRaised: bool) returns (raised: bool)
      requires Valid() && Fresh() && !unexpectedLive
      modifies this
      ensures Orderly() && GraceKept(kernel.delivered)
      ensures old(scans) <= scans && (|scans| == |old(scans)| ==> !ok)
      ensures |scans| > |old(scans)| ==>
        (unexpectedLive <==> !bodyRaised && exists c :: c in scans[|old(scans)|].children && !c.state.defunct)
      ensures WithinCleanup(scans, |old(scans)| + 1)
      ensures ok ==> TreatedScans(NotesNow(), scans, |old(scans)| + 1, |scans| - 1)
      ensures ok <==> errors == 0 && !unexpectedLive && kernel.cancelled.None?
      ensures errors > old(errors) ==>
        || Refused(env, old(calls), calls) || strays != {} || lastScan != []
        || (restoredFlag.Some? && restoredFlag != Some(savedFlag))
      ensures ok ==> lastScan == [] && flag == savedFlag && restoredFlag == Some(savedFlag)
      ensures raised <==> !bodyRaised && !ok
    {
      hide Consistent, Accounted, Ledger, Distinct, Enlisted, Roster, Timely, GraceKept, TreatedScans, Refused;
      hide Evolves, KernelAfter, WithinCleanup;
      ghost var n := calls;
      var escaped := Clean(bodyRaised);
      ghost var m := calls;
      if escaped {
        errors := errors + 1;
      }
      Restore();
      RefusedWidens(env, n, m, n, calls);
      RefusedWidens(env, m, calls, n, calls);
      TimelyKeepsGrace(kernel.delivered, termAt);
      ok := errors == 0 && !unexpectedLive && kernel.cancelled.None?;
      raised := !bodyRaised && !ok;
    }
  }
}
