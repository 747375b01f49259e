/**
 Supervision of three worker processes: deadline, TERM, KILL, drain.

 The workers, the clock, the cancellation latch and the pipes are the adversary:
 a script lists, for every turn of the polling loop, what the loop would observe.
 A turn is executed or not; a script may end while the loop is still running.
 Times are milliseconds.
 */
module Cohort {
  import opened Common

  type Role = r: int | 0 <= r < 3

  const WORKER_CAP := 65536
  const TERM_GRACE := 6000
  const KILL_GRACE := 1000
  const DRAIN := 2000

  datatype Read = Chunk(role: Role, data: seq<Byte>) | Broken

  /**
   One turn: the clock, whether cancellation was latched, the exit codes that the
   polls would report at the failure check, at the exit check and inside the two
   signalling passes, whom a signal would find and where sending raises, and what the
   selector yields.
   */
  datatype Turn = Turn(
    now: int,
    cancelled: bool,
    pollFailed: Role -> Option<int>,
    pollTerm: Role -> Option<int>,
    pollExited: Role -> Option<int>,
    pollKill: Role -> Option<int>,
    identified: Role -> bool,     // the process table still shows the worker that was spawned
    sendRaises: Role -> bool,
    pieces: seq<Read>)

  const SIGTERM := 15
  const SIGKILL := 9

  /** A signal that was sent to a worker. */
  datatype Signal = Signal(role: Role, signum: int)

  datatype Error = Cancelled | DeadlineReached | WorkerFailed(role: Role, code: int) | PipeRemained |
    OutputQuota(role: Role)

  datatype Cause = CauseCancelled | CauseDeadline | CauseWorkerFailure | CauseFinalCleanup | CauseOutputQuota

  function CauseOf(e: Error): Cause {
    match e
    case Cancelled => CauseCancelled
    case DeadlineReached => CauseDeadline
    case WorkerFailed(_, _) => CauseWorkerFailure
    case PipeRemained => CauseFinalCleanup
    case OutputQuota(_) => CauseOutputQuota
  }

  /** A process record: the cached exit code, whether its pipe is registered, and its log. */
  datatype Worker = Worker(code: Option<int>, open: bool, log: seq<Byte>)

  type Workers = ws: seq<Worker> |
    |ws| == 3 witness [Worker(None, true, []), Worker(None, true, []), Worker(None, true, [])]

  const Spawned: Workers := [Worker(None, true, []), Worker(None, true, []), Worker(None, true, [])]

  /** `Popen.poll` on each worker: an exit code once seen stays. */
  function Polled(ws: Workers, seen: Role -> Option<int>): (ws': Workers)
    ensures forall r: Role :: ws'[r] == ws[r].(code := if ws[r].code.Some? then ws[r].code else seen(r))
  {
    [Poll(ws[0], seen(0)), Poll(ws[1], seen(1)), Poll(ws[2], seen(2))]
  }

  function Poll(w: Worker, seen: Option<int>): Worker { if w.code.Some? then w else w.(code := seen) }

  predicate Bad(w: Worker) { w.code.Some? && w.code.value != 0 }

  /** The first worker in role order that exited with a nonzero code. */
  function FirstFailure(ws: Workers): (e: Option<Error>)
    ensures e.None? <==> forall r: Role :: !Bad(ws[r])
    ensures e.Some? ==> e.value.WorkerFailed? && Bad(ws[e.value.role]) && ws[e.value.role].code == Some(e.value.code)
    ensures e.Some? ==> forall r: Role | r < e.value.role :: !Bad(ws[r])
  {
    if Bad(ws[0]) then Some(WorkerFailed(0, ws[0].code.value))
    else if Bad(ws[1]) then Some(WorkerFailed(1, ws[1].code.value))
    else if Bad(ws[2]) then Some(WorkerFailed(2, ws[2].code.value))
    else None
  }

  predicate Exited(ws: Workers) { ws[0].code.Some? && ws[1].code.Some? && ws[2].code.Some? }

  predicate Drained(ws: Workers) { !ws[0].open && !ws[1].open && !ws[2].open }

  // ---- pipes -------------------------------------------------------------

  /** Everything a worker wrote, as far as these reads go. */
  function Written(pieces: seq<Read>, role: Role): seq<Byte> {
    if pieces == [] then []
    else
      var before, last := pieces[..|pieces| - 1], pieces[|pieces| - 1];
      if last.Chunk? && last.role == role && !Ended(before, role) then Written(before, role) + last.data
      else Written(before, role)
  }

  /** The pipe of this worker has reported end of file. */
  predicate Ended(pieces: seq<Read>, role: Role) {
    exists i :: 0 <= i < |pieces| && pieces[i] == Chunk(role, [])
  }

  function AllReads(script: seq<Turn>): seq<Read> {
    if script == [] then [] else AllReads(script[..|script| - 1]) + script[|script| - 1].pieces
  }

  /** The log is the whole output, unless the quota was exceeded and an error is set. */
  ghost predicate Logged(ws: Workers, pieces: seq<Read>, error: Option<Error>) {
    forall r: Role :: LoggedFor(ws[r], pieces, r, error)
  }

  ghost predicate LoggedFor(w: Worker, pieces: seq<Read>, r: Role, error: Option<Error>) {
    && (w.open <==> !Ended(pieces, r))
    && (|w.log| > WORKER_CAP ==> error.Some? && |Written(pieces, r)| > WORKER_CAP)
    && (|w.log| <= WORKER_CAP ==> w.log == Written(pieces, r))
  }

  /** What one read does to one worker. */
  function AfterRead(w: Worker, r: Role, read: Read): Worker {
    if !(read.Chunk? && read.role == r && w.open) then w
    else if read.data == [] then w.(open := false)
    else w.(log := Extended(w.log, read.data))
  }

  lemma ReadIsLogged(w: Worker, before: seq<Read>, r: Role, read: Read, error: Option<Error>, error': Option<Error>)
    requires read.Chunk? && LoggedFor(w, before, r, error) && (error.Some? ==> error'.Some?)
    requires |AfterRead(w, r, read).log| > WORKER_CAP ==> error'.Some?
    ensures LoggedFor(AfterRead(w, r, read), before + [read], r, error')
  {
    hide Ended, Written;
    EndedGrows(before, read);
  }

  function Extended(log: seq<Byte>, data: seq<Byte>): seq<Byte> {
    var room := if |log| <= WORKER_CAP then WORKER_CAP + 1 - |log| else 0;
    log + if |data| <= room then data else data[..room]
  }

  lemma QuotaNoticed(w: Worker, pieces: seq<Read>, r: Role, error: Option<Error>)
    requires LoggedFor(w, pieces, r, error)
    ensures |w.log| > WORKER_CAP ==> error.Some? && |Written(pieces, r)| > WORKER_CAP
  {}

  /** The error is that this worker has written more than the quota. */
  ghost predicate OverQuota(error: Option<Error>, pieces: seq<Read>) {
    error.Some? && error.value.OutputQuota? && |Written(pieces, error.value.role)| > WORKER_CAP
  }

  /** One readable pipe. */
  method ReadOne(ws: Workers, error: Option<Error>, read: Read, ghost before: seq<Read>)
    returns (ws': Workers, error': Option<Error>)
    requires read.Chunk? && Logged(ws, before, error)
    ensures Logged(ws', before + [read], error')
    ensures forall r: Role :: ws'[r].code == ws[r].code
    ensures error.Some? ==> error' == error
    ensures error'.Some? ==> error' == error || OverQuota(error', before + [read])
  {
    hide Extended;
    ws', error' := ws, error;
    var r := read.role;
    if ws[r].open {   // otherwise it is not registered any more, and the selector cannot yield it
      if read.data == [] {
        ws' := ws[r := ws[r].(open := false)];
      } else {
        var log := Extended(ws[r].log, read.data);
        ws' := ws[r := ws[r].(log := log)];
        if |log| > WORKER_CAP && error.None? {
          error' := Some(OutputQuota(r));
        }
      }
    }
    hide LoggedFor;
    forall q: Role ensures LoggedFor(ws'[q], before + [read], q, error') {
      assert ws'[q] == AfterRead(ws[q], q, read);
      QuotaNoticed(ws[q], before, q, error);
      ReadIsLogged(ws[q], before, q, read, error, error');
      QuotaNoticed(ws'[q], before + [read], q, error');
    }
  }

  lemma EndedGrows(before: seq<Read>, read: Read)
    ensures forall r: Role :: Ended(before + [read], r) <==> Ended(before, r) || read == Chunk(r, [])
    ensures forall r: Role ::
      Written(before + [read], r) == if read.Chunk? && read.role == r && !Ended(before, r)
        then Written(before, r) + read.data else Written(before, r)
  {
    assert (before + [read])[..|before|] == before;
    forall r: Role ensures Ended(before + [read], r) <==> Ended(before, r) || read == Chunk(r, []) {
      assert forall i | 0 <= i < |before| :: (before + [read])[i] == before[i];
      assert (before + [read])[|before|] == read;
    }
  }

  /** The selector's yield of one turn; false when a read raises. */
  method ReadAll(ws: Workers, error: Option<Error>, pieces: seq<Read>, ghost before: seq<Read>)
    returns (raised: bool, ws': Workers, error': Option<Error>)
    requires Logged(ws, before, error)
    ensures !raised ==> Logged(ws', before + pieces, error')
    ensures forall r: Role :: ws'[r].code == ws[r].code
    ensures error.Some? ==> error' == error
    ensures error'.Some? ==>
      error' == error || exists i :: 0 <= i <= |pieces| && OverQuota(error', before + pieces[..i])
    ensures raised <==> Broken in pieces
  {
    hide Logged, OverQuota;
    raised, ws', error' := false, ws, error;
    assert before + pieces[..0] == before;
    for i := 0 to |pieces|
      invariant Logged(ws', before + pieces[..i], error')
      invariant forall r: Role :: ws'[r].code == ws[r].code
      invariant error.Some? ==> error' == error
      invariant error'.Some? ==>
        error' == error || exists j :: 0 <= j <= |pieces| && OverQuota(error', before + pieces[..j])
      invariant Broken !in pieces[..i]
    {
      if pieces[i].Broken? {
        return true, ws', error';
      }
      ws', error' := ReadOne(ws', error', pieces[i], before + pieces[..i]);
      assert before + pieces[..i] + [pieces[i]] == before + pieces[..i + 1];
    }
    assert pieces[..|pieces|] == pieces;
  }

  /** Only exit codes change. */
  lemma LoggedPolled(ws: Workers, seen: Role -> Option<int>, pieces: seq<Read>, error: Option<Error>)
    requires Logged(ws, pieces, error)
    ensures Logged(Polled(ws, seen), pieces, error)
  {
  }

  lemma LoggedError(ws: Workers, pieces: seq<Read>, error: Option<Error>, error': Option<Error>)
    requires Logged(ws, pieces, error) && (error.Some? ==> error'.Some?)
    ensures Logged(ws, pieces, error')
  {
  }

  /** Every worker ended well and its log is all it wrote. */
  ghost predicate Whole(ws: Workers, pieces: seq<Read>) {
    forall r: Role :: ws[r].code == Some(0) && Ended(pieces, r) && ws[r].log == Written(pieces, r) &&
      |ws[r].log| <= WORKER_CAP
  }

  lemma LoggedWhole(ws: Workers, pieces: seq<Read>)
    requires Logged(ws, pieces, None) && Exited(ws) && Drained(ws) && FirstFailure(ws).None?
    ensures Whole(ws, pieces)
  {
  }

  lemma AllReadsNext(script: seq<Turn>, k: nat)
    requires k < |script|
    ensures AllReads(script[..k + 1]) == AllReads(script[..k]) + script[k].pieces
  {
    assert script[..k + 1][..k] == script[..k];
  }

  lemma LoggedStart()
    ensures Logged(Spawned, AllReads([]), None)
  {
  }

  // ---- time --------------------------------------------------------------

  /** Successive turns start in order and at most `d` apart. */
  ghost predicate Paced(script: seq<Turn>, d: nat) {
    forall i | 0 < i < |script| :: script[i - 1].now <= script[i].now <= script[i - 1].now + d
  }

  /** By when the loop has noticed the deadline at the latest. */
  function Noticed(script: seq<Turn>, deadline: int, d: nat): int
    requires script != []
  {
    Max(deadline + d, script[0].now)
  }

  // ---- the loop ----------------------------------------------------------

  datatype Ending = Running | Broke | Raised

  /** How far the loop has come: an error, the TERM pass, the KILL pass, exit codes and signals sent. */
  datatype Phase = Phase(
    error: Option<Error>, termAt: Option<int>, killAt: Option<int>, codes: seq<Option<int>>, signals: seq<Signal>)

  const NoPhase := Phase(None, None, None, [None, None, None], [])

  /** What one turn may do: each is set once, in order, KILL not before its time. */
  ghost predicate Advances(now: int, p: Phase, p': Phase) {
    && (p.error.Some? ==> p'.error == p.error)
    && (p.termAt.Some? ==> p'.termAt == p.termAt)
    && (p.killAt.Some? ==> p'.killAt == p.killAt)
    && (p'.killAt.Some? ==> p'.termAt.Some?) && (p'.termAt.Some? ==> p'.error.Some?)
    && (p.termAt.None? && p'.termAt.Some? ==> p'.termAt.value == now + TERM_GRACE)
    && (p.killAt.None? && p'.killAt.Some? ==> p'.termAt.value <= now && p'.killAt.value == now + KILL_GRACE)
  }

  /** The code that the failure check of a turn sees for a worker. */
  function SeenCode(codes: seq<Option<int>>, turn: Turn, r: Role): Option<int> requires |codes| == 3 {
    if codes[r].Some? then codes[r] else turn.pollFailed(r)
  }

  predicate SeenBad(codes: seq<Option<int>>, turn: Turn, r: Role) requires |codes| == 3 {
    SeenCode(codes, turn, r).Some? && SeenCode(codes, turn, r).value != 0
  }

  /** The first bad code in role order. */
  predicate FirstBad(codes: seq<Option<int>>, turn: Turn, r: Role) requires |codes| == 3 {
    SeenBad(codes, turn, r) && forall q: Role | q < r :: !SeenBad(codes, turn, q)
  }

  /** Something in this turn calls for the end of the cohort. */
  ghost predicate Alarmed(turn: Turn, deadline: int, codes: seq<Option<int>>) requires |codes| == 3 {
    turn.cancelled || turn.now >= deadline || exists r: Role :: SeenBad(codes, turn, r)
  }

  /** What a turn notices, and in which order of precedence. */
  ghost predicate Notices(turn: Turn, deadline: int, p: Phase, p': Phase) {
    && |p.codes| == 3 && |p'.codes| == 3
    && (forall r: Role :: p.codes[r].Some? ==> p'.codes[r] == p.codes[r])
    && (forall r: Role :: p.codes[r].None? && turn.pollFailed(r).Some? ==> p'.codes[r] == turn.pollFailed(r))
    && (p.error.None? && turn.cancelled ==> p'.error == Some(Cancelled))
    && (p.error.None? && !turn.cancelled && turn.now >= deadline ==> p'.error == Some(DeadlineReached))
    && (p.error.None? && !turn.cancelled && turn.now < deadline ==> forall r: Role | FirstBad(p.codes, turn, r) ::
          p'.error == Some(WorkerFailed(r, SeenCode(p.codes, turn, r).value)))
    && (Alarmed(turn, deadline, p.codes) || p.error.Some? ==> p'.termAt.Some?)
  }

  ghost function Before(history: seq<Phase>, i: nat): Phase requires i <= |history| {
    if i == 0 then NoPhase else history[i - 1]
  }

  ghost predicate TurnOk(turn: Turn, deadline: int, p: Phase, p': Phase) {
    Advances(turn.now, p, p') && Notices(turn, deadline, p, p') && Signals(p, p')
  }

  /** Nothing but signals of this number was added. */
  ghost predicate OnlyNew(before: seq<Signal>, after: seq<Signal>, signum: int) {
    before <= after && forall i | |before| <= i < |after| :: after[i].signum == signum
  }

  /** TERM is sent only in the turn that sets its time, KILL only after that and before its own time is set. */
  ghost predicate Signals(p: Phase, p': Phase) {
    exists mid ::
      && OnlyNew(p.signals, mid, SIGTERM) && OnlyNew(mid, p'.signals, SIGKILL)
      && (mid != p.signals ==> p.termAt.None? && p'.termAt.Some?)
      && (p'.signals != mid ==> p.termAt.Some? && p.killAt.None?)
  }

  /** Turn by turn. */
  ghost predicate Progress(script: seq<Turn>, deadline: int, history: seq<Phase>) {
    && |history| <= |script|
    && forall i | 0 <= i < |history| :: TurnOk(script[i], deadline, Before(history, i), history[i])
  }

  /** Once set, each stays. */
  lemma {:induction false} Latched(script: seq<Turn>, deadline: int, history: seq<Phase>, i: nat, j: nat)
    requires Progress(script, deadline, history) && i <= j < |history|
    ensures history[i].error.Some? ==> history[j].error == history[i].error
    ensures history[i].termAt.Some? ==> history[j].termAt == history[i].termAt
    ensures history[i].killAt.Some? ==> history[j].killAt == history[i].killAt
  {
    hide Notices, Signals;
    if i < j {
      Latched(script, deadline, history, i, j - 1);
      assert TurnOk(script[j], deadline, Before(history, j), history[j]);
    }
  }

  /** The first turn that is alarmed sends TERM and fixes the error for good. */
  lemma AlarmIsFinal(script: seq<Turn>, deadline: int, history: seq<Phase>, k: nat, j: nat)
    requires Progress(script, deadline, history) && k <= j < |history| && |Before(history, k).codes| == 3
    ensures Alarmed(script[k], deadline, Before(history, k).codes) ==> history[k].termAt.Some? && history[j].error.Some?
    ensures Before(history, k).error.None? && script[k].cancelled ==> history[j].error == Some(Cancelled)
    ensures Before(history, k).error.None? && !script[k].cancelled && script[k].now >= deadline ==>
      history[j].error == Some(DeadlineReached)
    ensures Before(history, k).error.None? && !script[k].cancelled && script[k].now < deadline ==>
      forall r: Role | FirstBad(Before(history, k).codes, script[k], r) ::
        history[j].error == Some(WorkerFailed(r, SeenCode(Before(history, k).codes, script[k], r).value))
  {
    hide Signals, FirstBad, Alarmed;
    Latched(script, deadline, history, k, j);
    assert TurnOk(script[k], deadline, Before(history, k), history[k]);
  }

  lemma ProgressNext(script: seq<Turn>, deadline: int, history: seq<Phase>, p: Phase)
    requires Progress(script, deadline, history) && |history| < |script|
    requires TurnOk(script[|history|], deadline, Before(history, |history|), p)
    ensures Progress(script, deadline, history + [p])
  {
    hide TurnOk;
    var longer := history + [p];
    forall i | 0 <= i < |longer|
      ensures TurnOk(script[i], deadline, Before(longer, i), longer[i])
    {
      assert Before(longer, i) == Before(history, i);
    }
  }

  /** The phase clocks in terms of the last turn that went round the loop. */
  ghost predicate OnSchedule(script: seq<Turn>, deadline: int, d: nat, k: nat, p: Phase)
    requires k <= |script|
  {
    && (p.killAt.Some? ==> p.termAt.Some?) && (p.termAt.Some? ==> p.error.Some?)
    && (k == 0 ==> p.error.None?)
    && (k > 0 && p.termAt.None? ==> script[k - 1].now < deadline)
    && (k > 0 && p.termAt.Some? ==> p.termAt.value <= Noticed(script, deadline, d) + TERM_GRACE)
    && (k > 0 && p.termAt.Some? && p.killAt.None? ==> script[k - 1].now < p.termAt.value)
    && (k > 0 && p.killAt.Some? ==>
          script[k - 1].now < p.killAt.value < Noticed(script, deadline, d) + TERM_GRACE + d + KILL_GRACE)
  }

  lemma ScheduleStart(script: seq<Turn>, deadline: int, d: nat)
    ensures OnSchedule(script, deadline, d, 0, NoPhase)
  {
  }

  /** When a turn starts at the latest. */
  lemma TurnBound(script: seq<Turn>, deadline: int, d: nat, k: nat, p: Phase)
    requires Paced(script, d) && k < |script| && OnSchedule(script, deadline, d, k, p)
    ensures script[k].now < Noticed(script, deadline, d) + TERM_GRACE + KILL_GRACE + 2 * d
    ensures p.killAt.Some? ==> p.error.Some?
  {
  }

  /** A turn that goes round has noticed what was due. */
  lemma ScheduleNext(script: seq<Turn>, deadline: int, d: nat, k: nat, p: Phase, p': Phase)
    requires Paced(script, d) && k < |script| && OnSchedule(script, deadline, d, k, p)
    requires Advances(script[k].now, p, p')
    requires script[k].now >= deadline ==> p'.termAt.Some?
    requires p'.termAt.Some? && p'.killAt.None? ==> script[k].now < p'.termAt.value
    requires p'.killAt.Some? ==> script[k].now < p'.killAt.value
    ensures OnSchedule(script, deadline, d, k + 1, p')
  {
  }

  /** The locals of the loop, `cause` included: it is set with the error and never apart from it. */
  datatype Locals = Locals(
    ws: Workers, error: Option<Error>, cause: Option<Cause>,
    termAt: Option<int>, killAt: Option<int>, drainedAt: Option<int>, signals: seq<Signal>)

  /** An error is kept; a new one brings its cause. */
  ghost predicate Keeps(l: Locals, l': Locals) {
    && (l.error.Some? ==> l'.error == l.error)
    && (l.cause == Explained(l.error) ==> l'.cause == Explained(l'.error))
  }

  function CodesOf(ws: Workers): seq<Option<int>> { [ws[0].code, ws[1].code, ws[2].code] }

  function PhaseOf(l: Locals): Phase { Phase(l.error, l.termAt, l.killAt, CodesOf(l.ws), l.signals) }

  function Explained(error: Option<Error>): Option<Cause> {
    if error.None? then None else Some(CauseOf(error.value))
  }

  /** Whom a pass would reach: a worker not known to have exited, and still identified. */
  predicate Reachable(ws: Workers, turn: Turn, r: Role) { ws[r].code.None? && turn.identified(r) }

  /** An alarm of turn `k` has led to TERM in that turn; the first one is the error and the cause of the end. */
  ghost predicate Heeded(script: seq<Turn>, deadline: int, history: seq<Phase>, k: nat, l: Locals) {
    && k < |history| <= |script| && |Before(history, k).codes| == 3
    && (Alarmed(script[k], deadline, Before(history, k).codes) ==> history[k].termAt.Some? && l.error.Some?)
    && (Before(history, k).error.None? && script[k].cancelled ==>
          l.error == Some(Cancelled) && l.cause == Some(CauseCancelled))
    && (Before(history, k).error.None? && !script[k].cancelled && script[k].now >= deadline ==>
          l.error == Some(DeadlineReached) && l.cause == Some(CauseDeadline))
    && (Before(history, k).error.None? && !script[k].cancelled && script[k].now < deadline ==>
          forall r: Role | FirstBad(Before(history, k).codes, script[k], r) ::
            && l.error == Some(WorkerFailed(r, SeenCode(Before(history, k).codes, script[k], r).value))
            && l.cause == Some(CauseWorkerFailure))
  }

  lemma AlarmHeeded(script: seq<Turn>, deadline: int, history: seq<Phase>, k: nat, l: Locals)
    requires Progress(script, deadline, history) && k < |history| && PhaseOf(l) == Before(history, |history|)
    requires l.cause == Explained(l.error)
    ensures Heeded(script, deadline, history, k, l)
  {
    hide Progress, FirstBad, Alarmed;
    ThreeCodes(script, deadline, history, k);
    AlarmIsFinal(script, deadline, history, k, |history| - 1);
  }

  lemma ThreeCodes(script: seq<Turn>, deadline: int, history: seq<Phase>, k: nat)
    requires Progress(script, deadline, history) && k < |history|
    ensures |Before(history, k).codes| == 3 && |history| <= |script|
  {
    hide Signals, Advances, FirstBad, Alarmed;
    if k > 0 {
      assert TurnOk(script[k - 1], deadline, Before(history, k - 1), history[k - 1]);
    }
  }

  /** One pass over the workers: every reachable one is sent the signal, unless sending raises. */
  method SignalPass(ws: Workers, turn: Turn, signum: int) returns (raised: bool, sent: seq<Signal>)
    ensures forall i | 0 <= i < |sent| :: sent[i].signum == signum && Reachable(ws, turn, sent[i].role)
    ensures !raised ==> forall r: Role :: Reachable(ws, turn, r) ==> Signal(r, signum) in sent
    ensures forall i, j | 0 <= i < j < |sent| :: sent[i].role < sent[j].role
    ensures raised ==> exists r: Role :: Reachable(ws, turn, r) && turn.sendRaises(r)
  {
    raised, sent := false, [];
    for r := 0 to 3
      invariant forall i | 0 <= i < |sent| ::
        sent[i].signum == signum && sent[i].role < r && Reachable(ws, turn, sent[i].role)
      invariant forall q: Role | q < r :: Reachable(ws, turn, q) ==> Signal(q, signum) in sent
      invariant forall i, j | 0 <= i < j < |sent| :: sent[i].role < sent[j].role
    {
      if Reachable(ws, turn, r) {
        if turn.sendRaises(r) {
          return true, sent;
        }
        sent := sent + [Signal(r, signum)];
      }
    }
  }

  /** What the failure check finds first: cancellation, the deadline, or a worker in role order. */
  function FirstAlarm(turn: Turn, deadline: int, ws: Workers): Option<Error> {
    if turn.cancelled then Some(Cancelled)
    else if turn.now >= deadline then Some(DeadlineReached)
    else FirstFailure(Polled(ws, turn.pollFailed))
  }

  /** All of this worker's codes come from what was known or from a poll of this turn. */
  ghost predicate CodesFrom(turn: Turn, ws: Workers, ws': Workers) {
    forall r: Role ::
      || ws'[r].code == ws[r].code
      || (ws[r].code.None? &&
            ws'[r].code in {turn.pollFailed(r), turn.pollTerm(r), turn.pollExited(r), turn.pollKill(r)})
  }

  /** The turn up to the TERM pass. */
  method Detect(turn: Turn, deadline: int, l: Locals, ghost pieces: seq<Read>) returns (raised: bool, l': Locals)
    requires Logged(l.ws, pieces, l.error) && (l.termAt.Some? ==> l.error.Some?)
    ensures Logged(l'.ws, pieces, l'.error) && Keeps(l, l')
    ensures l'.killAt == l.killAt && l'.drainedAt == l.drainedAt
    ensures l'.error == if l.error.Some? then l.error else FirstAlarm(turn, deadline, l.ws)
    ensures l'.termAt ==
      if l.termAt.Some? then l.termAt else if l'.error.Some? then Some(turn.now + TERM_GRACE) else None
    ensures CodesFrom(turn, l.ws, l'.ws)
    ensures forall r: Role :: l.ws[r].code.None? && turn.pollFailed(r).Some? ==> l'.ws[r].code == turn.pollFailed(r)
    ensures forall r: Role :: l'.ws[r].open == l.ws[r].open
    ensures l.termAt.Some? || l'.termAt.None? ==> !raised && l'.signals == l.signals
    ensures l.termAt.None? && l'.termAt.Some? ==>
      && OnlyNew(l.signals, l'.signals, SIGTERM)
      && (!raised ==> forall r: Role :: Reachable(l'.ws, turn, r) ==> Signal(r, SIGTERM) in l'.signals)
  {
    hide Logged, FirstFailure, Polled;
    raised, l' := false, l;
    if turn.cancelled && l'.error.None? {
      l' := l'.(error := Some(Cancelled), cause := Some(CauseCancelled));
    }
    if turn.now >= deadline && l'.error.None? {
      l' := l'.(error := Some(DeadlineReached), cause := Some(CauseDeadline));
    }
    LoggedPolled(l'.ws, turn.pollFailed, pieces, l.error);
    l' := l'.(ws := Polled(l'.ws, turn.pollFailed));
    var failure := FirstFailure(l'.ws);
    if failure.Some? && l'.error.None? {
      l' := l'.(error := failure, cause := Some(CauseWorkerFailure));
    }
    if l'.error.Some? && l'.termAt.None? {
      LoggedPolled(l'.ws, turn.pollTerm, pieces, l.error);
      l' := l'.(termAt := Some(turn.now + TERM_GRACE), ws := Polled(l'.ws, turn.pollTerm));
      var sent;
      raised, sent := SignalPass(l'.ws, turn, SIGTERM);
      l' := l'.(signals := l'.signals + sent);
    }
    LoggedError(l'.ws, pieces, l.error, l'.error);
  }

  /** All workers are gone, and so are their pipes or the time for them. */
  predicate Over(l: Locals, now: int) {
    Exited(l.ws) && (Drained(l.ws) || (l.drainedAt.Some? && now >= l.drainedAt.value))
  }

  /** What the exit check finds. */
  function ExitAlarm(ws: Workers, broke: bool): Option<Error> {
    if !Exited(ws) then None
    else if FirstFailure(ws).Some? then FirstFailure(ws)
    else if broke && !Drained(ws) then Some(PipeRemained)
    else None
  }

  /** The exit check: whether the loop is left, all workers being gone. */
  method CheckExited(turn: Turn, l: Locals, ghost pieces: seq<Read>) returns (broke: bool, l': Locals)
    requires Logged(l.ws, pieces, l.error)
    ensures Logged(l'.ws, pieces, l'.error) && Keeps(l, l')
    ensures l'.killAt == l.killAt && l'.termAt == l.termAt && l'.signals == l.signals
    ensures l'.ws == Polled(l.ws, turn.pollExited)
    ensures broke <==> Over(l', turn.now)
    ensures l'.drainedAt ==
      if l.drainedAt.Some? || !Exited(l'.ws) || Drained(l'.ws) then l.drainedAt else Some(turn.now + DRAIN)
    ensures l.error.None? ==> l'.error == ExitAlarm(l'.ws, broke)
    ensures broke && l'.error.None? ==> Whole(l'.ws, pieces) && Drained(l'.ws)
  {
    hide Logged, FirstFailure, Polled, Whole;
    broke, l' := false, l;
    LoggedPolled(l.ws, turn.pollExited, pieces, l.error);
    l' := l'.(ws := Polled(l'.ws, turn.pollExited));
    if Exited(l'.ws) && l'.error.None? {
      var failure := FirstFailure(l'.ws);
      if failure.Some? {
        l' := l'.(error := failure, cause := Some(CauseWorkerFailure));
      }
    }
    LoggedError(l'.ws, pieces, l.error, l'.error);
    if Exited(l'.ws) && Drained(l'.ws) {
      if l'.error.None? {
        LoggedWhole(l'.ws, pieces);
      }
      return true, l';
    }
    if Exited(l'.ws) && l'.drainedAt.None? {
      l' := l'.(drainedAt := Some(turn.now + DRAIN));
    }
    if Exited(l'.ws) && turn.now >= l'.drainedAt.value {
      if l'.error.None? {
        l' := l'.(error := Some(PipeRemained), cause := Some(CauseFinalCleanup));
        LoggedError(l'.ws, pieces, None, l'.error);
      }
      broke := true;
    }
  }

  /** Why a turn brings an error. */
  ghost predicate Reasoned(turn: Turn, deadline: int, l': Locals, pieces: seq<Read>) {
    l'.error.Some? && match l'.error.value
      case Cancelled => turn.cancelled
      case DeadlineReached => turn.now >= deadline
      case WorkerFailed(r, c) => c != 0 && l'.ws[r].code == Some(c)
      case PipeRemained => Exited(l'.ws) && !Drained(l'.ws) && l'.drainedAt.Some? && turn.now >= l'.drainedAt.value
      case OutputQuota(_) => exists i :: 0 <= i <= |turn.pieces| && OverQuota(l'.error, pieces + turn.pieces[..i])
  }

  /** The codes and the log of signals after a pass or a poll. */
  ghost predicate Later(l: Locals, l': Locals) {
    && (forall r: Role :: l.ws[r].code.Some? ==> l'.ws[r].code == l.ws[r].code)
    && l.signals <= l'.signals && (l.error.Some? ==> l'.error == l.error) && l'.termAt == l.termAt
  }

  /** The turn from the KILL pass on. */
  method KillAndRead(turn: Turn, l: Locals, ghost pieces: seq<Read>) returns (ending: Ending, l': Locals)
    requires Logged(l.ws, pieces, l.error) && l.cause == Explained(l.error)
    requires (l.killAt.Some? ==> l.termAt.Some?) && (l.termAt.Some? ==> l.error.Some?)
    ensures Later(l, l') && l'.cause == Explained(l'.error) && l'.drainedAt == l.drainedAt
    ensures forall r: Role :: l'.ws[r].code == l.ws[r].code || (l.ws[r].code.None? && l'.ws[r].code == turn.pollKill(r))
    ensures l'.killAt != l.killAt ==>
      l.killAt.None? && l.termAt.Some? && turn.now >= l.termAt.value && l'.killAt == Some(turn.now + KILL_GRACE)
    ensures OnlyNew(l.signals, l'.signals, SIGKILL)
    ensures l'.signals != l.signals ==> l.killAt.None? && l.termAt.Some? && turn.now >= l.termAt.value
    ensures l.killAt.None? && l'.killAt.Some? ==>
      forall r: Role :: l'.ws[r].code.None? && turn.identified(r) ==> Signal(r, SIGKILL) in l'.signals
    ensures l.error.None? && l'.error.Some? ==>
      exists i :: 0 <= i <= |turn.pieces| && OverQuota(l'.error, pieces + turn.pieces[..i])
    ensures ending == Raised ==> l'.error.Some? || Broken in turn.pieces
    ensures ending == Broke ==> l'.killAt.Some? && turn.now >= l'.killAt.value
    ensures ending == Running ==>
      && Logged(l'.ws, pieces + turn.pieces, l'.error)
      && (l'.termAt.Some? && l'.killAt.None? ==> turn.now < l'.termAt.value)
      && (l'.killAt.Some? ==> turn.now < l'.killAt.value)
  {
    hide Logged, Polled, OverQuota;
    l' := l;
    if l'.termAt.Some? && l'.killAt.None? && turn.now >= l'.termAt.value {
      LoggedPolled(l'.ws, turn.pollKill, pieces, l'.error);
      l' := l'.(ws := Polled(l'.ws, turn.pollKill));
      var raised, sent := SignalPass(l'.ws, turn, SIGKILL);
      l' := l'.(signals := l'.signals + sent);
      if raised {
        return Raised, l';
      }
      l' := l'.(killAt := Some(turn.now + KILL_GRACE));
    }
    if l'.killAt.Some? && turn.now >= l'.killAt.value {
      return Broke, l';
    }
    var raised, ws, error := ReadAll(l'.ws, l'.error, turn.pieces, pieces);
    QuotaCause(error, l'.error, turn.pieces, pieces);
    l' := l'.(ws := ws, error := error, cause := if l'.error.None? && error.Some?
      then Some(CauseOutputQuota) else l'.cause);
    ending := if raised then Raised else Running;
  }

  lemma QuotaCause(error: Option<Error>, was: Option<Error>, pieces: seq<Read>, before: seq<Read>)
    requires error.Some? ==> error == was || exists i :: 0 <= i <= |pieces| && OverQuota(error, before + pieces[..i])
    ensures error.Some? && error != was ==> error.value.OutputQuota?
  {
  }

  /** One turn: `Running` when the loop goes round. */
  method OneTurn(turn: Turn, deadline: int, l: Locals, ghost pieces: seq<Read>) returns (ending: Ending, l': Locals)
    requires Logged(l.ws, pieces, l.error) && l.cause == Explained(l.error)
    requires (l.killAt.Some? ==> l.termAt.Some?) && (l.termAt.Some? ==> l.error.Some?)
    requires l.drainedAt.Some? ==> Exited(l.ws)
    ensures TurnOk(turn, deadline, PhaseOf(l), PhaseOf(l')) && l'.cause == Explained(l'.error)
    ensures CodesFrom(turn, l.ws, l'.ws)
    ensures l.error.None? && l'.error.Some? ==> Reasoned(turn, deadline, l', pieces)
    ensures l'.drainedAt == l.drainedAt || (l.drainedAt.None? && l'.drainedAt == Some(turn.now + DRAIN))
    ensures l'.drainedAt.Some? ==> Exited(l'.ws)
    ensures ending == Raised ==> l'.error.Some? || Broken in turn.pieces
    ensures ending == Broke ==> Over(l', turn.now) || (l'.killAt.Some? && turn.now >= l'.killAt.value)
    ensures ending == Running ==>
      && Logged(l'.ws, pieces + turn.pieces, l'.error)
      && (turn.now >= deadline ==> l'.termAt.Some?)
      && (l'.termAt.Some? && l'.killAt.None? ==> turn.now < l'.termAt.value)
      && (l'.killAt.Some? ==> turn.now < l'.killAt.value)
      && (l'.drainedAt.Some? ==> turn.now < l'.drainedAt.value)
    ensures l.termAt.None? && l'.termAt.Some? && ending != Raised ==>
      forall r: Role :: l'.ws[r].code.None? && turn.identified(r) ==> Signal(r, SIGTERM) in l'.signals
    ensures l.killAt.None? && l'.killAt.Some? ==>
      forall r: Role :: l'.ws[r].code.None? && turn.identified(r) ==> Signal(r, SIGKILL) in l'.signals
    ensures ending == Broke && l'.error.None? ==> Whole(l'.ws, pieces) && Drained(l'.ws)
  {
    hide Logged, Whole, Polled, FirstFailure, Drained, OverQuota, Notices, Signals, Advances, FirstAlarm, Reasoned;
    var raised, broke;
    raised, l' := Detect(turn, deadline, l, pieces);
    ghost var detected := l';
    AlarmReason(turn, deadline, l, detected, pieces);
    NothingNew(detected.signals);
    if raised {
      Noticing(turn, deadline, l, detected, l');
      TermThenKill(turn, l, l', l');
      return Raised, l';
    }
    broke, l' := CheckExited(turn, l', pieces);
    ExitReason(turn, deadline, detected, l', broke, pieces);
    if l.error.None? && detected.error.Some? {
      ReasonStands(turn, deadline, detected, l', pieces);
    }
    if broke {
      Noticing(turn, deadline, l, detected, l');
      TermThenKill(turn, l, l', l');
      return Broke, l';
    }
    ghost var checked := l';
    ending, l' := KillAndRead(turn, l', pieces);
    Noticing(turn, deadline, l, detected, l');
    TermThenKill(turn, l, checked, l');
    if l.error.None? && checked.error.Some? {
      ReasonStands(turn, deadline, checked, l', pieces);
    } else if l.error.None? && l'.error.Some? {
      QuotaReason(turn, deadline, l', pieces);
    }
  }

  lemma QuotaReason(turn: Turn, deadline: int, l': Locals, pieces: seq<Read>)
    requires l'.error.Some? && exists i :: 0 <= i <= |turn.pieces| && OverQuota(l'.error, pieces + turn.pieces[..i])
    ensures Reasoned(turn, deadline, l', pieces)
  {
  }

  /** An error of the failure check has its reason in the turn. */
  lemma AlarmReason(turn: Turn, deadline: int, l: Locals, detected: Locals, pieces: seq<Read>)
    requires detected.error == if l.error.Some? then l.error else FirstAlarm(turn, deadline, l.ws)
    requires forall r: Role ::
      l.ws[r].code.None? && turn.pollFailed(r).Some? ==> detected.ws[r].code == turn.pollFailed(r)
    requires forall r: Role :: l.ws[r].code.Some? ==> detected.ws[r].code == l.ws[r].code
    ensures l.error.None? && detected.error.Some? ==>
      Reasoned(turn, deadline, detected, pieces) && !detected.error.value.PipeRemained?
    ensures turn.now >= deadline ==> detected.error.Some?
  {
    hide FirstFailure, Polled;
  }

  lemma ExitReason(turn: Turn, deadline: int, l: Locals, l': Locals, broke: bool, pieces: seq<Read>)
    requires l.error.None? ==> l'.error == ExitAlarm(l'.ws, broke)
    requires broke <==> Over(l', turn.now)
    ensures l.error.None? && l'.error.Some? ==>
      Reasoned(turn, deadline, l', pieces) && (!broke ==> !l'.error.value.PipeRemained?)
  {
    hide FirstFailure, OverQuota;
  }

  lemma TermThenKill(turn: Turn, l: Locals, checked: Locals, l': Locals)
    requires checked.termAt == l.termAt || (l.termAt.None? && checked.termAt == Some(turn.now + TERM_GRACE))
    requires checked.killAt == l.killAt && (l.error.Some? ==> checked.error == l.error)
    requires (checked.termAt.Some? ==> checked.error.Some?) && (l.killAt.Some? ==> l.termAt.Some?)
    requires l.termAt.Some? || checked.termAt.None? ==> checked.signals == l.signals
    requires l.termAt.None? && checked.termAt.Some? ==> OnlyNew(l.signals, checked.signals, SIGTERM)
    requires Later(checked, l')
    requires l'.killAt == checked.killAt ||
      (checked.killAt.None? && checked.termAt.Some? && turn.now >= checked.termAt.value &&
       l'.killAt == Some(turn.now + KILL_GRACE))
    requires OnlyNew(checked.signals, l'.signals, SIGKILL)
    requires l'.signals != checked.signals ==>
      checked.killAt.None? && checked.termAt.Some? && turn.now >= checked.termAt.value
    ensures Advances(turn.now, PhaseOf(l), PhaseOf(l')) && Signals(PhaseOf(l), PhaseOf(l'))
  {
    assert OnlyNew(l.signals, checked.signals, SIGTERM);
  }

  lemma NothingNew(signals: seq<Signal>)
    ensures OnlyNew(signals, signals, SIGKILL)
  {
  }

  /** A reason stands as long as the error does. */
  lemma ReasonStands(turn: Turn, deadline: int, l: Locals, l': Locals, pieces: seq<Read>)
    requires Reasoned(turn, deadline, l, pieces) && l'.error == l.error && !l.error.value.PipeRemained?
    requires forall r: Role :: l.ws[r].code.Some? ==> l'.ws[r].code == l.ws[r].code
    ensures Reasoned(turn, deadline, l', pieces)
  {
    hide OverQuota;
  }

  lemma SeenIsPolled(turn: Turn, ws: Workers, r: Role)
    ensures SeenBad(CodesOf(ws), turn, r) <==> Bad(Polled(ws, turn.pollFailed)[r])
    ensures SeenCode(CodesOf(ws), turn, r) == Polled(ws, turn.pollFailed)[r].code
  {
  }

  lemma BadIsSeen(codes: seq<Option<int>>, turn: Turn, r: Role)
    requires |codes| == 3 && SeenBad(codes, turn, r)
    ensures SeenCode(codes, turn, r).Some?
  {
  }

  lemma FirstBadFails(turn: Turn, ws: Workers, r: Role)
    requires FirstBad(CodesOf(ws), turn, r)
    ensures FirstFailure(Polled(ws, turn.pollFailed)) == Some(WorkerFailed(r, SeenCode(CodesOf(ws), turn, r).value))
  {
    hide FirstFailure, Polled, SeenCode, SeenBad;
    var after := Polled(ws, turn.pollFailed);
    SeenIsPolled(turn, ws, r);
    var f := FirstFailure(after).value;
    SeenIsPolled(turn, ws, f.role);
  }

  /** The rest of the turn keeps what the failure check noticed. */
  lemma Noticing(turn: Turn, deadline: int, l: Locals, detected: Locals, l': Locals)
    requires detected.error == if l.error.Some? then l.error else FirstAlarm(turn, deadline, l.ws)
    requires detected.termAt.Some? <==> l.termAt.Some? || detected.error.Some?
    requires detected.error.Some? ==> l'.error == detected.error
    requires detected.termAt == l'.termAt
    requires forall r: Role :: l.ws[r].code.Some? ==> l'.ws[r].code == l.ws[r].code
    requires forall r: Role :: l.ws[r].code.None? && turn.pollFailed(r).Some? ==> l'.ws[r].code == turn.pollFailed(r)
    ensures Notices(turn, deadline, PhaseOf(l), PhaseOf(l'))
  {
    hide FirstBad, Alarmed, FirstAlarm, SeenCode, CodesOf;
    CodesAt(l.ws);
    CodesAt(l'.ws);
    AlarmIs(turn, deadline, l.ws);
  }

  lemma CodesAt(ws: Workers)
    ensures |CodesOf(ws)| == 3 && forall r: Role :: CodesOf(ws)[r] == ws[r].code
  {
  }

  /** What the failure check finds when there is something to find. */
  lemma AlarmIs(turn: Turn, deadline: int, ws: Workers)
    ensures Alarmed(turn, deadline, CodesOf(ws)) ==> FirstAlarm(turn, deadline, ws).Some?
    ensures turn.cancelled ==> FirstAlarm(turn, deadline, ws) == Some(Cancelled)
    ensures !turn.cancelled && turn.now >= deadline ==> FirstAlarm(turn, deadline, ws) == Some(DeadlineReached)
    ensures !turn.cancelled && turn.now < deadline ==> forall r: Role | FirstBad(CodesOf(ws), turn, r) ::
      && SeenCode(CodesOf(ws), turn, r).Some?
      && FirstAlarm(turn, deadline, ws) == Some(WorkerFailed(r, SeenCode(CodesOf(ws), turn, r).value))
  {
    hide FirstFailure, Polled, SeenCode, SeenBad;
    forall r: Role | FirstBad(CodesOf(ws), turn, r)
      ensures SeenCode(CodesOf(ws), turn, r).Some?
      ensures FirstFailure(Polled(ws, turn.pollFailed)) == Some(WorkerFailed(r, SeenCode(CodesOf(ws), turn, r).value))
    {
      BadIsSeen(CodesOf(ws), turn, r);
      FirstBadFails(turn, ws, r);
    }
    forall r: Role | SeenBad(CodesOf(ws), turn, r) ensures FirstFailure(Polled(ws, turn.pollFailed)).Some? {
      SeenIsPolled(turn, ws, r);
    }
  }

  // ---- what a failure can come from --------------------------------------

  /** A poll of turn `i` reported this code. */
  ghost predicate Reported(script: seq<Turn>, i: nat, r: Role, code: int) {
    i < |script| &&
    Some(code) in {script[i].pollFailed(r), script[i].pollTerm(r), script[i].pollExited(r), script[i].pollKill(r)}
  }

  /** Every known code was reported. */
  ghost predicate CodesSeen(script: seq<Turn>, k: nat, ws: Workers) {
    forall r: Role | ws[r].code.Some? :: exists i :: 0 <= i < k && Reported(script, i, r, ws[r].code.value)
  }

  /** All workers had been reported gone by turn `j`. */
  ghost predicate GoneBy(script: seq<Turn>, j: nat) {
    forall r: Role :: ReportedBy(script, j, r)
  }

  ghost predicate ReportedBy(script: seq<Turn>, j: nat, r: Role) {
    exists i, code :: 0 <= i <= j && Reported(script, i, r, code)
  }

  /** Something in the first `k` turns is a reason to fail. */
  ghost predicate Faulted(script: seq<Turn>, deadline: int, k: nat) {
    exists i :: 0 <= i < k && i < |script| && FaultAt(script, deadline, i)
  }

  ghost predicate FaultAt(script: seq<Turn>, deadline: int, i: nat) requires i < |script| {
    || script[i].cancelled || script[i].now >= deadline || Broken in script[i].pieces
    || (exists r: Role, code :: code != 0 && Reported(script, i, r, code))
    || (exists j :: 0 <= j <= i && GoneBy(script, j) && script[i].now >= script[j].now + DRAIN)
    || (exists r: Role, n :: 0 <= n <= |script[i].pieces| &&
          |Written(AllReads(script[..i]) + script[i].pieces[..n], r)| > WORKER_CAP)
  }

  /** What is known of the reasons after `k` turns. */
  ghost predicate Explains(script: seq<Turn>, deadline: int, k: nat, l: Locals) {
    && CodesSeen(script, k, l.ws)
    && (l.error.Some? ==> Faulted(script, deadline, k))
    && (l.drainedAt.Some? ==> DrainSince(script, k, l.drainedAt.value))
  }

  /** The drain time counts from a turn by which all workers were gone. */
  ghost predicate DrainSince(script: seq<Turn>, k: nat, at: int) {
    exists j :: 0 <= j < k && j < |script| && GoneBy(script, j) && at == script[j].now + DRAIN
  }

  lemma ExplainsStart(script: seq<Turn>, deadline: int)
    ensures Explains(script, deadline, 0, Locals(Spawned, None, None, None, None, None, []))
  {
  }

  lemma CodesSeenNext(script: seq<Turn>, k: nat, ws: Workers, ws': Workers)
    requires k < |script| && CodesSeen(script, k, ws) && CodesFrom(script[k], ws, ws')
    ensures CodesSeen(script, k + 1, ws')
  {
    forall r: Role | ws'[r].code.Some? ensures exists i :: 0 <= i < k + 1 && Reported(script, i, r, ws'[r].code.value) {
      if ws'[r].code == ws[r].code {
        var i :| 0 <= i < k && Reported(script, i, r, ws[r].code.value);
      } else {
        assert Reported(script, k, r, ws'[r].code.value);
      }
    }
  }

  lemma ExitedIsGone(script: seq<Turn>, k: nat, ws: Workers)
    requires CodesSeen(script, k + 1, ws) && Exited(ws)
    ensures GoneBy(script, k)
  {
    hide Reported;
    forall r: Role ensures ReportedBy(script, k, r) {
      assert ws[r].code.Some?;
      var i :| 0 <= i < k + 1 && Reported(script, i, r, ws[r].code.value);
    }
  }

  /** The reason of a new error lies in the turn that brought it, or in an exit reported before. */
  lemma ErrorFaults(script: seq<Turn>, deadline: int, k: nat, l: Locals, l': Locals)
    requires k < |script| && Explains(script, deadline, k, l) && CodesSeen(script, k + 1, l'.ws)
    requires l.error.None? && Reasoned(script[k], deadline, l', AllReads(script[..k]))
    requires l'.drainedAt == l.drainedAt || l'.drainedAt == Some(script[k].now + DRAIN)
    requires l'.drainedAt.Some? ==> Exited(l'.ws)
    ensures Faulted(script, deadline, k + 1)
  {
    hide Written, AllReads, Reported;
    match l'.error.value {
      case Cancelled => assert FaultAt(script, deadline, k);
      case DeadlineReached => assert FaultAt(script, deadline, k);
      case WorkerFailed(r, c) =>
        var i :| 0 <= i < k + 1 && Reported(script, i, r, c);
        assert i < |script| && FaultAt(script, deadline, i);
      case PipeRemained =>
        if l'.drainedAt == l.drainedAt {
          assert DrainSince(script, k, l.drainedAt.value);
        } else {
          ExitedIsGone(script, k, l'.ws);
        }
        assert FaultAt(script, deadline, k);
      case OutputQuota(r) =>
        var n :| 0 <= n <= |script[k].pieces| && OverQuota(l'.error, AllReads(script[..k]) + script[k].pieces[..n]);
        assert FaultAt(script, deadline, k);
    }
  }

  lemma FaultedLater(script: seq<Turn>, deadline: int, k: nat)
    requires Faulted(script, deadline, k)
    ensures Faulted(script, deadline, k + 1)
  {
    hide FaultAt;
  }

  lemma ExplainsNext(script: seq<Turn>, deadline: int, k: nat, l: Locals, l': Locals)
    requires k < |script| && Explains(script, deadline, k, l) && CodesFrom(script[k], l.ws, l'.ws)
    requires l.error.Some? ==> l'.error == l.error
    requires l.error.None? && l'.error.Some? ==> Reasoned(script[k], deadline, l', AllReads(script[..k]))
    requires l'.drainedAt == l.drainedAt || l'.drainedAt == Some(script[k].now + DRAIN)
    requires l'.drainedAt.Some? ==> Exited(l'.ws)
    ensures Explains(script, deadline, k + 1, l')
  {
    CodesSeenNext(script, k, l.ws, l'.ws);
    if l.error.Some? {
      FaultedLater(script, deadline, k);
    } else if l'.error.Some? {
      ErrorFaults(script, deadline, k, l, l');
    }
    hide CodesSeen, Faulted, Reasoned;
    if l'.drainedAt.Some? {
      if l'.drainedAt == l.drainedAt {
        assert DrainSince(script, k, l.drainedAt.value);
      } else {
        ExitedIsGone(script, k, l'.ws);
      }
    }
  }

  method Supervise(script: seq<Turn>, deadline: int, d: nat)
    returns (ending: Ending, l: Locals, turns: nat, ghost history: seq<Phase>)
    requires Paced(script, d)
    // the loop cannot go on past this point
    ensures turns <= |script| && (if ending == Running then turns == |script| else 0 < turns)
    ensures forall k | 0 <= k < turns ::
      script[k].now < Noticed(script, deadline, d) + TERM_GRACE + KILL_GRACE + 2 * d
    // each turn notices what calls for the end, and phases only advance
    ensures Progress(script, deadline, history) && |history| == turns && PhaseOf(l) == Before(history, turns)
    ensures forall k: nat | k < turns :: Heeded(script, deadline, history, k, l)
    // the KILL grace never ends without an error
    ensures l.killAt.Some? ==> l.error.Some?
    // the first error has its own cause, and its reason lies in the script
    ensures l.cause == Explained(l.error)
    ensures l.error.Some? || ending == Raised ==> Faulted(script, deadline, turns)
    // leaving without an error means that everything ended well
    ensures ending == Broke && l.error.None? ==>
      turns > 0 && Drained(l.ws) && Whole(l.ws, AllReads(script[..turns - 1]))
  {
    hide Logged, Whole, AllReads, Progress, OnSchedule, Noticed, Drained, TurnOk, Explains, CodesFrom, Reasoned;
    hide Faulted, Heeded;
    l, turns, history := Locals(Spawned, None, None, None, None, None, []), 0, [];
    LoggedStart();
    assert script[..0] == [];
    ProgressStart(script, deadline);
    ScheduleStart(script, deadline, d);
    ExplainsStart(script, deadline);
    ending := Running;
    while turns < |script| && ending == Running
      invariant turns <= |script| && (ending != Running ==> 0 < turns)
      invariant forall k | 0 <= k < turns ::
        script[k].now < Noticed(script, deadline, d) + TERM_GRACE + KILL_GRACE + 2 * d
      invariant l.cause == Explained(l.error)
      invariant Progress(script, deadline, history) && |history| == turns && PhaseOf(l) == Before(history, turns)
      invariant (l.killAt.Some? ==> l.termAt.Some?) && (l.termAt.Some? ==> l.error.Some?)
      invariant l.drainedAt.Some? ==> Exited(l.ws)
      invariant Explains(script, deadline, turns, l)
      invariant ending == Raised ==> Faulted(script, deadline, turns)
      invariant ending == Running ==>
        OnSchedule(script, deadline, d, turns, PhaseOf(l)) && Logged(l.ws, AllReads(script[..turns]), l.error)
      invariant ending == Broke && l.error.None? ==>
        turns > 0 && Drained(l.ws) && Whole(l.ws, AllReads(script[..turns - 1]))
      decreases |script| - turns
    {
      ghost var before, was := PhaseOf(l), l;
      TurnBound(script, deadline, d, turns, before);
      AllReadsNext(script, turns);
      ending, l := OneTurn(script[turns], deadline, l, AllReads(script[..turns]));
      InOrder(script[turns], deadline, before, PhaseOf(l));
      ProgressNext(script, deadline, history, PhaseOf(l));
      ExplainsNext(script, deadline, turns, was, l);
      if ending == Raised {
        RaisedFaults(script, deadline, turns, l);
      }
      if ending == Running {
        ScheduleNext(script, deadline, d, turns, before, PhaseOf(l));
      }
      history := history + [PhaseOf(l)];
      turns := turns + 1;
    }
    if l.error.Some? {
      ExplainedFaults(script, deadline, turns, l);
    }
    forall k: nat | k < turns ensures Heeded(script, deadline, history, k, l) {
      AlarmHeeded(script, deadline, history, k, l);
    }
  }

  lemma RaisedFaults(script: seq<Turn>, deadline: int, k: nat, l: Locals)
    requires k < |script| && Explains(script, deadline, k + 1, l) && (l.error.Some? || Broken in script[k].pieces)
    ensures Faulted(script, deadline, k + 1)
  {
    if l.error.None? {
      assert FaultAt(script, deadline, k);
    }
  }

  lemma ExplainedFaults(script: seq<Turn>, deadline: int, k: nat, l: Locals)
    requires Explains(script, deadline, k, l) && l.error.Some?
    ensures Faulted(script, deadline, k)
  {
  }

  lemma InOrder(turn: Turn, deadline: int, p: Phase, p': Phase)
    requires TurnOk(turn, deadline, p, p')
    ensures (p'.killAt.Some? ==> p'.termAt.Some?) && (p'.termAt.Some? ==> p'.error.Some?)
    ensures Advances(turn.now, p, p')
  {
  }

  lemma ProgressStart(script: seq<Turn>, deadline: int)
    ensures Progress(script, deadline, [])
  {
  }

  lemma FaultedInAll(script: seq<Turn>, deadline: int, k: nat)
    requires Faulted(script, deadline, k)
    ensures Faulted(script, deadline, |script|)
  {
    hide FaultAt;
  }

  lemma WholeGives(ws: Workers, pieces: seq<Read>)
    requires Whole(ws, pieces)
    ensures forall r: Role :: ws[r].code == Some(0) && Ended(pieces, r) && Retained(ws[r]) == Written(pieces, r)
  {
  }

  datatype Outcome = StillRunning | Failed | Returned

  function Retained(w: Worker): seq<Byte> { if |w.log| <= WORKER_CAP then w.log else w.log[..WORKER_CAP] }

  /** After an alarm the cohort does not return normally, and the first alarm is its first cause. */
  ghost predicate Decides(
    script: seq<Turn>, deadline: int, history: seq<Phase>, k: nat, outcome: Outcome, firstCause: Option<Cause>)
  {
    && k < |history| <= |script| && |Before(history, k).codes| == 3
    && (Alarmed(script[k], deadline, Before(history, k).codes) ==> outcome != Returned)
    && (Before(history, k).error.None? && script[k].cancelled ==> firstCause == Some(CauseCancelled))
    && (Before(history, k).error.None? && !script[k].cancelled && script[k].now >= deadline ==>
          firstCause == Some(CauseDeadline))
    && (Before(history, k).error.None? && !script[k].cancelled && script[k].now < deadline ==>
          forall r: Role | FirstBad(Before(history, k).codes, script[k], r) :: firstCause == Some(CauseWorkerFailure))
  }

  lemma AllDecided(
    script: seq<Turn>, deadline: int, history: seq<Phase>, l: Locals, outcome: Outcome, firstCause: Option<Cause>)
    requires forall k: nat | k < |history| :: Heeded(script, deadline, history, k, l)
    requires l.cause.Some? ==> firstCause == l.cause
    requires l.error.Some? ==> outcome != Returned
    ensures forall k: nat | k < |history| :: Decides(script, deadline, history, k, outcome, firstCause)
  {
    hide Alarmed, FirstBad;
    forall k: nat | k < |history| ensures Decides(script, deadline, history, k, outcome, firstCause) {
      assert Heeded(script, deadline, history, k, l);
    }
  }

  /**
   The cohort as a whole, after the workers were spawned: the loop, the final
   judgement and the cleanup, which may add faults but replaces no first cause.
   */
  method WorkerCohort(script: seq<Turn>, deadline: int, d: nat, cancelledLate: bool, cleanupFaults: Role -> bool)
    returns (
      outcome: Outcome, codes: seq<Option<int>>, logs: seq<seq<Byte>>, firstCause: Option<Cause>,
      ghost history: seq<Phase>)
    requires Paced(script, d)
    ensures Progress(script, deadline, history)
    ensures if outcome == StillRunning then |history| == |script| else 0 < |history|
    ensures forall k: nat | k < |history| :: Decides(script, deadline, history, k, outcome, firstCause)
    ensures outcome == Returned ==> forall r: Role :: !cleanupFaults(r)
    ensures |logs| == 3 && forall r: Role :: |logs[r]| <= WORKER_CAP
    ensures outcome == Failed ==> firstCause.Some?
    ensures outcome == Failed ==> Faulted(script, deadline, |script|) || exists r: Role :: cleanupFaults(r)
    ensures outcome == Returned ==>
      && codes == [Some(0), Some(0), Some(0)]
      && firstCause == (if cancelledLate then Some(CauseCancelled) else None)
      && exists k :: 0 <= k < |script| && forall r: Role ::
           Ended(AllReads(script[..k]), r) && logs[r] == Written(AllReads(script[..k]), r)
    ensures outcome == StillRunning ==>
      forall k | 0 <= k < |script| :: script[k].now < Noticed(script, deadline, d) + TERM_GRACE + KILL_GRACE + 2 * d
  {
    hide Whole, Ended, Written, AllReads, Noticed, Progress, Drained, Faulted, Heeded, Decides;
    var ending, l, turns;
    ending, l, turns, history := Supervise(script, deadline, d);
    if Faulted(script, deadline, turns) {
      FaultedInAll(script, deadline, turns);
    }
    logs := [Retained(l.ws[0]), Retained(l.ws[1]), Retained(l.ws[2])];
    codes := [l.ws[0].code, l.ws[1].code, l.ws[2].code];
    firstCause := l.cause;
    if ending == Running {
      AllDecided(script, deadline, history, l, StillRunning, firstCause);
      return StillRunning, codes, logs, firstCause, history;
    }
    var failed := ending == Raised || l.error.Some? || !(l.ws[0].code == l.ws[1].code == l.ws[2].code == Some(0));
    if failed && firstCause.None? {
      firstCause := if cancelledLate then Some(CauseCancelled) else Some(CauseFinalCleanup);
    }
    var faulty := cleanupFaults(0) || cleanupFaults(1) || cleanupFaults(2);
    if cancelledLate && firstCause.None? {
      firstCause := Some(CauseCancelled);
    }
    if faulty && firstCause.None? {
      firstCause := Some(CauseFinalCleanup);
    }
    outcome := if failed || faulty then Failed else Returned;
    AllDecided(script, deadline, history, l, outcome, firstCause);
    if ending == Broke && l.error.None? {
      ghost var k := turns - 1;
      WholeGives(l.ws, AllReads(script[..k]));
      assert forall r: Role :: Ended(AllReads(script[..k]), r) && logs[r] == Written(AllReads(script[..k]), r);
    }
  }
}
