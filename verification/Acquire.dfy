/**
 Ownership of the file descriptors that arrive in asynchronous Acquire replies.

 Every method body that runs under the lock is one atomic step; the cancels and
 closes that `finish_cleanup` and a late `bind` do after leaving the lock are
 steps of their own, so that a list of steps is an arbitrary interleaving of the
 threads.  Descriptor numbers are reused by the kernel, so a delivered
 descriptor is named by the order of its delivery, and a pending call by the
 order in which `bind` accepted it.
 */
module Acquire {
  import opened Common

  datatype Role = Source | Sink | Undefined
  datatype Argument = Int(i: int) | NotInt

  datatype Request = Request(
    path: string,
    role: Role,
    fd: Option<nat>,
    pending: Option<nat>,
    replied: bool,
    failed: bool,
    taken: bool)

  /** The owner's fields, the locals of a running `finish_cleanup`, and a log of the world. */
  datatype State = State(
    requests: seq<Request>,       // a token is a position in this list
    closing: bool,
    finished: bool,
    cancelQueue: seq<nat>,        // locals of finish_cleanup outside the lock
    closeQueue: seq<nat>,
    lateBinds: multiset<nat>,     // calls that a late bind is about to cancel
    delivered: nat,               // valid descriptors delivered so far
    bound: nat,                   // pending calls accepted so far
    transferred: multiset<nat>,
    closed: multiset<nat>,
    cancelled: multiset<nat>)

  const Initial := State([], false, false, [], [], multiset{}, 0, 0, multiset{}, multiset{}, multiset{})

  datatype Op =
    | Register(path: string, role: Role)
    | Bind(token: nat, callable: bool)
    | Received(token: nat, fd: Argument, readMtu: Argument, writeMtu: Argument)
    | Failed(token: nat)
    | Take(token: nat)
    | BeginCleanup
    | FinishLocked
    | FinishCancel
    | FinishClose
    | LateCancel(call: nat)

  predicate Natural(a: Argument) { a.Int? && a.i >= 0 }

  function Step(s: State, op: Op): State {
    match op
    case Register(path, role) => AfterRegister(s, path, role)
    case Bind(t, callable) => AfterBind(s, t, callable)
    case Received(t, fd, readMtu, writeMtu) => AfterReply(s, t, fd, readMtu, writeMtu)
    case Failed(t) => AfterFailure(s, t)
    case Take(t) => AfterTake(s, t)
    case BeginCleanup => s.(closing := true)
    case FinishLocked => AfterLock(s)
    case FinishCancel => AfterCancel(s)
    case FinishClose => AfterClose(s)
    case LateCancel(c) => AfterLateCancel(s, c)
  }

  function AfterRegister(s: State, path: string, role: Role): State {
    if Refused(s, path, role) then s
    else s.(requests := s.requests + [Request(path, role, None, None, false, false, false)])
  }

  function AfterBind(s: State, t: nat, callable: bool): State {
    if t >= |s.requests| || !callable || s.requests[t].pending.Some? then s
    else if s.finished then s.(bound := s.bound + 1, lateBinds := s.lateBinds + multiset{s.bound})
    else s.(bound := s.bound + 1, requests := s.requests[t := s.requests[t].(pending := Some(s.bound))])
  }

  function AfterFailure(s: State, t: nat): State {
    if t >= |s.requests| || s.requests[t].replied then s
    else s.(requests := s.requests[t := s.requests[t].(replied := true, failed := true)])
  }

  function AfterTake(s: State, t: nat): State {
    if !Ready(s, t) then s
    else s.(requests := s.requests[t := s.requests[t].(taken := true, fd := None)],
            transferred := s.transferred + multiset{s.requests[t].fd.value})
  }

  function AfterLock(s: State): State {
    if s.finished then s
    else s.(closing := true, finished := true, cancelQueue := Pendings(s.requests),
            closeQueue := Held(s.requests), requests := Emptied(s.requests))
  }

  function AfterCancel(s: State): State {
    if s.cancelQueue == [] then s
    else s.(cancelQueue := s.cancelQueue[1..], cancelled := s.cancelled + multiset{s.cancelQueue[0]})
  }

  function AfterClose(s: State): State {
    if s.cancelQueue != [] || s.closeQueue == [] then s
    else s.(closeQueue := s.closeQueue[1..], closed := s.closed + multiset{s.closeQueue[0]})
  }

  function AfterLateCancel(s: State, c: nat): State {
    if c !in s.lateBinds then s
    else s.(lateBinds := s.lateBinds - multiset{c}, cancelled := s.cancelled + multiset{c})
  }

  /** finish_cleanup's own work outside the lock, to its end. */
  function Settled(s: State): State
    decreases |s.cancelQueue| + |s.closeQueue|
  {
    if s.cancelQueue != [] then Settled(AfterCancel(s))
    else if s.closeQueue != [] then Settled(AfterClose(s))
    else s
  }

  predicate Refused(s: State, path: string, role: Role) {
    s.closing || path == "" || role == Undefined || |s.requests| >= 2 ||
    exists i :: 0 <= i < |s.requests| && (s.requests[i].path == path || s.requests[i].role == role)
  }

  predicate Ready(s: State, t: nat) {
    !s.closing && t < |s.requests| && s.requests[t].replied && !s.requests[t].failed &&
    !s.requests[t].taken && s.requests[t].fd.Some?
  }

  /** Replies that are neither unknown, late nor duplicate. */
  predicate Awaited(s: State, t: nat) {
    t < |s.requests| && !s.closing && !s.requests[t].replied
  }

  predicate Sound(fd: Argument, readMtu: Argument, writeMtu: Argument) {
    Natural(fd) && Natural(readMtu) && Natural(writeMtu)
  }

  /** `received`: store the descriptor, or close it at once if it is one. */
  function AfterReply(s: State, t: nat, fd: Argument, readMtu: Argument, writeMtu: Argument): State {
    if Awaited(s, t) then
      if Sound(fd, readMtu, writeMtu) then
        s.(delivered := s.delivered +
          1, requests := s.requests[t := s.requests[t].(replied := true, fd := Some(s.delivered))])
      else
        Dropped(s.(requests := s.requests[t := s.requests[t].(replied := true, failed := true)]), fd)
    else Dropped(s, fd)
  }

  function Dropped(s: State, fd: Argument): State {
    if Natural(fd) then s.(delivered := s.delivered + 1, closed := s.closed + multiset{s.delivered}) else s
  }

  function Run(s: State, ops: seq<Op>): State {
    if ops == [] then s else Step(Run(s, ops[..|ops| - 1]), ops[|ops| - 1])
  }

  function AsSeq(o: Option<nat>): seq<nat> { if o.Some? then [o.value] else [] }

  function Held(rs: seq<Request>): seq<nat> {
    if rs == [] then [] else Held(rs[..|rs| - 1]) + AsSeq(rs[|rs| - 1].fd)
  }

  function Pendings(rs: seq<Request>): seq<nat> {
    if rs == [] then [] else Pendings(rs[..|rs| - 1]) + AsSeq(rs[|rs| - 1].pending)
  }

  function Emptied(rs: seq<Request>): seq<Request> {
    seq(|rs|, i requires 0 <= i < |rs| => rs[i].(fd := None))
  }

  /** begin_cleanup's answer: untaken requests, the source first. */
  function Untaken(rs: seq<Request>): seq<nat> {
    UntakenOf(rs, Source) + UntakenOf(rs, Sink)
  }

  function UntakenOf(rs: seq<Request>, role: Role): seq<nat> {
    if rs == [] then []
    else
      var n := |rs| - 1;
      UntakenOf(rs[..n], role) + if !rs[n].taken && rs[n].role == role then [n] else []
  }

  function Count(q: seq<nat>, x: nat): nat { multiset(q)[x] }

  /** Requests that hold descriptor `x`. */
  function Holders(rs: seq<Request>, x: nat): nat {
    if rs == [] then 0 else Holders(rs[..|rs| - 1], x) + if rs[|rs| - 1].fd == Some(x) then 1 else 0
  }

  /** Requests whose pending call is `x`. */
  function Binders(rs: seq<Request>, x: nat): nat {
    if rs == [] then 0 else Binders(rs[..|rs| - 1], x) + if rs[|rs| - 1].pending == Some(x) then 1 else 0
  }

  function One(b: bool): nat { if b then 1 else 0 }

  /** How often descriptor `x` is owned: by a request, by finish_cleanup, by a lease, or closed. */
  function Owners(s: State, x: nat): nat {
    Holders(s.requests, x) + Count(s.closeQueue, x) + s.transferred[x] + s.closed[x]
  }

  /** How often call `x` is owned: by a request, by a thread about to cancel it, or cancelled. */
  function Cancellers(s: State, x: nat): nat {
    (if s.finished then 0 else Binders(s.requests, x)) + Count(s.cancelQueue, x) + s.lateBinds[x] + s.cancelled[x]
  }

  ghost predicate Conserved(s: State, x: nat) {
    Owners(s, x) == One(x < s.delivered) && Cancellers(s, x) == One(x < s.bound)
  }

  ghost predicate Shaped(s: State) {
    && |s.requests| <= 2
    && (forall i | 0 <= i < |s.requests| :: s.requests[i].role != Undefined)
    && (forall i, j | 0 <= i < j < |s.requests| ::
          s.requests[i].role != s.requests[j].role && s.requests[i].path != s.requests[j].path)
    && (forall i | 0 <= i < |s.requests| && s.requests[i].fd.Some? :: s.requests[i].replied)
    && (s.finished ==> s.closing && forall i | 0 <= i < |s.requests| :: s.requests[i].fd.None?)
    && (!s.finished ==> s.cancelQueue == [] && s.closeQueue == [])
  }

  lemma UpdateCounts(rs: seq<Request>, i: nat, r: Request, x: nat)
    requires i < |rs|
    ensures Holders(rs[i := r], x) == Holders(rs, x) - (if rs[i].fd == Some(x) then 1 else 0) + if r.fd ==
      Some(x) then 1 else 0
    ensures Binders(rs[i := r], x) == Binders(rs, x) - (if rs[i].pending == Some(x) then 1 else 0) + if r.pending ==
      Some(x) then 1 else 0
  {
    var n := |rs| - 1;
    if i < n {
      assert rs[i := r][..n] == rs[..n][i := r];
      UpdateCounts(rs[..n], i, r, x);
    } else {
      assert rs[i := r][..n] == rs[..n];
    }
  }

  lemma JoinCounts(q: seq<nat>, o: Option<nat>, x: nat)
    ensures Count(q + AsSeq(o), x) == Count(q, x) + One(o == Some(x))
  {
    assert q + AsSeq(o) == if o.Some? then q + [o.value] else q;
  }

  lemma HeldCounts(rs: seq<Request>, x: nat)
    ensures Count(Held(rs), x) == Holders(rs, x)
  {
    if rs != [] {
      HeldCounts(rs[..|rs| - 1], x);
      JoinCounts(Held(rs[..|rs| - 1]), rs[|rs| - 1].fd, x);
    }
  }

  lemma PendingCounts(rs: seq<Request>, x: nat)
    ensures Count(Pendings(rs), x) == Binders(rs, x)
  {
    if rs != [] {
      PendingCounts(rs[..|rs| - 1], x);
      JoinCounts(Pendings(rs[..|rs| - 1]), rs[|rs| - 1].pending, x);
    }
  }

  lemma QueueCounts(q: seq<nat>, x: nat)
    requires q != []
    ensures Count(q, x) == Count(q[1..], x) + if q[0] == x then 1 else 0
  {
    assert q == [q[0]] + q[1..];
  }

  lemma ReplyKeepsShape(s: State, t: nat, fd: Argument, readMtu: Argument, writeMtu: Argument)
    requires Shaped(s)
    ensures Shaped(AfterReply(s, t, fd, readMtu, writeMtu))
  {
    if Awaited(s, t) {
      UpdateKeepsShape(s, t, s.requests[t].(replied := true, fd := Some(s.delivered)));
      UpdateKeepsShape(s, t, s.requests[t].(replied := true, failed := true));
    }
  }

  lemma UpdateKeepsShape(s: State, t: nat, r: Request)
    requires Shaped(s) && t < |s.requests|
    requires r.path == s.requests[t].path && r.role == s.requests[t].role
    requires r.fd.Some? ==> r.replied && (!s.closing || r.fd == s.requests[t].fd)
    ensures Shaped(s.(requests := s.requests[t := r]))
  {
  }

  lemma RegisterKeepsShape(s: State, path: string, role: Role)
    requires Shaped(s)
    ensures Shaped(AfterRegister(s, path, role))
  {}

  lemma BindKeepsShape(s: State, t: nat, callable: bool)
    requires Shaped(s)
    ensures Shaped(AfterBind(s, t, callable))
  {
    if t < |s.requests| {
      UpdateKeepsShape(s, t, s.requests[t].(pending := Some(s.bound)));
    }
  }

  lemma AnswerKeepsShape(s: State, t: nat)
    requires Shaped(s)
    ensures Shaped(AfterFailure(s, t)) && Shaped(AfterTake(s, t))
  {
    if t < |s.requests| {
      UpdateKeepsShape(s, t, s.requests[t].(replied := true, failed := true));
      UpdateKeepsShape(s, t, s.requests[t].(taken := true, fd := None));
    }
  }

  lemma CleanupKeepsShape(s: State, c: nat)
    requires Shaped(s)
    ensures Shaped(s.(closing := true)) && Shaped(AfterLock(s))
    ensures Shaped(AfterCancel(s)) && Shaped(AfterClose(s)) && Shaped(AfterLateCancel(s, c))
  {}

  lemma StepKeepsShape(s: State, op: Op)
    requires Shaped(s)
    ensures Shaped(Step(s, op))
  {
    hide Shaped, AfterRegister, AfterBind, AfterReply, AfterFailure, AfterTake;
    hide AfterLock, AfterCancel, AfterClose, AfterLateCancel;
    match op
    case Register(path, role) => RegisterKeepsShape(s, path, role);
    case Received(t, fd, readMtu, writeMtu) => ReplyKeepsShape(s, t, fd, readMtu, writeMtu);
    case Bind(t, callable) => BindKeepsShape(s, t, callable);
    case Failed(t) => AnswerKeepsShape(s, t);
    case Take(t) => AnswerKeepsShape(s, t);
    case LateCancel(c) => CleanupKeepsShape(s, c);
    case _ => CleanupKeepsShape(s, 0);
  }

  lemma RegisterConserves(s: State, path: string, role: Role, x: nat)
    requires Conserved(s, x)
    ensures Conserved(AfterRegister(s, path, role), x)
  {
    hide Holders, Binders, Refused;
    NewcomerCounts(s.requests, path, role, x);
  }

  lemma NewcomerCounts(rs: seq<Request>, path: string, role: Role, x: nat)
    ensures Holders(rs + [Request(path, role, None, None, false, false, false)], x) == Holders(rs, x)
    ensures Binders(rs + [Request(path, role, None, None, false, false, false)], x) == Binders(rs, x)
  {
    assert (rs + [Request(path, role, None, None, false, false, false)])[..|rs|] == rs;
  }

  lemma BeginConserves(s: State, x: nat)
    requires Conserved(s, x)
    ensures Conserved(s.(closing := true), x)
  {}

  lemma BindConserves(s: State, t: nat, callable: bool, x: nat)
    requires Conserved(s, x)
    ensures Conserved(AfterBind(s, t, callable), x)
  {
    if t < |s.requests| {
      UpdateCounts(s.requests, t, s.requests[t].(pending := Some(s.bound)), x);
    }
  }

  lemma DropConserves(s: State, fd: Argument, x: nat)
    requires Conserved(s, x)
    ensures Conserved(Dropped(s, fd), x)
  {
  }

  lemma RefusalConserves(s: State, t: nat, fd: Argument, x: nat)
    requires Conserved(s, x) && t < |s.requests|
    ensures Conserved(Dropped(s.(requests := s.requests[t := s.requests[t].(replied := true, failed := true)]), fd), x)
  {
    hide Holders, Binders;
    var r := s.requests[t].(replied := true, failed := true);
    UpdateCounts(s.requests, t, r, x);
    DropConserves(s.(requests := s.requests[t := r]), fd, x);
  }

  lemma KeepingConserves(s: State, t: nat, x: nat)
    requires Conserved(s, x) && t < |s.requests| && s.requests[t].fd.None?
    ensures Conserved(
      s.(delivered := s.delivered +
        1, requests := s.requests[t := s.requests[t].(replied := true, fd := Some(s.delivered))]), x)
  {
    hide Holders, Binders;
    UpdateCounts(s.requests, t, s.requests[t].(replied := true, fd := Some(s.delivered)), x);
  }

  lemma ReplyConserves(s: State, t: nat, fd: Argument, readMtu: Argument, writeMtu: Argument, x: nat)
    requires Shaped(s) && Conserved(s, x)
    ensures Conserved(AfterReply(s, t, fd, readMtu, writeMtu), x)
  {
    hide Conserved, Dropped;
    DropConserves(s, fd, x);
    if Awaited(s, t) {
      RefusalConserves(s, t, fd, x);
      KeepingConserves(s, t, x);
    }
  }

  lemma TakeConserves(s: State, t: nat, x: nat)
    requires Conserved(s, x)
    ensures Conserved(AfterTake(s, t), x)
    ensures Conserved(AfterFailure(s, t), x)
  {
    if t < |s.requests| {
      UpdateCounts(s.requests, t, s.requests[t].(taken := true, fd := None), x);
      UpdateCounts(s.requests, t, s.requests[t].(replied := true, failed := true), x);
    }
  }

  lemma CleanupConserves(s: State, x: nat)
    requires Conserved(s, x)
    ensures Conserved(AfterCancel(s), x)
    ensures Conserved(AfterClose(s), x)
  {
    if s.cancelQueue != [] {
      QueueCounts(s.cancelQueue, x);
    }
    if s.closeQueue != [] {
      QueueCounts(s.closeQueue, x);
    }
  }

  lemma LockConserves(s: State, x: nat)
    requires Shaped(s) && Conserved(s, x)
    ensures Conserved(AfterLock(s), x)
  {
    HeldCounts(s.requests, x);
    PendingCounts(s.requests, x);
    NoHolders(Emptied(s.requests), x);
  }

  lemma LateConserves(s: State, c: nat, x: nat)
    requires Conserved(s, x)
    ensures Conserved(AfterLateCancel(s, c), x)
  {
  }

  /** What every step of every thread keeps, for every descriptor and every call `x`. */
  lemma StepConserves(s: State, op: Op, x: nat)
    requires Shaped(s) && Conserved(s, x)
    ensures Conserved(Step(s, op), x)
  {
    hide Shaped, Conserved, AfterRegister, AfterBind, AfterReply, AfterFailure, AfterTake;
    hide AfterLock, AfterCancel, AfterClose, AfterLateCancel;
    match op
    case Register(path, role) => RegisterConserves(s, path, role, x);
    case Bind(t, callable) => BindConserves(s, t, callable, x);
    case Received(t, fd, readMtu, writeMtu) => ReplyConserves(s, t, fd, readMtu, writeMtu, x);
    case Failed(t) => TakeConserves(s, t, x);
    case Take(t) => TakeConserves(s, t, x);
    case FinishLocked => LockConserves(s, x);
    case LateCancel(c) => LateConserves(s, c, x);
    case FinishCancel => CleanupConserves(s, x);
    case FinishClose => CleanupConserves(s, x);
    case BeginCleanup => BeginConserves(s, x);
  }

  /**
   Over every interleaving, at every moment: an arrived descriptor is in exactly
   one place and there once, and likewise a bound call.
   */
  lemma {:induction false} EveryRunConserves(ops: seq<Op>, x: nat)
    ensures var s := Run(Initial, ops); Shaped(s) && Conserved(s, x)
  {
    if ops != [] {
      var s := Run(Initial, ops[..|ops| - 1]);
      EveryRunConserves(ops[..|ops| - 1], x);
      StepKeepsShape(s, ops[|ops| - 1]);
      StepConserves(s, ops[|ops| - 1], x);
    }
  }

  lemma NoHolders(rs: seq<Request>, x: nat)
    requires forall i | 0 <= i < |rs| :: rs[i].fd.None?
    ensures Holders(rs, x) == 0
  {
  }

  /** Once cleanup is over nothing is held: each descriptor went one way once, each call was cancelled once. */
  lemma NothingLeftAfterCleanup(ops: seq<Op>, x: nat)
    requires var s := Run(Initial, ops);
      s.finished && s.cancelQueue == [] && s.closeQueue == [] && s.lateBinds == multiset{}
    ensures var s := Run(Initial, ops);
      && Holders(s.requests, x) == 0
      && s.transferred[x] + s.closed[x] == One(x < s.delivered)
      && s.cancelled[x] == One(x < s.bound)
  {
    EveryRunConserves(ops, x);
    NoHolders(Run(Initial, ops).requests, x);
  }

  /** Left alone, finish_cleanup cancels and closes exactly what it took over. */
  lemma {:induction false} SettledCounts(s: State, x: nat)
    ensures Settled(s) == s.(cancelQueue := [], closeQueue := [], cancelled := Settled(s).cancelled,
      closed := Settled(s).closed)
    ensures Settled(s).cancelled[x] == s.cancelled[x] + Count(s.cancelQueue, x)
    ensures Settled(s).closed[x] == s.closed[x] + Count(s.closeQueue, x)
    decreases |s.cancelQueue| + |s.closeQueue|
  {
    if s.cancelQueue != [] {
      QueueCounts(s.cancelQueue, x);
      SettledCounts(AfterCancel(s), x);
    } else if s.closeQueue != [] {
      QueueCounts(s.closeQueue, x);
      SettledCounts(AfterClose(s), x);
    }
  }

  lemma UntakenSame(rs: seq<Request>, rs': seq<Request>, role: Role)
    requires |rs| == |rs'|
    requires forall i | 0 <= i < |rs| :: rs[i].taken == rs'[i].taken && rs[i].role == rs'[i].role
    ensures UntakenOf(rs, role) == UntakenOf(rs', role)
  {
    if rs != [] {
      UntakenSame(rs[..|rs| - 1], rs'[..|rs| - 1], role);
    }
  }

  /** Same requests in the same order, the same of them taken. */
  ghost predicate SameTaken(rs: seq<Request>, rs': seq<Request>) {
    |rs| == |rs'| && forall i | 0 <= i < |rs| :: rs[i].taken == rs'[i].taken && rs[i].role == rs'[i].role
  }

  lemma ClosingIsFinal(s: State, op: Op)
    requires s.closing
    ensures Step(s, op).closing && Step(s, op).transferred == s.transferred
    ensures SameTaken(s.requests, Step(s, op).requests)
  {
  }

  /** The list begin_cleanup returned stays exactly the never-taken requests, whatever runs afterwards. */
  lemma {:induction false} UntakenIsFinal(s: State, ops: seq<Op>)
    requires s.closing
    ensures Run(s, ops).closing && Run(s, ops).transferred == s.transferred
    ensures SameTaken(s.requests, Run(s, ops).requests)
    ensures Untaken(Run(s, ops).requests) == Untaken(s.requests)
  {
    if ops != [] {
      UntakenIsFinal(s, ops[..|ops| - 1]);
      ClosingIsFinal(Run(s, ops[..|ops| - 1]), ops[|ops| - 1]);
    }
    UntakenSame(s.requests, Run(s, ops).requests, Source);
    UntakenSame(s.requests, Run(s, ops).requests, Sink);
  }

  lemma UntakenOfCount(rs: seq<Request>, role: Role, t: nat)
    ensures Count(UntakenOf(rs, role), t) == if t < |rs| && !rs[t].taken && rs[t].role == role then 1 else 0
  {
    if rs != [] {
      UntakenOfCount(rs[..|rs| - 1], role, t);
    }
  }

  /** With the roles registration admits, the list names every untaken request and no other, each once. */
  lemma UntakenIsExact(rs: seq<Request>, t: nat)
    requires forall i | 0 <= i < |rs| :: rs[i].role != Undefined
    ensures Count(Untaken(rs), t) == if t < |rs| && !rs[t].taken then 1 else 0
  {
    UntakenOfCount(rs, Source, t);
    UntakenOfCount(rs, Sink, t);
  }

  // ---- when a descriptor is handed over, told from the history alone -------

  predicate Closes(op: Op) { op.BeginCleanup? || op.FinishLocked? }

  ghost predicate Open(ops: seq<Op>) {
    forall j | 0 <= j < |ops| :: !Closes(ops[j])
  }

  /** The k-th step answers the registered request `t`: a failure, or a reply before any cleanup. */
  ghost predicate Heard(ops: seq<Op>, k: nat, t: nat) {
    && k < |ops| && t < |Run(Initial, ops[..k]).requests|
    && (ops[k] == Failed(t) || (ops[k].Received? && ops[k].token == t && Open(ops[..k])))
  }

  ghost predicate Unheard(ops: seq<Op>, t: nat) {
    forall k: nat :: !Heard(ops, k, t)
  }

  predicate SoundReply(op: Op) {
    op.Received? && Sound(op.fd, op.readMtu, op.writeMtu)
  }

  /** The k-th step is the first answer to `t`, a sound reply, and nobody asked for its descriptor since. */
  ghost predicate Waiting(ops: seq<Op>, k: nat, t: nat) {
    && Heard(ops, k, t) && SoundReply(ops[k])
    && (forall j: nat | j < k :: !Heard(ops, j, t))
    && (forall j | k < j < |ops| :: ops[j] != Take(t))
  }

  /** What an answer at this moment is. */
  ghost predicate HeardNow(s: State, op: Op, t: nat) {
    t < |s.requests| && (op == Failed(t) || (op.Received? && op.token == t && !s.closing))
  }

  lemma RunSnoc(ops: seq<Op>, op: Op)
    ensures Run(Initial, ops + [op]) == Step(Run(Initial, ops), op)
  {
    assert (ops + [op])[..|ops|] == ops;
  }

  lemma HeardExtends(ops: seq<Op>, op: Op, k: nat, t: nat)
    requires Run(Initial, ops).closing <==> !Open(ops)
    ensures Heard(ops + [op], k, t) <==>
      if k == |ops| then HeardNow(Run(Initial, ops), op, t) else Heard(ops, k, t)
  {
    hide Open, Run;
    if k <= |ops| {
      assert (ops + [op])[..k] == ops[..k];
      assert ops[..|ops|] == ops;
    }
  }

  lemma WaitingExtends(ops: seq<Op>, op: Op, k: nat, t: nat)
    requires Run(Initial, ops).closing <==> !Open(ops)
    ensures Waiting(ops + [op], k, t) <==>
      if k == |ops| then HeardNow(Run(Initial, ops), op, t) && SoundReply(op) && Unheard(ops, t)
      else Waiting(ops, k, t) && op != Take(t)
  {
    hide Heard, HeardNow, Open, Run;
    forall j: nat ensures Heard(ops + [op], j, t) <==>
      if j == |ops| then HeardNow(Run(Initial, ops), op, t) else Heard(ops, j, t)
    {
      HeardExtends(ops, op, j, t);
    }
    if k == |ops| {
      HeardInRange(ops, t);
    } else if k < |ops| {
      assert (ops + [op])[|ops|] == op;
      assert forall j | 0 <= j < |ops| :: (ops + [op])[j] == ops[j];
    } else {
      HeardInRange(ops, t);
    }
  }

  lemma HeardInRange(ops: seq<Op>, t: nat)
    ensures forall k: nat | Heard(ops, k, t) :: k < |ops|
  {
  }

  /** What the fields of a request say about its past. */
  ghost predicate Story(ops: seq<Op>, s: State, t: nat) {
    && (s.closing <==> !Open(ops)) && (s.finished ==> s.closing)
    && (t >= |s.requests| ==> Unheard(ops, t))
    && (t < |s.requests| ==> Told(ops, s.requests[t], s.closing, t))
  }

  ghost predicate Told(ops: seq<Op>, r: Request, closing: bool, t: nat) {
    && (r.replied <==> !Unheard(ops, t))
    && (!r.replied ==> !r.failed && !r.taken && r.fd.None?)
    && (r.fd.Some? ==> !r.failed && !r.taken)
    && (!closing ==> (r.fd.Some? <==> exists k: nat :: Waiting(ops, k, t)))
  }

  /** Registration is the one step that adds a request. */
  lemma ListStep(s: State, op: Op, t: nat)
    requires s.finished ==> s.closing
    ensures Step(s, op).finished ==> Step(s, op).closing
    ensures Step(s, op).closing <==> s.closing || Closes(op)
    ensures |s.requests| <= |Step(s, op).requests|
    ensures |s.requests| <= t < |Step(s, op).requests| ==>
      && op.Register?
      && Step(s, op).requests[t] == Request(op.path, op.role, None, None, false, false, false)
  {
    hide Pendings, Held, Refused, Emptied;
    match op
    case FinishLocked => EmptiedAt(s.requests);
    case Received(_, _, _, _) =>
    case _ =>
  }

  lemma EmptiedAt(rs: seq<Request>)
    ensures |Emptied(rs)| == |rs| && forall i | 0 <= i < |rs| :: Emptied(rs)[i] == rs[i].(fd := None)
  {
  }

  /** What one step may do to one request. */
  ghost predicate Moves(s: State, op: Op, t: nat, r: Request, r': Request) {
    && (r'.replied <==> r.replied || HeardNow(s, op, t))
    && (r.fd.None? && r.replied ==> r'.fd.None?)
    && (r'.fd.Some? ==> r.fd.Some? || (!r.replied && r'.replied))
    && (r'.failed ==> r.failed || (!r.replied && r'.replied && r'.fd == r.fd))
    && (r'.taken ==> r.taken || (r.fd.Some? && r'.fd.None?))
  }

  lemma TokenStep(s: State, op: Op, t: nat)
    requires t < |s.requests| && (s.finished ==> s.closing)
    ensures |s.requests| <= |Step(s, op).requests| && Moves(s, op, t, s.requests[t], Step(s, op).requests[t])
  {
    hide *;
    ListStep(s, op, t);
    match op
    case Received(_, _, _, _) => ReplyStep(s, op, t);
    case Take(_) => AnswerStep(s, op, t);
    case Failed(_) => AnswerStep(s, op, t);
    case FinishLocked => LockStep(s, op, t);
    case _ => PlainStep(s, op, t);
  }

  lemma AnswerStep(s: State, op: Op, t: nat)
    requires t < |s.requests| && (op.Take? || op.Failed?)
    ensures Moves(s, op, t, s.requests[t], Step(s, op).requests[t])
  {
  }

  lemma LockStep(s: State, op: Op, t: nat)
    requires t < |s.requests| && op.FinishLocked?
    ensures |s.requests| <= |Step(s, op).requests| && Moves(s, op, t, s.requests[t], Step(s, op).requests[t])
  {
    hide Pendings, Held, Emptied;
    EmptiedAt(s.requests);
  }

  lemma PlainStep(s: State, op: Op, t: nat)
    requires t < |s.requests| && !op.Received? && !op.Take? && !op.Failed? && !op.FinishLocked?
    ensures |s.requests| <= |Step(s, op).requests| && Moves(s, op, t, s.requests[t], Step(s, op).requests[t])
  {
  }

  lemma ReplyStep(s: State, op: Op, t: nat)
    requires t < |s.requests| && op.Received?
    ensures Moves(s, op, t, s.requests[t], Step(s, op).requests[t])
  {
  }

  /** A request holds a descriptor from its sound first reply until it is asked for. */
  lemma HoldingStep(s: State, op: Op, t: nat)
    requires t < |s.requests| && !s.closing && !Closes(op)
    requires var r := s.requests[t]; r.fd.Some? ==> r.replied && !r.failed && !r.taken
    ensures var r, r' := s.requests[t], Step(s, op).requests[t];
      r'.fd.Some? <==>
      (r.fd.Some? && op != Take(t)) || (HeardNow(s, op, t) && SoundReply(op) && !r.replied)
  {
    hide Pendings, Held, Refused, Emptied, Dropped;
    match op
    case Take(_) =>
    case Received(_, _, _, _) => ReplyHolds(s, op, t);
    case _ =>
  }

  lemma ReplyHolds(s: State, op: Op, t: nat)
    requires t < |s.requests| && op.Received? && !s.closing
    requires s.requests[t].fd.Some? ==> s.requests[t].replied
    ensures var r, r' := s.requests[t], Step(s, op).requests[t];
      r'.fd.Some? <==> r.fd.Some? || (HeardNow(s, op, t) && SoundReply(op) && !r.replied)
  {
  }

  lemma StoryStart(t: nat)
    ensures Story([], Initial, t)
  {
  }

  lemma OpenSnoc(ops: seq<Op>, op: Op)
    ensures Open(ops + [op]) <==> Open(ops) && !Closes(op)
  {
    assert (ops + [op])[|ops|] == op;
    assert forall j | 0 <= j < |ops| :: (ops + [op])[j] == ops[j];
  }

  lemma UnheardSnoc(ops: seq<Op>, op: Op, t: nat)
    requires Run(Initial, ops).closing <==> !Open(ops)
    ensures Unheard(ops + [op], t) <==> Unheard(ops, t) && !HeardNow(Run(Initial, ops), op, t)
  {
    hide Heard, HeardNow, Open, Run;
    forall k: nat ensures Heard(ops + [op], k, t) <==>
      if k == |ops| then HeardNow(Run(Initial, ops), op, t) else Heard(ops, k, t)
    {
      HeardExtends(ops, op, k, t);
    }
    HeardInRange(ops, t);
    if Unheard(ops + [op], t) {
      assert !Heard(ops + [op], |ops|, t);
      forall k: nat ensures !Heard(ops, k, t) {
        assert !Heard(ops + [op], k, t);
      }
    }
  }

  lemma WaitingSnoc(ops: seq<Op>, op: Op, t: nat)
    requires Run(Initial, ops).closing <==> !Open(ops)
    ensures (exists k: nat :: Waiting(ops + [op], k, t)) <==>
      || ((exists k: nat :: Waiting(ops, k, t)) && op != Take(t))
      || (HeardNow(Run(Initial, ops), op, t) && SoundReply(op) && Unheard(ops, t))
  {
    hide Waiting, HeardNow, Open, Run, Unheard;
    forall k: nat ensures Waiting(ops + [op], k, t) <==>
      if k == |ops| then HeardNow(Run(Initial, ops), op, t) && SoundReply(op) && Unheard(ops, t)
      else Waiting(ops, k, t) && op != Take(t)
    {
      WaitingExtends(ops, op, k, t);
    }
    WaitingInRange(ops, t);
    if k: nat :| Waiting(ops, k, t) && op != Take(t) {
      assert Waiting(ops + [op], k, t);
    }
    if HeardNow(Run(Initial, ops), op, t) && SoundReply(op) && Unheard(ops, t) {
      assert Waiting(ops + [op], |ops|, t);
    }
  }

  lemma WaitingInRange(ops: seq<Op>, t: nat)
    ensures forall k: nat | Waiting(ops, k, t) :: k < |ops|
    ensures Unheard(ops, t) ==> forall k: nat :: !Waiting(ops, k, t)
  {
  }

  lemma StoryStep(ops: seq<Op>, op: Op, t: nat)
    requires Story(ops, Run(Initial, ops), t)
    ensures Story(ops + [op], Step(Run(Initial, ops), op), t)
  {
    hide Unheard, Waiting, HeardNow, Open, Run, Step, SoundReply, Closes;
    var s := Run(Initial, ops);
    OpenSnoc(ops, op);
    UnheardSnoc(ops, op, t);
    WaitingSnoc(ops, op, t);
    ListStep(s, op, t);
    WaitingInRange(ops, t);
    WaitingInRange(ops + [op], t);
    if t < |s.requests| {
      TokenStep(s, op, t);
    }
    HeardNowMeans(s, op, t);
    if t < |s.requests| && !s.closing && !Closes(op) {
      HoldingStep(s, op, t);
    }
  }

  lemma HeardNowMeans(s: State, op: Op, t: nat)
    ensures HeardNow(s, op, t) ==> t < |s.requests|
  {
  }

  lemma {:induction false} EveryRunTells(ops: seq<Op>, t: nat)
    ensures Story(ops, Run(Initial, ops), t)
  {
    hide Story, Step;
    if ops == [] {
      StoryStart(t);
    } else {
      var before, op := ops[..|ops| - 1], ops[|ops| - 1];
      assert ops == before + [op];
      EveryRunTells(before, t);
      StoryStep(before, op, t);
      RunSnoc(before, op);
    }
  }

  /**
   `take` hands over exactly when no cleanup has begun and the first answer to
   the request was a sound reply whose descriptor nobody has taken yet.
   */
  lemma ReadyMeans(ops: seq<Op>, t: nat)
    ensures Ready(Run(Initial, ops), t) <==> Open(ops) && exists k: nat :: Waiting(ops, k, t)
  {
    hide Waiting, Open, Run;
    EveryRunTells(ops, t);
    WaitingInRange(ops, t);
  }

  /** A reply is kept exactly for a registered request without an answer, before any cleanup. */
  lemma AwaitedMeans(ops: seq<Op>, t: nat)
    ensures Awaited(Run(Initial, ops), t) <==> Open(ops) && t < |Run(Initial, ops).requests| && Unheard(ops, t)
  {
    hide Waiting, Open, Run, Unheard;
    EveryRunTells(ops, t);
  }

  lemma SettledSteps(s: State)
    ensures s.cancelQueue != [] ==> Settled(s) == Settled(AfterCancel(s))
    ensures s.cancelQueue == [] && s.closeQueue != [] ==> Settled(s) == Settled(AfterClose(s))
    ensures s.cancelQueue == [] && s.closeQueue == [] ==> Settled(s) == s
  {
    hide AfterCancel, AfterClose;
  }

  lemma FailsSteps(fails: nat -> bool, n: nat)
    ensures Fails(fails, 0) == 0
    ensures n > 0 ==> Fails(fails, n) == Fails(fails, n - 1) + One(fails(n - 1))
  {
  }

  /** How many of the calls fail, the last one being number 0. */
  function Fails(fails: nat -> bool, n: nat): nat {
    if n == 0 then 0 else Fails(fails, n - 1) + One(fails(n - 1))
  }

  /** The class itself: each locked section is the step of the same name. */
  class AcquireOwner {
    var requests: seq<Request>
    var closing: bool
    var finished: bool
    var errors: nat
    var cancelQueue: seq<nat>
    var closeQueue: seq<nat>
    var lateBinds: multiset<nat>
    var delivered: nat
    var bound: nat
    var transferred: multiset<nat>
    var closed: multiset<nat>
    var cancelled: multiset<nat>

    function View(): State reads this {
      State(requests, closing, finished, cancelQueue, closeQueue, lateBinds, delivered, bound, transferred, closed,
        cancelled)
    }

    constructor ()
      ensures View() == Initial && errors == 0
    {
      requests, closing, finished, errors, cancelQueue, closeQueue := [], false, false, 0, [], [];
      lateBinds, delivered, bound, transferred, closed, cancelled :=
        multiset{}, 0, 0, multiset{}, multiset{}, multiset{};
    }

    method Register(path: string, role: Role) returns (token: Option<nat>)
      modifies this
      ensures View() == AfterRegister(old(View()), path, role) && errors == old(errors)
      ensures token == if old(Refused(View(), path, role)) then None else Some(old(|requests|))
    {
      if closing || path == "" || role == Undefined || |requests| >= 2 ||
         exists i :: 0 <= i < |requests| && (requests[i].path == path || requests[i].role == role) {
        return None;
      }
      token := Some(|requests|);
      requests := requests + [Request(path, role, None, None, false, false, false)];
    }

    method Bind(token: nat, callable: bool) returns (raised: bool)
      modifies this
      ensures View() == AfterBind(old(View()), token, callable) && errors == old(errors)
      ensures raised <==> old(token >= |requests| || !callable || requests[token].pending.Some?)
    {
      if token >= |requests| || !callable || requests[token].pending.Some? {
        return true;
      }
      if finished {
        lateBinds := lateBinds + multiset{bound};
      } else {
        requests := requests[token := requests[token].(pending := Some(bound))];
      }
      bound := bound + 1;
      raised := false;
    }

    method Received(
      token: nat, fd: Argument, readMtu: Argument, writeMtu: Argument, closeFails: bool)
      returns (raised: bool)
      modifies this
      ensures View() == AfterReply(old(View()), token, fd, readMtu, writeMtu)
      ensures raised == !(old(Awaited(View(), token)) && Sound(fd, readMtu, writeMtu))
      ensures errors == old(errors) + One(!old(Awaited(View(), token))) + One(raised && Natural(fd) && closeFails)
    {
      if token < |requests| && !closing && !requests[token].replied {
        if Sound(fd, readMtu, writeMtu) {
          requests := requests[token := requests[token].(replied := true, fd := Some(delivered))];
          delivered := delivered + 1;
          return false;
        }
        requests := requests[token := requests[token].(replied := true, failed := true)];
      } else {
        errors := errors + 1;
      }
      Drop(fd, closeFails);
      raised := true;
    }

    method Drop(fd: Argument, closeFails: bool)
      modifies this`delivered, this`closed, this`errors
      ensures View() == Dropped(old(View()), fd) && errors == old(errors) + One(Natural(fd) && closeFails)
    {
      if Natural(fd) {
        closed := closed + multiset{delivered};
        delivered := delivered + 1;
        errors := errors + if closeFails then 1 else 0;
      }
    }

    method Failed(token: nat) returns (raised: bool)
      modifies this
      ensures View() == AfterFailure(old(View()), token)
      ensures raised <==> token >= |requests|
      ensures errors == old(errors) + One(!raised && old(token < |requests| && requests[token].replied))
    {
      if token >= |requests| {
        return true;
      }
      raised := false;
      if requests[token].replied {
        errors := errors + 1;
        return;
      }
      requests := requests[token := requests[token].(replied := true, failed := true)];
    }

    method Take(token: nat) returns (lease: Option<nat>)
      modifies this
      ensures View() == AfterTake(old(View()), token) && errors == old(errors)
      ensures lease == if old(Ready(View(), token)) then old(requests[token].fd) else None
    {
      if token >= |requests| || closing || !requests[token].replied || requests[token].failed ||
         requests[token].taken || requests[token].fd.None? {
        return None;
      }
      lease := requests[token].fd;
      requests := requests[token := requests[token].(taken := true, fd := None)];
      transferred := transferred + multiset{lease.value};
    }

    method BeginCleanup() returns (untaken: seq<nat>)
      modifies this
      ensures View() == old(View()).(closing := true) && errors == old(errors)
      ensures untaken == Untaken(requests)
    {
      closing := true;
      untaken := Untaken(requests);
    }

    /** The first locked section of finish_cleanup; false when cleanup was done before. */
    method FinishLocked() returns (mine: bool)
      modifies this`closing, this`finished, this`cancelQueue, this`closeQueue, this`requests
      ensures View() == AfterLock(old(View())) && errors == old(errors)
      ensures mine <==> !old(finished)
    {
      hide Pendings, Held, Emptied;
      if finished {
        return false;
      }
      mine, closing, finished := true, true, true;
      cancelQueue, closeQueue, requests := Pendings(requests), Held(requests), Emptied(requests);
    }

    /** finish_cleanup run to its end with no other thread in between. */
    method FinishCleanup(cancelFails: nat -> bool, closeFails: nat -> bool) returns (failures: nat)
      modifies this
      ensures View() == if old(finished) then old(View()) else Settled(AfterLock(old(View())))
      ensures errors == old(errors) + failures
      ensures failures == if old(finished) then 0
        else Fails(cancelFails, |Pendings(old(requests))|) + Fails(closeFails, |Held(old(requests))|)
    {
      hide Pendings, Held, Emptied, Settled;
      var mine := FinishLocked();
      if !mine {
        return 0;
      }
      ghost var pending, held := cancelQueue, closeQueue;
      failures := CancelAll(cancelFails);
      var more := CloseAll(closeFails);
      failures := failures + more;
      errors := errors + failures;
    }

    method CancelAll(fails: nat -> bool) returns (failures: nat)
      modifies this`cancelQueue, this`cancelled
      ensures Settled(View()) == Settled(old(View())) && cancelQueue == []
      ensures failures == Fails(fails, |old(cancelQueue)|)
    {
      hide Settled, Fails;
      failures := 0;
      FailsSteps(fails, 0);
      while cancelQueue != []
        invariant failures + Fails(fails, |cancelQueue|) == Fails(fails, |old(cancelQueue)|)
        invariant Settled(View()) == Settled(old(View()))
        decreases |cancelQueue|
      {
        ghost var before := View();
        SettledSteps(before);
        FailsSteps(fails, |cancelQueue|);
        cancelled, cancelQueue := cancelled + multiset{cancelQueue[0]}, cancelQueue[1..];
        assert View() == AfterCancel(before);
        failures := failures + One(fails(|cancelQueue|));
      }
    }

    method CloseAll(fails: nat -> bool) returns (failures: nat)
      requires cancelQueue == []
      modifies this`closeQueue, this`closed
      ensures View() == Settled(old(View()))
      ensures failures == Fails(fails, |old(closeQueue)|)
    {
      hide Settled, Fails;
      failures := 0;
      FailsSteps(fails, 0);
      while closeQueue != []
        invariant failures + Fails(fails, |closeQueue|) == Fails(fails, |old(closeQueue)|)
        invariant Settled(View()) == Settled(old(View()))
        decreases |closeQueue|
      {
        ghost var before := View();
        SettledSteps(before);
        FailsSteps(fails, |closeQueue|);
        closed, closeQueue := closed + multiset{closeQueue[0]}, closeQueue[1..];
        assert View() == AfterClose(before);
        failures := failures + One(fails(|closeQueue|));
      }
      SettledSteps(View());
    }
  }
}
