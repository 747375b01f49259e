/**
 Admission at the media endpoint: which selections and configurations are accepted.

 The callbacks of one endpoint run one at a time.  A configuration's channel allocation is
 given as parsed.  What matters is strict mono: never two transports, never another channel
 than the one selected.
 */
module Endpoint {
  import opened Common

  datatype Transport = Transport(path: string, channel: int, fd: Option<int>)

  datatype State = State(
    mono: bool, reservation: Option<int>, transports: seq<Transport>, pending: seq<Transport>,
    configDone: bool, closed: seq<int>)

  datatype Call =
    | SelectProperties(channels: int)
    | SetConfiguration(path: string, allocation: int)
    | ClearConfiguration(path: string)
    | Release

  const FL := 1
  const FR := 2

  predicate OneChannel(c: int) { c == FL || c == FR }

  function Fresh(mono: bool): State { State(mono, None, [], [], false, []) }

  // ---- what each callback does -------------------------------------------

  predicate Full(s: State) { |s.pending| + |s.transports| >= 1 }

  /** Whether the callback returns; the last two never refuse. */
  predicate Accepts(s: State, call: Call) {
    match call
    case SelectProperties(c) =>
      !s.mono || (!Full(s) && (s.reservation.None? || s.reservation == Some(c)) && OneChannel(c))
    case SetConfiguration(_, c) =>
      !s.mono || (!Full(s) && OneChannel(c) && (s.reservation.None? || s.reservation == Some(c)))
    case ClearConfiguration(_) => true
    case Release => true
  }

  function Fds(ts: seq<Transport>): seq<int> {
    if ts == [] then [] else (if ts[0].fd.Some? then [ts[0].fd.value] else []) + Fds(ts[1..])
  }

  /** The first record of that path, if any. */
  function Lookup(ts: seq<Transport>, path: string): (r: Option<Transport>)
    ensures r.Some? ==> r.value in ts && r.value.path == path
    ensures r.None? ==> forall t | t in ts :: t.path != path
  {
    if ts == [] then None else if ts[0].path == path then Some(ts[0]) else Lookup(ts[1..], path)
  }

  function Without(ts: seq<Transport>, t: Transport): (r: seq<Transport>)
    ensures |r| == if t in ts then |ts| - 1 else |ts|
    ensures forall x | x in r :: x in ts
  {
    if ts == [] then [] else if ts[0] == t then ts[1..] else [ts[0]] + Without(ts[1..], t)
  }

  lemma LookupNext(all: seq<Transport>, i: nat, path: string)
    requires i < |all|
    ensures Lookup(all[i..], path) == if all[i].path == path then Some(all[i]) else Lookup(all[i + 1..], path)
  {
    assert all[i..][1..] == all[i + 1..];
  }

  lemma FdsNext(all: seq<Transport>, i: nat)
    requires i < |all|
    ensures Fds(all[i..]) == Fds([all[i]]) + Fds(all[i + 1..])
    ensures Fds([all[i]]) == if all[i].fd.Some? then [all[i].fd.value] else []
  {
    assert all[i..][1..] == all[i + 1..];
    assert [all[i]][1..] == [];
  }

  lemma NothingLeft(path: string)
    ensures Fds([]) == [] && Lookup([], path) == None
  {}

  function Cleared(s: State, path: string): State {
    match Lookup(s.transports + s.pending, path)
    case None => s
    case Some(t) => s.(transports := Without(s.transports, t), pending := Without(s.pending, t), closed := s.closed +
      Fds([t]))
  }

  function Step(s: State, call: Call): State {
    if !Accepts(s, call) then s
    else
      match call
      case SelectProperties(c) => if s.mono then s.(reservation := Some(c)) else s
      case SetConfiguration(path, c) =>
        s.(pending := s.pending + [Transport(path, c, None)], configDone := true, reservation := if s.mono
          then None else s.reservation)
      case ClearConfiguration(path) => Cleared(s, path)
      case Release => State(s.mono, None, [], [], false, s.closed + Fds(s.transports + s.pending))
  }

  function Run(s: State, calls: seq<Call>): State {
    if calls == [] then s else Step(Run(s, calls[..|calls| - 1]), calls[|calls| - 1])
  }

  /** Call `k` of a run was accepted. */
  predicate AcceptedAt(s: State, calls: seq<Call>, k: nat) requires k < |calls| {
    Accepts(Run(s, calls[..k]), calls[k])
  }

  // ---- strict mono over every run ----------------------------------------

  /** At most one transport, one channel, and a reservation only while nothing is accepted. */
  ghost predicate StrictMono(s: State) {
    && |s.pending| + |s.transports| <= 1
    && (forall t | t in s.pending + s.transports :: OneChannel(t.channel))
    && (s.reservation.Some? ==> OneChannel(s.reservation.value) && !Full(s))
  }

  lemma StepKeepsMono(s: State, call: Call)
    requires s.mono && StrictMono(s)
    ensures Step(s, call).mono && StrictMono(Step(s, call))
    ensures !Accepts(s, call) ==> Step(s, call) == s
  {
    var next := Step(s, call);
    if call.ClearConfiguration? {
      assert forall t | t in next.pending :: t in s.pending;
      assert forall t | t in next.transports :: t in s.transports;
    }
  }

  /** Every sequence of callbacks from a fresh mono endpoint stays strictly mono. */
  lemma {:induction false} EveryRunIsMono(calls: seq<Call>)
    ensures Run(Fresh(true), calls).mono && StrictMono(Run(Fresh(true), calls))
  {
    if calls != [] {
      EveryRunIsMono(calls[..|calls| - 1]);
      StepKeepsMono(Run(Fresh(true), calls[..|calls| - 1]), calls[|calls| - 1]);
    }
  }

  // ---- what the reservation stands for -----------------------------------

  predicate Ends(call: Call) { call.SetConfiguration? || call.Release? }

  /** The last selection that was accepted and not yet used up. */
  ghost predicate OpenSelection(calls: seq<Call>, k: nat, c: int) {
    && k < |calls| && calls[k] == SelectProperties(c) && AcceptedAt(Fresh(true), calls, k)
    && forall j: nat | k < j < |calls| :: !UsedUp(calls, j)
  }

  lemma AcceptedEarlier(calls: seq<Call>, call: Call, k: nat)
    requires k < |calls|
    ensures AcceptedAt(Fresh(true), calls + [call], k) <==> AcceptedAt(Fresh(true), calls, k)
  {
    assert (calls + [call])[..k] == calls[..k];
  }

  lemma AcceptedLast(calls: seq<Call>, call: Call)
    ensures AcceptedAt(Fresh(true), calls + [call], |calls|) <==> Accepts(Run(Fresh(true), calls), call)
    ensures Run(Fresh(true), calls + [call]) == Step(Run(Fresh(true), calls), call)
  {
    assert (calls + [call])[..|calls|] == calls;
  }

  /** Call `j` was accepted and used up any open selection. */
  ghost predicate UsedUp(calls: seq<Call>, j: nat) {
    j < |calls| && Ends(calls[j]) && AcceptedAt(Fresh(true), calls, j)
  }

  lemma UsedUpExtends(calls: seq<Call>, call: Call, j: nat)
    ensures UsedUp(calls + [call], j) <==>
      if j == |calls| then Ends(call) && Accepts(Run(Fresh(true), calls), call) else UsedUp(calls, j)
  {
    hide AcceptedAt, Accepts, Run;
    if j < |calls| {
      AcceptedEarlier(calls, call, j);
    }
    AcceptedLast(calls, call);
  }

  lemma OpenExtends(calls: seq<Call>, call: Call, k: nat, c: int)
    requires k < |calls|
    ensures OpenSelection(calls + [call], k, c) <==>
      OpenSelection(calls, k, c) && !(Ends(call) && Accepts(Run(Fresh(true), calls), call))
  {
    hide AcceptedAt, Accepts, Run, UsedUp;
    forall j: nat ensures UsedUp(calls + [call], j) <==>
      if j == |calls| then Ends(call) && Accepts(Run(Fresh(true), calls), call) else UsedUp(calls, j)
    {
      UsedUpExtends(calls, call, j);
    }
    AcceptedEarlier(calls, call, k);
    if OpenSelection(calls + [call], k, c) {
      assert !UsedUp(calls + [call], |calls|);
      forall j: nat | k < j < |calls| ensures !UsedUp(calls, j) {
        assert !UsedUp(calls + [call], j);
      }
    }
  }

  /** A channel is reserved exactly while its accepted selection awaits a configuration. */
  lemma {:induction false} ReservationMeans(calls: seq<Call>, c: int)
    ensures Run(Fresh(true), calls).reservation == Some(c) <==> exists k :: OpenSelection(calls, k, c)
    decreases |calls|
  {
    hide OpenSelection;
    if calls == [] {
      NoSelection(c);
    } else {
      var before, call := calls[..|calls| - 1], calls[|calls| - 1];
      assert calls == before + [call];
      ReservationMeans(before, c);
      ReservationStep(before, call, c);
    }
  }

  lemma NoSelection(c: int)
    ensures !exists k :: OpenSelection([], k, c)
  {}

  lemma OpenLast(calls: seq<Call>, call: Call, c: int)
    ensures OpenSelection(calls + [call], |calls|, c) <==>
      call == SelectProperties(c) && Accepts(Run(Fresh(true), calls), call)
  {
    AcceptedLast(calls, call);
  }

  lemma ReservationStep(calls: seq<Call>, call: Call, c: int)
    requires Run(Fresh(true), calls).reservation == Some(c) <==> exists k :: OpenSelection(calls, k, c)
    ensures Run(Fresh(true), calls + [call]).reservation == Some(c) <==> exists k :: OpenSelection(calls + [call], k, c)
  {
    hide OpenSelection, Run;
    var s := Run(Fresh(true), calls);
    EveryRunIsMono(calls);
    AcceptedLast(calls, call);
    OpenLast(calls, call, c);
    InRange(calls, c);
    InRange(calls + [call], c);
    forall k | 0 <= k < |calls|
      ensures OpenSelection(calls + [call], k, c) <==> OpenSelection(calls, k, c) && !(Ends(call) && Accepts(s, call))
    {
      OpenExtends(calls, call, k, c);
    }
    if Step(s, call).reservation == Some(c) {
      if call == SelectProperties(c) && Accepts(s, call) {
        assert OpenSelection(calls + [call], |calls|, c);
      } else {
        assert s.reservation == Some(c);
        var k :| OpenSelection(calls, k, c);
        assert OpenSelection(calls + [call], k, c);
      }
    }
  }

  lemma InRange(calls: seq<Call>, c: int)
    ensures forall k: nat | OpenSelection(calls, k, c) :: k < |calls|
  {}

  // ---- one transport at a time -------------------------------------------

  /** Between two accepted configurations the first transport was cleared or everything released. */
  ghost predicate FreedBetween(calls: seq<Call>, i: nat, j: nat) requires i < |calls| && calls[i].SetConfiguration? {
    exists m :: i < m < j && m < |calls| && (calls[m] == Release || calls[m] == ClearConfiguration(calls[i].path))
  }

  /** A configured transport stays until something frees it. */
  lemma {:induction false} ConfiguredStays(calls: seq<Call>, i: nat, j: nat)
    requires i < j <= |calls| && calls[i].SetConfiguration? && AcceptedAt(Fresh(true), calls, i)
    requires !FreedBetween(calls, i, j)
    ensures var s := Run(Fresh(true), calls[..j]);
      s.transports == [] && s.pending == [Transport(calls[i].path, calls[i].allocation, None)]
    decreases j
  {
    hide Run, Accepts, Step;
    RunNext(calls, j - 1);
    EveryRunIsMono(calls[..j - 1]);
    NeverAcquired(calls[..j - 1]);
    if i < j - 1 {
      ConfiguredStays(calls, i, j - 1);
      assert calls[j - 1] != Release && calls[j - 1] != ClearConfiguration(calls[i].path);
      Keeps(Run(Fresh(true), calls[..j - 1]), calls[j - 1], Transport(calls[i].path, calls[i].allocation, None));
    } else {
      Configures(Run(Fresh(true), calls[..i]), calls[i]);
    }
  }

  lemma RunNext(calls: seq<Call>, k: nat)
    requires k < |calls|
    ensures Run(Fresh(true), calls[..k + 1]) == Step(Run(Fresh(true), calls[..k]), calls[k])
  {
    assert calls[..k + 1][..k] == calls[..k];
  }

  lemma Configures(s: State, call: Call)
    requires s.mono && s.transports == [] && call.SetConfiguration? && Accepts(s, call)
    ensures Step(s, call).transports == [] && Step(s, call).pending == [Transport(call.path, call.allocation, None)]
  {}

  lemma Keeps(s: State, call: Call, t: Transport)
    requires s.mono && s.transports == [] && s.pending == [t] && call != Release && call != ClearConfiguration(t.path)
    ensures Step(s, call).transports == [] && Step(s, call).pending == [t]
  {
    assert s.transports + s.pending == [t];
    assert [t][1..] == [];
  }

  lemma {:induction false} NeverAcquired(calls: seq<Call>)
    ensures Run(Fresh(true), calls).transports == []
  {
    if calls != [] {
      NeverAcquired(calls[..|calls| - 1]);
    }
  }

  lemma OneTransportAtATime(calls: seq<Call>, i: nat, j: nat)
    requires i < j < |calls| && calls[i].SetConfiguration? && calls[j].SetConfiguration?
    requires AcceptedAt(Fresh(true), calls, i) && AcceptedAt(Fresh(true), calls, j)
    ensures FreedBetween(calls, i, j)
  {
    if !FreedBetween(calls, i, j) {
      ConfiguredStays(calls, i, j);
      EveryRunIsMono(calls[..j]);
      assert false;
    }
  }

  /** While a selection is open, only its own channel is configured. */
  lemma OnlySelectedChannel(calls: seq<Call>, k: nat, c: int, call: Call)
    requires OpenSelection(calls, k, c) && call.SetConfiguration?
    ensures Accepts(Run(Fresh(true), calls), call) <==> call.allocation == c
  {
    ReservationMeans(calls, c);
    EveryRunIsMono(calls);
  }

  // ---- admission, told from the history alone ----------------------------

  /** The i-th call configured a transport that nothing has freed since. */
  ghost predicate Live(calls: seq<Call>, i: nat) {
    && i < |calls| && calls[i].SetConfiguration? && AcceptedAt(Fresh(true), calls, i)
    && !FreedBetween(calls, i, |calls|)
  }

  lemma LiveIsFull(calls: seq<Call>, i: nat)
    requires Live(calls, i)
    ensures Run(Fresh(true), calls).transports == []
    ensures Run(Fresh(true), calls).pending == [Transport(calls[i].path, calls[i].allocation, None)]
  {
    assert calls[..|calls|] == calls;
    ConfiguredStays(calls, i, |calls|);
  }

  /** A freed transport is gone. */
  lemma Frees(s: State, call: Call, t: Transport)
    requires s.transports == [] && s.pending == [t] && (call == Release || call == ClearConfiguration(t.path))
    ensures !Full(Step(s, call))
  {
    assert s.transports + s.pending == [t];
  }

  lemma StaysLive(calls: seq<Call>, call: Call, i: nat)
    requires Live(calls, i) && call != Release && call != ClearConfiguration(calls[i].path)
    ensures Live(calls + [call], i)
  {
    hide AcceptedAt;
    AcceptedEarlier(calls, call, i);
    var more := calls + [call];
    assert forall m | 0 <= m < |calls| :: more[m] == calls[m];
  }

  lemma {:induction false} FullMeans(calls: seq<Call>)
    ensures Full(Run(Fresh(true), calls)) <==> exists i: nat :: Live(calls, i)
  {
    hide Live;
    if i: nat :| Live(calls, i) {
      LiveIsFull(calls, i);
    }
    if calls != [] {
      var before, call := calls[..|calls| - 1], calls[|calls| - 1];
      assert calls == before + [call];
      FullMeans(before);
      FullStep(before, call);
    }
  }

  lemma FullStep(calls: seq<Call>, call: Call)
    requires Full(Run(Fresh(true), calls)) <==> exists i: nat :: Live(calls, i)
    ensures Full(Run(Fresh(true), calls + [call])) ==> exists i: nat :: Live(calls + [call], i)
  {
    hide Live, Run;
    var s := Run(Fresh(true), calls);
    AcceptedLast(calls, call);
    if Full(Step(s, call)) {
      if call.SetConfiguration? && Accepts(s, call) {
        LiveLast(calls, call);
      } else {
        OnlyConfigurationFills(s, call);
        var i: nat :| Live(calls, i);
        LiveIsFull(calls, i);
        LiveInRange(calls, i);
        if call == Release || call == ClearConfiguration(calls[i].path) {
          Frees(s, call, Transport(calls[i].path, calls[i].allocation, None));
        }
        StaysLive(calls, call, i);
      }
    }
  }

  lemma LiveInRange(calls: seq<Call>, i: nat)
    requires Live(calls, i)
    ensures i < |calls| && calls[i].SetConfiguration?
  {
  }

  lemma LiveLast(calls: seq<Call>, call: Call)
    requires call.SetConfiguration? && Accepts(Run(Fresh(true), calls), call)
    ensures Live(calls + [call], |calls|)
  {
    AcceptedLast(calls, call);
  }

  lemma OnlyConfigurationFills(s: State, call: Call)
    requires !(call.SetConfiguration? && Accepts(s, call)) && Full(Step(s, call))
    ensures Full(s)
  {
  }

  /** No transport lives, the channel is a single one, and no other channel is selected. */
  ghost predicate Admissible(calls: seq<Call>, c: int) {
    && (forall i: nat :: !Live(calls, i))
    && OneChannel(c)
    && (forall k: nat, other: int | OpenSelection(calls, k, other) :: other == c)
  }

  /** A mono endpoint accepts a selection or a configuration exactly when it is admissible. */
  lemma AdmissionMeans(calls: seq<Call>, call: Call)
    ensures call.SelectProperties? ==>
      (Accepts(Run(Fresh(true), calls), call) <==> Admissible(calls, call.channels))
    ensures call.SetConfiguration? ==>
      (Accepts(Run(Fresh(true), calls), call) <==> Admissible(calls, call.allocation))
    ensures call.ClearConfiguration? || call.Release? ==> Accepts(Run(Fresh(true), calls), call)
  {
    hide Live, Run, OpenSelection;
    var s := Run(Fresh(true), calls);
    EveryRunIsMono(calls);
    FullMeans(calls);
    forall k: nat, other: int | OpenSelection(calls, k, other) ensures s.reservation == Some(other) {
      ReservationMeans(calls, other);
    }
    if s.reservation.Some? {
      ReservationMeans(calls, s.reservation.value);
      var k: nat :| OpenSelection(calls, k, s.reservation.value);
    }
  }

  /** A fresh endpoint selects either channel; what it selects, and only that, it then configures. */
  lemma FreshSelects(c: int, path: string, other: int)
    ensures Accepts(Fresh(true), SelectProperties(c)) <==> c == FL || c == FR
    ensures c == FL || c == FR ==>
      (Accepts(Run(Fresh(true), [SelectProperties(c)]), SetConfiguration(path, other)) <==> other == c)
  {
    assert Run(Fresh(true), []) == Fresh(true);
    assert [SelectProperties(c)][..0] == [];
  }

  /** An endpoint that is not mono accepts everything, reserves nothing and queues each configuration. */
  lemma {:induction false} NotMono(calls: seq<Call>, call: Call)
    ensures var s := Run(Fresh(false), calls);
      && !s.mono && Accepts(s, call) && s.reservation.None?
      && (call.SetConfiguration? ==> Step(s, call).pending == s.pending + [Transport(call.path, call.allocation, None)])
      && (call.SelectProperties? ==> Step(s, call) == s)
  {
    if calls != [] {
      NotMono(calls[..|calls| - 1], calls[|calls| - 1]);
    }
  }

  // ---- the endpoint itself -----------------------------------------------

  class BAPSourceEndpoint {
    const mono: bool
    var reservation: Option<int>
    var transports: seq<Transport>
    var pending: seq<Transport>
    var configDone: bool
    var closed: seq<int>

    function Abstract(): State reads this { State(mono, reservation, transports, pending, configDone, closed) }

    constructor (mono: bool)
      ensures Abstract() == Fresh(mono)
    {
      this.mono, reservation, transports, pending, configDone, closed := mono, None, [], [], false, [];
    }

    method SelectProperties(channels: int) returns (accepted: bool)
      modifies this
      ensures accepted == Accepts(old(Abstract()), Call.SelectProperties(channels))
      ensures Abstract() == Step(old(Abstract()), Call.SelectProperties(channels))
    {
      if mono {
        if |pending| + |transports| >= 1 || (reservation.Some? && reservation.value != channels) {
          return false;
        }
        if channels != FL && channels != FR {
          return false;
        }
        reservation := Some(channels);
      }
      return true;
    }

    method SetConfiguration(path: string, allocation: int) returns (accepted: bool)
      modifies this
      ensures accepted == Accepts(old(Abstract()), Call.SetConfiguration(path, allocation))
      ensures Abstract() == Step(old(Abstract()), Call.SetConfiguration(path, allocation))
    {
      if mono && |pending| + |transports| >= 1 {
        return false;
      }
      if mono && allocation != FL && allocation != FR {
        return false;
      }
      if mono && reservation.Some? && allocation != reservation.value {
        return false;
      }
      pending := pending + [Transport(path, allocation, None)];
      configDone := true;
      if mono && reservation.Some? {
        reservation := None;
      }
      return true;
    }

    method ClearConfiguration(path: string)
      modifies this
      ensures Abstract() == Step(old(Abstract()), Call.ClearConfiguration(path))
    {
      hide Lookup, Without, Fds;
      var all := transports + pending;
      assert all[0..] == all;
      for i := 0 to |all|
        invariant Abstract() == old(Abstract()) && Lookup(all, path) == Lookup(all[i..], path)
      {
        var t := all[i];
        LookupNext(all, i, path);
        if t.path == path {
          FdsNext(all, i);
          if t.fd.Some? {
            closed := closed + [t.fd.value];
          }
          transports, pending := Without(transports, t), Without(pending, t);
          return;
        }
      }
      assert all[|all|..] == [];
      NothingLeft(path);
    }

    method Release()
      modifies this
      ensures Abstract() == Step(old(Abstract()), Call.Release)
    {
      hide Fds;
      var all := transports + pending;
      assert all[0..] == all;
      for i := 0 to |all|
        invariant Abstract() == old(Abstract()).(closed := closed) && closed + Fds(all[i..]) == old(closed) + Fds(all)
      {
        FdsNext(all, i);
        if all[i].fd.Some? {
          closed := closed + [all[i].fd.value];
        }
      }
      assert all[|all|..] == [];
      NothingLeft("");
      transports, pending, configDone, reservation := [], [], false, None;
    }

    /** Any sequence of callbacks on a fresh mono endpoint. */
    method Serve(calls: seq<Call>)
      requires Abstract() == Fresh(true)
      modifies this
      ensures Abstract() == Run(Fresh(true), calls) && StrictMono(Abstract())
    {
      for i := 0 to |calls|
        invariant Abstract() == Run(Fresh(true), calls[..i])
      {
        assert calls[..i + 1][..i] == calls[..i];
        match calls[i]
        case SelectProperties(c) => var _ := SelectProperties(c);
        case SetConfiguration(path, c) => var _ := SetConfiguration(path, c);
        case ClearConfiguration(path) => ClearConfiguration(path);
        case Release => Release();
      }
      assert calls[..|calls|] == calls;
      EveryRunIsMono(calls);
    }
  }
}
