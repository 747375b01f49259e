/**
 The bounded monitor capture and its independent re-validation.

 `Collect` is the guest side: it frames each datagram, counts, hashes and writes
 rows under a byte cap that always keeps room for the terminal row.
 `ValidateCapture` is the host side: it re-derives everything from the rows.
 Rows are the unit of text; their rendered form is concrete where its length
 matters.  SHA-256 is a parameter that maps the hashed byte stream to a digest.
 */
module Capture {
  import opened Common

  type Digest = seq<Byte> -> string

  const CAP := 4194304
  const RESERVE := 4096
  const MaxDatagram := 65541

  // ---- bytes -------------------------------------------------------------

  function FromLe16(lo: Byte, hi: Byte): nat { lo + 256 * hi }

  /** The hashed stream: every datagram preceded by its length. */
  function Framed(datas: seq<seq<Byte>>): seq<Byte> {
    if datas == [] then []
    else Framed(datas[..|datas| - 1]) + Le32(|datas[|datas| - 1]|) + datas[|datas| - 1]
  }

  lemma Le32Injective(m: nat, n: nat)
    requires m < 0x1_0000_0000 && n < 0x1_0000_0000 && Le32(m) == Le32(n)
    ensures m == n
  {
    Le32Value(m);
    Le32Value(n);
  }

  lemma Le32Value(n: nat)
    requires n < 0x1_0000_0000
    ensures var b: seq<int> := Le32(n); n == b[0] + 256 * (b[1] + 256 * (b[2] + 256 * b[3]))
  {
    var q1 := n / 256;
    var q2 := q1 / 256;
    var q3 := q2 / 256;
    assert n == n % 256 + 256 * q1 && q1 == q1 % 256 + 256 * q2 && q2 == q2 % 256 + 256 * q3;
  }

  lemma {:induction false} FramedFront(datas: seq<seq<Byte>>)
    requires datas != []
    ensures Framed(datas) == Le32(|datas[0]|) + datas[0] + Framed(datas[1..])
  {
    var n := |datas| - 1;
    if n > 0 {
      FramedFront(datas[..n]);
      assert datas[..n][1..] == datas[1..][..n - 1];
    }
  }

  ghost predicate Short(datas: seq<seq<Byte>>) {
    forall i | 0 <= i < |datas| :: |datas[i]| < 0x1_0000_0000
  }

  lemma NoFrames()
    ensures Framed([]) == []
  {}

  lemma Le32Size(n: nat)
    ensures |Le32(n)| == 4
  {}

  /** The length prefixes make the hashed stream determine the datagrams, boundaries included. */
  lemma {:induction false} FramedInjective(a: seq<seq<Byte>>, b: seq<seq<Byte>>)
    requires Framed(a) == Framed(b) && Short(a) && Short(b)
    ensures a == b
  {
    hide Framed, Le32;
    if a != [] {
      FramedFront(a);
    } else {
      NoFrames();
    }
    if b != [] {
      FramedFront(b);
    } else {
      NoFrames();
    }
    if a != [] {
      Le32Size(|a[0]|);
    }
    if b != [] {
      Le32Size(|b[0]|);
    }
    if a != [] && b != [] {
      FirstFrame(a[0], Framed(a[1..]), b[0], Framed(b[1..]));
      FramedInjective(a[1..], b[1..]);
      assert a == [a[0]] + a[1..] && b == [b[0]] + b[1..];
    }
  }

  lemma FirstFrame(x: seq<Byte>, restX: seq<Byte>, y: seq<Byte>, restY: seq<Byte>)
    requires |x| < 0x1_0000_0000 && |y| < 0x1_0000_0000
    requires Le32(|x|) + x + restX == Le32(|y|) + y + restY
    ensures x == y && restX == restY
  {
    var s, t := Le32(|x|) + x + restX, Le32(|y|) + y + restY;
    assert s[..4] == Le32(|x|) && t[..4] == Le32(|y|);
    Le32Injective(|x|, |y|);
    assert s[4..4 + |x|] == x && t[4..4 + |y|] == y;
    assert s[4 + |x|..] == restX && t[4 + |y|..] == restY;
  }

  const Digits := "0123456789abcdef"

  function Hex(data: seq<Byte>): (s: string)
    ensures |s| == 2 * |data|
  {
    if data == [] then []
    else Hex(data[..|data| - 1]) + [Digits[data[|data| - 1] / 16], Digits[data[|data| - 1] % 16]]
  }

  function Nibble(c: char): Option<nat> {
    if '0' <= c <= '9' then Some(c as nat - '0' as nat)
    else if 'a' <= c <= 'f' then Some(c as nat - 'a' as nat + 10)
    else None
  }

  function Unhex(s: string): (r: Option<seq<Byte>>)
    ensures r.Some? ==> |s| == 2 * |r.value|
  {
    if s == [] then Some([])
    else if |s| == 1 then None
    else
      var init, high, low := Unhex(s[..|s| - 2]), Nibble(s[|s| - 2]), Nibble(s[|s| - 1]);
      if init.None? || high.None? || low.None? || high.value > 15 || low.value > 15 then None
      else Some(init.value + [16 * high.value + low.value])
  }

  lemma NibbleOfDigit(d: nat)
    requires d < 16
    ensures Nibble(Digits[d]) == Some(d)
  {
    if d < 10 {
      assert Digits[d] == '0' + d as char;
    } else {
      assert Digits[d] == 'a' + (d - 10) as char;
    }
  }

  lemma UnhexSnoc(s: string, data: seq<Byte>, b: Byte)
    requires Unhex(s) == Some(data)
    ensures Unhex(s + [Digits[b / 16], Digits[b % 16]]) == Some(data + [b])
  {
    var t := s + [Digits[b / 16], Digits[b % 16]];
    assert t[..|t| - 2] == s;
    NibbleOfDigit(b / 16);
    NibbleOfDigit(b % 16);
  }

  lemma HexSnoc(data: seq<Byte>, b: Byte)
    ensures Hex(data + [b]) == Hex(data) + [Digits[b / 16], Digits[b % 16]]
  {
    assert (data + [b])[..|data|] == data;
  }

  lemma NoHex()
    ensures Hex([]) == "" && Unhex("") == Some([])
  {}

  lemma {:induction false} HexRoundTrip(data: seq<Byte>)
    ensures Unhex(Hex(data)) == Some(data)
  {
    hide Hex, Unhex;
    if data != [] {
      var n := |data| - 1;
      HexRoundTrip(data[..n]);
      UnhexSnoc(Hex(data[..n]), data[..n], data[n]);
      HexSnoc(data[..n], data[n]);
      assert data == data[..n] + [data[n]];
    } else {
      NoHex();
    }
  }

  function Dec(n: nat): (s: string)
    ensures |s| > 0
  {
    if n < 10 then [Digits[n]] else Dec(n / 10) + [Digits[n % 10]]
  }

  lemma DecGrows(m: nat, n: nat)
    requires m <= n
    ensures |Dec(m)| <= |Dec(n)|
  {
    if m >= 10 {
      DecGrows(m / 10, n / 10);
    }
  }

  function Signed(n: int): string { if n < 0 then "-" + Dec(-n) else Dec(n) }

  function Nullable(n: Option<int>): string { if n.None? then "null" else Signed(n.value) }

  // ---- rows --------------------------------------------------------------

  datatype Packet = Packet(
    number: int, wall: int, mono: int, kernel: Option<int>, opcode: int, index: int,
    rawHex: string, flags: int, drops: Option<int>)

  datatype Summary = Summary(
    ok: bool, packets: int, bytes: int, sha: string, error: Option<string>, stop: Option<int>, drops: Option<int>)

  datatype Line = Ready(version: int) | Row(packet: Packet) | Result(summary: Summary) | Unreadable(text: string)

  function Render(line: Line): string {
    match line
    case Ready(v) => "PB053_MONITOR_READY {\"schema_version\":" + Signed(v) + "}\n"
    case Row(p) =>
      "{\"packet\":" + Signed(p.number) + ",\"wall_ns\":" + Signed(p.wall) + ",\"monotonic_ns\":" + Signed(p.mono) +
      ",\"kernel_timestamp_ns\":" + Nullable(p.kernel) + ",\"opcode\":" + Signed(p.opcode) + ",\"index\":" +
        Signed(p.index) +
      ",\"raw_hex\":\"" + p.rawHex + "\",\"flags\":" + Signed(p.flags) + ",\"reported_drops\":" + Nullable(p.drops) +
        "}\n"
    case Result(s) =>
      "PB053_MONITOR_RESULT {\"schema_version\":1,\"ok\":" + (if s.ok then "true" else "false") +
      ",\"packets\":" + Signed(s.packets) + ",\"bytes\":" + Signed(s.bytes) + ",\"sha256\":\"" + s.sha +
      "\",\"error\":" + (if s.error.None? then "null" else "\"" + s.error.value + "\"") +
      ",\"stop_signal\":" + Nullable(s.stop) + ",\"reported_drops\":" + Nullable(s.drops) + "}\n"
    case Unreadable(t) => t
  }

  function Size(lines: seq<Line>): nat {
    if lines == [] then 0 else Size(lines[..|lines| - 1]) + |Render(lines[|lines| - 1])|
  }

  lemma SizeAppend(lines: seq<Line>, line: Line)
    ensures Size(lines + [line]) == Size(lines) + |Render(line)|
  {
    assert (lines + [line])[..|lines|] == lines;
  }

  // ---- what a valid capture is ------------------------------------------

  predicate Truncated(flags: int) { flags / 32 % 2 == 1 || flags / 8 % 2 == 1 }

  predicate Framing(data: seq<Byte>) {
    6 <= |data| <= MaxDatagram && FromLe16(data[4], data[5]) == |data| - 6
  }

  /** Everything the host demands of one packet row except the order of observation times. */
  predicate PacketOk(p: Packet, number: nat) {
    match Unhex(p.rawHex)
    case None => false
    case Some(raw) =>
      && p.number == number && p.opcode >= 0 && p.index >= 0 && p.flags >= 0
      && (p.kernel.Some? ==> p.kernel.value >= 0)
      && (p.drops.Some? ==> p.drops.value == 0)
      && !Truncated(p.flags)
      && Framing(raw)
      && FromLe16(raw[0], raw[1]) == p.opcode && FromLe16(raw[2], raw[3]) == p.index
  }

  function RawOf(p: Packet): seq<Byte> { var r := Unhex(p.rawHex); if r.Some? then r.value else [] }

  function Datas(ps: seq<Packet>): seq<seq<Byte>> {
    if ps == [] then [] else Datas(ps[..|ps| - 1]) + [RawOf(ps[|ps| - 1])]
  }

  function Total(datas: seq<seq<Byte>>): nat {
    if datas == [] then 0 else Total(datas[..|datas| - 1]) + |datas[|datas| - 1]|
  }

  function DropStatus(ps: seq<Packet>): Option<int> {
    if exists i :: 0 <= i < |ps| && ps[i].drops.Some? then Some(0) else None
  }

  /** Nonnegative clocks, and observation times that do not go back. */
  predicate TimesOk(ps: seq<Packet>) {
    forall i | 0 <= i < |ps| :: TimeOk(ps, i)
  }

  predicate TimeOk(ps: seq<Packet>, i: nat)
    requires i < |ps|
  {
    ps[i].wall >= 0 && ps[i].mono >= 0 && (i > 0 ==> ps[i - 1].mono <= ps[i].mono)
  }

  /** The summary of exactly these packets, ended by a requested stop. */
  predicate Summarises(sha: Digest, summary: Summary, ps: seq<Packet>) {
    match summary case Summary(ok, packets, bytes, digest, error, stop, drops) =>
      && ok && error.None? && (stop == Some(2) || stop == Some(15))
      && packets == |ps| && bytes == Total(Datas(ps)) && digest == sha(Framed(Datas(ps))) && HexDigest(digest)
      && drops == DropStatus(ps)
  }

  /** A ready row, packet rows, a result row. */
  predicate Laid(lines: seq<Line>) {
    && |lines| >= 2 && lines[0] == Ready(1) && lines[|lines| - 1].Result?
    && forall i | 1 <= i < |lines| - 1 :: lines[i].Row?
  }

  function Packets(lines: seq<Line>): seq<Packet>
    requires Laid(lines)
  {
    seq(|lines| - 2, i requires 0 <= i < |lines| - 2 => lines[i + 1].packet)
  }

  predicate RowsOk(ps: seq<Packet>) {
    forall i | 0 <= i < |ps| :: PacketOk(ps[i], i)
  }

  predicate Valid(sha: Digest, lines: seq<Line>) {
    && Size(lines) <= CAP && Laid(lines)
    && var ps := Packets(lines);
       Summarises(sha, lines[|lines| - 1].summary, ps) && RowsOk(ps) && TimesOk(ps)
  }

  function Tally(ps: seq<Packet>, opcode: int): nat {
    if ps == [] then 0 else Tally(ps[..|ps| - 1], opcode) + if ps[|ps| - 1].opcode == opcode then 1 else 0
  }

  // ---- the host ----------------------------------------------------------

  /** The running values of the packet loop. */
  datatype Progress = Progress(stream: seq<Byte>, total: nat, seenDrops: bool, opcodes: map<int, nat>)

  const Begun := Progress([], 0, false, map[])

  function Add(r: Progress, p: Packet): Progress {
    var raw := RawOf(p);
    Progress(r.stream + Le32(|raw|) + raw, r.total + |raw|, r.seenDrops || p.drops.Some?,
             r.opcodes[p.opcode := (if p.opcode in r.opcodes then r.opcodes[p.opcode] else 0) + 1])
  }

  function Replay(ps: seq<Packet>): Progress {
    if ps == [] then Begun else Add(Replay(ps[..|ps| - 1]), ps[|ps| - 1])
  }

  lemma {:induction false} ReplayTotals(ps: seq<Packet>)
    ensures Replay(ps).stream == Framed(Datas(ps)) && Replay(ps).total == Total(Datas(ps))
  {
    if ps != [] {
      ReplayTotals(ps[..|ps| - 1]);
      assert Datas(ps)[..|Datas(ps)| - 1] == Datas(ps[..|ps| - 1]);
    }
  }

  lemma SeenSnoc(ps: seq<Packet>)
    requires ps != []
    ensures Replay(ps).seenDrops == (Replay(ps[..|ps| - 1]).seenDrops || ps[|ps| - 1].drops.Some?)
  {
  }

  lemma {:induction false} ReplayDrops(ps: seq<Packet>)
    ensures DropStatus(ps) == if Replay(ps).seenDrops then Some(0) else None
  {
    if ps == [] {
      assert !Replay(ps).seenDrops;
    } else {
      hide Replay;
      var n := |ps| - 1;
      ReplayDrops(ps[..n]);
      SeenSnoc(ps);
      assert forall i | 0 <= i < n :: ps[..n][i] == ps[i];
    }
  }

  lemma {:induction false} ReplayTally(ps: seq<Packet>, o: int)
    ensures Tally(ps, o) == if o in Replay(ps).opcodes then Replay(ps).opcodes[o] else 0
  {
    if ps != [] {
      ReplayTally(ps[..|ps| - 1], o);
    }
  }

  /** How many leading rows pass the checks. */
  function GoodRows(ps: seq<Packet>, n: nat): nat
    requires n <= |ps|
    decreases |ps| - n
  {
    if n == |ps| || !PacketOk(ps[n], n) || !TimeOk(ps, n) then n else GoodRows(ps, n + 1)
  }

  lemma {:induction false} GoodRowsMeaning(ps: seq<Packet>, n: nat)
    requires n <= |ps|
    ensures n <= GoodRows(ps, n) <= |ps|
    ensures GoodRows(ps, n) == |ps| <==> forall i | n <= i < |ps| :: PacketOk(ps[i], i) && TimeOk(ps, i)
    decreases |ps| - n
  {
    if n < |ps| && PacketOk(ps[n], n) && TimeOk(ps, n) {
      GoodRowsMeaning(ps, n + 1);
    }
  }

  lemma ReplayMeaning(ps: seq<Packet>)
    ensures GoodRows(ps, 0) == |ps| <==> RowsOk(ps) && TimesOk(ps)
    ensures Replay(ps).stream == Framed(Datas(ps)) && Replay(ps).total == Total(Datas(ps))
    ensures DropStatus(ps) == if Replay(ps).seenDrops then Some(0) else None
    ensures forall o :: Tally(ps, o) == if o in Replay(ps).opcodes then Replay(ps).opcodes[o] else 0
  {
    GoodRowsMeaning(ps, 0);
    ReplayTotals(ps);
    ReplayDrops(ps);
    forall o {
      ReplayTally(ps, o);
    }
  }

  /** The packet loop of `validate_capture`, over the decoded rows. */
  method CheckPackets(ps: seq<Packet>) returns (good: bool, r: Progress)
    ensures good <==> GoodRows(ps, 0) == |ps|
    ensures good ==> r == Replay(ps)
  {
    hide PacketOk, TimeOk, Add;
    good, r := false, Begun;
    GoodRowsMeaning(ps, 0);
    for number := 0 to |ps|
      invariant r == Replay(ps[..number])
      invariant GoodRows(ps, 0) == GoodRows(ps, number)
    {
      if !PacketOk(ps[number], number) || !TimeOk(ps, number) {
        return;
      }
      r := Add(r, ps[number]);
      assert ps[..number + 1][..number] == ps[..number];
    }
    assert ps[..|ps|] == ps;
    good := true;
  }

  /** `validate_capture`: accepts exactly the valid captures, and counts their opcodes. */
  method ValidateCapture(sha: Digest, lines: seq<Line>) returns (r: Option<Summary>, opcodes: map<int, nat>)
    ensures r.Some? <==> Valid(sha, lines)
    ensures r.Some? ==> r.value == lines[|lines| - 1].summary
    ensures r.Some? ==> forall o :: Tally(Packets(lines), o) == if o in opcodes then opcodes[o] else 0
  {
    r, opcodes := None, map[];
    if Size(lines) > CAP || !Laid(lines) {
      return;
    }
    var s := lines[|lines| - 1].summary;
    if !s.ok || s.error.Some? || !(s.stop == Some(2) || s.stop == Some(15)) || s.packets < 0 || s.bytes < 0
       || !HexDigest(s.sha) || (s.drops.Some? && s.drops.value != 0) {
      return;
    }
    var ps := Packets(lines);
    var good, p := CheckPackets(ps);
    ReplayMeaning(ps);
    if !good || |lines| - 2 != s.packets || p.total != s.bytes || sha(p.stream) != s.sha
       || s.drops != (if p.seenDrops then Some(0) else None) {
      return;
    }
    r, opcodes := Some(s), p.opcodes;
  }

  // ---- the guest ---------------------------------------------------------

  datatype Ancillary =
    | Foreign
    | Timestamp(wellSized: bool, sec: int, nano: int)
    | Drops(wellSized: bool, value: nat)

  datatype Poll =
    | Stop(signal: Option<int>)          // nothing: a value that is not an integer
    | Idle
    | Fault(text: string)                // an OSError, as JSON would spell it
    | Datagram(wall: int, mono: int, data: seq<Byte>, control: seq<Ancillary>, flags: nat)

  /** `Running`: the script ended before the monitor did.  `Raised`: the terminal row did not fit. */
  datatype Outcome = Running | Raised | Returned(summary: Summary)

  predicate Stamped(a: Ancillary, kernel: Option<int>) {
    a.Timestamp? && a.wellSized && a.sec >= 0 && 0 <= a.nano < 1000000000
    && kernel == Some(a.sec * 1000000000 + a.nano)
  }

  predicate OneStamp(control: seq<Ancillary>) {
    forall i, j | 0 <= i < j < |control| :: !(control[i].Timestamp? && control[j].Timestamp?)
  }

  predicate WellMade(a: Ancillary) {
    match a
    case Foreign => true
    case Timestamp(wellSized, sec, nano) => wellSized && sec >= 0 && 0 <= nano < 1000000000
    case Drops(wellSized, _) => wellSized
  }

  /** The counter starts no lower than the one known before and never falls. */
  predicate Rising(control: seq<Ancillary>, drops: Option<nat>) {
    && (forall i | 0 <= i < |control| && control[i].Drops? && drops.Some? :: drops.value <= control[i].value)
    && (forall i, j | 0 <= i < j < |control| && control[i].Drops? && control[j].Drops? ::
          control[i].value <= control[j].value)
  }

  ghost predicate ControlOk(control: seq<Ancillary>, drops: Option<nat>) {
    OneStamp(control) && (forall i | 0 <= i < |control| :: WellMade(control[i])) && Rising(control, drops)
  }

  /** The ancillary loop: at most one sound timestamp, and a drop counter that never regresses. */
  method ReadControl(control: seq<Ancillary>, drops: Option<nat>)
    returns (error: Option<string>, kernel: Option<int>, drops': Option<nat>)
    ensures error.None? <==> ControlOk(control, drops)
    ensures error.None? ==> forall i | 0 <= i < |control| && control[i].Timestamp? :: Stamped(control[i], kernel)
    ensures kernel.Some? ==> kernel.value >= 0 && exists i :: 0 <= i < |control| && Stamped(control[i], kernel)
    ensures error.None? ==> forall i | 0 <= i < |control| && control[i].Drops? ::
      control[i].wellSized && drops'.Some? && control[i].value <= drops'.value
    ensures error.None? && drops.Some? ==> drops'.Some? && drops.value <= drops'.value
    ensures drops' == drops || exists i :: 0 <= i < |control| && control[i].Drops? && drops' == Some(control[i].value)
  {
    error, kernel, drops' := None, None, drops;
    for i := 0 to |control|
      invariant error.None? && ControlOk(control[..i], drops)
      invariant forall j | 0 <= j < i && control[j].Timestamp? :: Stamped(control[j], kernel)
      invariant kernel.Some? ==> kernel.value >= 0 && exists j :: 0 <= j < i && Stamped(control[j], kernel)
      invariant forall j | 0 <= j < i && control[j].Drops? ::
        control[j].wellSized && drops'.Some? && control[j].value <= drops'.value
      invariant drops.Some? ==> drops'.Some? && drops.value <= drops'.value
      invariant drops' == drops || exists j :: 0 <= j < i && control[j].Drops? && drops' == Some(control[j].value)
    {
      ControlNext(control, i, drops);
      match control[i]
      case Foreign =>
      case Timestamp(wellSized, sec, nano) =>
        if !wellSized || kernel.Some? {
          error := Some("Invalid timestamp ancillary");
          return;
        }
        if sec < 0 || !(0 <= nano < 1000000000) {
          error := Some("Invalid kernel timestamp");
          return;
        }
        kernel := Some(sec * 1000000000 + nano);
      case Drops(wellSized, value) =>
        if !wellSized {
          error := Some("Invalid drop ancillary");
          return;
        }
        if drops'.Some? && value < drops'.value {
          error := Some("Drop counter regressed");
          return;
        }
        drops' := Some(value);
    }
    assert control[..|control|] == control;
  }

  /** When the i-th ancillary may follow the ones before it. */
  lemma ControlNext(control: seq<Ancillary>, i: nat, drops: Option<nat>)
    requires i < |control| && ControlOk(control[..i], drops)
    ensures ControlOk(control[..i + 1], drops) <==>
      && WellMade(control[i])
      && (control[i].Timestamp? ==> forall j | 0 <= j < i :: !control[j].Timestamp?)
      && (control[i].Drops? && drops.Some? ==> drops.value <= control[i].value)
      && (control[i].Drops? ==> forall j | 0 <= j < i && control[j].Drops? :: control[j].value <= control[i].value)
    ensures ControlOk(control, drops) ==> ControlOk(control[..i + 1], drops)
  {
    var before, after := control[..i], control[..i + 1];
    assert after[i] == control[i];
    assert forall j | 0 <= j < i :: before[j] == control[j] == after[j];
    assert forall j | 0 <= j <= i :: after[j] == control[j];
  }

  function StampValue(a: Ancillary): int
    requires a.Timestamp?
  {
    a.sec * 1000000000 + a.nano
  }

  /** The kernel's time of a datagram, if it came with one. */
  ghost function KernelTime(control: seq<Ancillary>): Option<int> {
    if i :| 0 <= i < |control| && control[i].Timestamp? then Some(StampValue(control[i])) else None
  }

  ghost predicate Reports(control: seq<Ancillary>) {
    exists i :: 0 <= i < |control| && control[i].Drops?
  }

  /** Well framed and whole, with at most one timestamp, sound ancillaries and no drops. */
  ghost predicate SoundDatagram(poll: Poll) {
    && poll.Datagram? && Framing(poll.data) && !Truncated(poll.flags) && OneStamp(poll.control)
    && (forall i | 0 <= i < |poll.control| :: WellMade(poll.control[i])) && NoDrops(poll.control)
  }

  /** The row of a sound datagram. */
  ghost function RowOf(poll: Poll, number: nat, drops: Option<int>): Packet
    requires SoundDatagram(poll)
  {
    Packet(number, poll.wall, poll.mono, KernelTime(poll.control), FromLe16(poll.data[0], poll.data[1]),
           FromLe16(poll.data[2], poll.data[3]), Hex(poll.data), poll.flags,
           if Reports(poll.control) then Some(0) else drops)
  }

  ghost predicate NoDrops(control: seq<Ancillary>) {
    forall i | 0 <= i < |control| && control[i].Drops? :: control[i].value == 0
  }

  lemma ControlSound(control: seq<Ancillary>, drops: Option<nat>)
    requires drops in {None, Some(0)}
    ensures NoDrops(control) ==> Rising(control, drops)
  {
  }

  lemma CounterSound(control: seq<Ancillary>, drops: Option<nat>, drops': Option<nat>)
    requires drops in {None, Some(0)}
    requires forall i | 0 <= i < |control| && control[i].Drops? :: drops'.Some? && control[i].value <= drops'.value
    requires drops' == drops || exists i :: 0 <= i < |control| && control[i].Drops? && drops' == Some(control[i].value)
    ensures NoDrops(control) <==> drops' in {None, Some(0)}
    ensures NoDrops(control) ==> drops' == if Reports(control) then Some(0) else drops
  {
  }

  lemma KernelTimeIs(control: seq<Ancillary>, kernel: Option<int>)
    requires forall i | 0 <= i < |control| && control[i].Timestamp? :: Stamped(control[i], kernel)
    requires kernel.Some? ==> exists i :: 0 <= i < |control| && Stamped(control[i], kernel)
    ensures KernelTime(control) == kernel
  {
  }

  /** One received datagram: refused, or turned into a row that the host will accept. */
  method HandleDatagram(poll: Poll, count: nat, drops: Option<nat>)
    returns (error: Option<string>, p: Packet, drops': Option<nat>)
    requires poll.Datagram? && drops in {None, Some(0)}
    ensures error.None? <==> SoundDatagram(poll)
    ensures error.None? ==> p == RowOf(poll, count, drops)
    ensures error.None? ==>
      && PacketOk(p, count) && RawOf(p) == poll.data && p.rawHex == Hex(poll.data)
      && p.wall == poll.wall && p.mono == poll.mono && p.flags == poll.flags
      && (drops' == Some(0) || drops' == drops)
      && p.drops == drops'
  {
    hide NoDrops, Rising, OneStamp, WellMade, Reports, KernelTime, Hex, Unhex, Truncated;
    var data := poll.data;
    p, drops' := Packet(0, 0, 0, None, 0, 0, "", 0, None), drops;
    if data == [] {
      return Some("Monitor EOF"), p, drops;
    }
    if Truncated(poll.flags) {
      return Some("Monitor datagram/control truncated"), p, drops;
    }
    if |data| < 6 {
      return Some("Monitor short header"), p, drops;
    }
    var opcode, index, length := FromLe16(data[0], data[1]), FromLe16(data[2], data[3]), FromLe16(data[4], data[5]);
    if length != |data| - 6 {
      return Some("Monitor payload length mismatch"), p, drops;
    }
    var kernel;
    error, kernel, drops' := ReadControl(poll.control, drops);
    ControlSound(poll.control, drops);
    if error.Some? {
      return;
    }
    CounterSound(poll.control, drops, drops');
    KernelTimeIs(poll.control, kernel);
    if drops'.Some? && drops'.value != 0 {
      return Some("Monitor receive queue reported drops"), p, drops';
    }
    HexRoundTrip(data);
    p := Packet(count, poll.wall, poll.mono, kernel, opcode, index, Hex(data), poll.flags, drops');
  }

  /** A poll that does not end the capture. */
  ghost predicate Quiet(poll: Poll) {
    poll.Idle? || SoundDatagram(poll)
  }

  ghost predicate Smooth(polls: seq<Poll>) {
    forall i | 0 <= i < |polls| :: Quiet(polls[i])
  }

  /** The rows of the datagrams among these polls. */
  ghost function RowsOf(polls: seq<Poll>): seq<Packet>
    requires Smooth(polls)
  {
    if polls == [] then []
    else
      var n := |polls| - 1;
      var before := RowsOf(polls[..n]);
      before + if polls[n].Datagram? then [RowOf(polls[n], |before|, DropStatus(before))] else []
  }

  function Lines(ps: seq<Packet>): seq<Line> {
    [Ready(1)] + seq(|ps|, i requires 0 <= i < |ps| => Row(ps[i]))
  }

  /** These polls are received without an error: all are quiet, and their rows leave the reserve. */
  ghost predicate Gatherable(cap: int, polls: seq<Poll>) {
    Smooth(polls) && Size(Lines(RowsOf(polls))) + RESERVE <= cap
  }

  /** The capture is stopped by a requested signal at the k-th poll. */
  ghost predicate StopsAt(cap: int, script: seq<Poll>, k: nat) {
    && k < |script| && (script[k] == Stop(Some(2)) || script[k] == Stop(Some(15)))
    && Gatherable(cap, script[..k])
  }

  lemma SmoothNext(script: seq<Poll>, k: nat)
    requires k < |script|
    ensures Smooth(script[..k + 1]) <==> Smooth(script[..k]) && Quiet(script[k])
  {
    var before, after := script[..k], script[..k + 1];
    assert after[k] == script[k];
    assert forall i | 0 <= i < k :: before[i] == after[i];
  }

  lemma RowsNext(script: seq<Poll>, k: nat)
    requires k < |script| && Smooth(script[..k + 1])
    ensures Smooth(script[..k]) && Quiet(script[k])
    ensures var before := RowsOf(script[..k]);
      RowsOf(script[..k + 1]) ==
        before + if script[k].Datagram? then [RowOf(script[k], |before|, DropStatus(before))] else []
  {
    hide Smooth, Quiet, DropStatus, SoundDatagram;
    SmoothNext(script, k);
    assert script[..k + 1][..k] == script[..k];
  }

  lemma LinesNext(ps: seq<Packet>, p: Packet)
    ensures Lines(ps + [p]) == Lines(ps) + [Row(p)]
    ensures Size(Lines(ps + [p])) == Size(Lines(ps)) + |Render(Row(p))|
  {
    hide Render, Size;
    SizeAppend(Lines(ps), Row(p));
    assert Lines(ps + [p]) == Lines(ps) + [Row(p)];
  }

  /** When one more poll can be received. */
  lemma GatherNext(cap: int, script: seq<Poll>, k: nat)
    requires k < |script|
    ensures Gatherable(cap, script[..k + 1]) ==> Gatherable(cap, script[..k]) && Quiet(script[k])
    ensures Gatherable(cap, script[..k]) && script[k].Idle? ==>
      Smooth(script[..k + 1]) && Gatherable(cap, script[..k + 1]) && RowsOf(script[..k + 1]) == RowsOf(script[..k])
    ensures Gatherable(cap, script[..k]) && SoundDatagram(script[k]) ==>
      var ps := RowsOf(script[..k]);
      var p := RowOf(script[k], |ps|, DropStatus(ps));
      && Smooth(script[..k + 1]) && RowsOf(script[..k + 1]) == ps + [p]
      && (Gatherable(cap, script[..k + 1]) <==> Size(Lines(ps)) + |Render(Row(p))| + RESERVE <= cap)
  {
    hide Smooth, DropStatus, SoundDatagram, Size, Lines, RowsOf, Render, RowOf;
    SmoothNext(script, k);
    SoundIsDatagram(script[k]);
    if Smooth(script[..k + 1]) {
      RowsNext(script, k);
      if script[k].Idle? {
        assert RowsOf(script[..k]) + [] == RowsOf(script[..k]);
      } else {
        var ps := RowsOf(script[..k]);
        LinesNext(ps, RowOf(script[k], |ps|, DropStatus(ps)));
      }
    }
  }

  lemma {:induction false} GatherShrinks(cap: int, script: seq<Poll>, j: nat, k: nat)
    requires j <= k <= |script| && Gatherable(cap, script[..k])
    ensures Gatherable(cap, script[..j]) && (j < k ==> Quiet(script[j]))
    decreases k - j
  {
    hide Gatherable, Quiet;
    if j < k {
      GatherShrinks(cap, script, j + 1, k);
      GatherNext(cap, script, j);
    }
  }

  lemma GatherStart(cap: int, script: seq<Poll>)
    ensures Gatherable(cap, script[..0]) <==> |Render(Ready(1))| + RESERVE <= cap
    ensures Smooth(script[..0]) && RowsOf(script[..0]) == [] && Lines([]) == [Ready(1)]
  {
    SizeAppend([], Ready(1));
    assert Lines([]) == [Ready(1)];
  }

  /** A poll that cannot be received ends every hope of a clean stop. */
  lemma NeverStops(cap: int, script: seq<Poll>, j: nat, k: nat)
    requires j < |script| && Gatherable(cap, script[..j]) && !Gatherable(cap, script[..j + 1])
    ensures StopsAt(cap, script, k) ==> k == j
  {
    hide Gatherable, Quiet;
    if StopsAt(cap, script, k) {
      if j < k {
        GatherShrinks(cap, script, j + 1, k);
      } else if k < j {
        GatherShrinks(cap, script, k, j);
        NotQuiet(script[k]);
      }
    }
  }

  lemma NotQuiet(poll: Poll)
    ensures poll.Stop? || poll.Fault? ==> !Quiet(poll)
  {
  }

  /** There is at most one such poll. */
  lemma StopIsUnique(cap: int, script: seq<Poll>, j: nat, k: nat)
    requires StopsAt(cap, script, j) && StopsAt(cap, script, k)
    ensures j == k
  {
    hide Gatherable, Quiet;
    if j < k {
      GatherShrinks(cap, script, j, k);
      NotQuiet(script[j]);
    } else if k < j {
      GatherShrinks(cap, script, k, j);
      NotQuiet(script[k]);
    }
  }

  /** The payloads of the datagrams among these polls. */
  function Received(script: seq<Poll>): seq<seq<Byte>> {
    if script == [] then []
    else
      var last := script[|script| - 1];
      Received(script[..|script| - 1]) + if last.Datagram? then [last.data] else []
  }

  lemma DatasAppend(ps: seq<Packet>, p: Packet)
    ensures Datas(ps + [p]) == Datas(ps) + [RawOf(p)]
  {
    assert (ps + [p])[..|ps|] == ps;
  }

  lemma FramedAppend(datas: seq<seq<Byte>>, data: seq<Byte>)
    ensures Framed(datas + [data]) == Framed(datas) + Le32(|data|) + data
    ensures Total(datas + [data]) == Total(datas) + |data|
  {
    hide Le32;
    assert (datas + [data])[..|datas|] == datas;
  }

  lemma DropsAppend(ps: seq<Packet>, p: Packet)
    ensures DropStatus(ps + [p]) == if p.drops.Some? then Some(0) else DropStatus(ps)
  {
    assert forall i | 0 <= i < |ps| :: (ps + [p])[i] == ps[i];
    assert p.drops.Some? ==> (ps + [p])[|ps|].drops.Some?;
  }

  lemma PacketAppend(ps: seq<Packet>, p: Packet)
    ensures Datas(ps + [p]) == Datas(ps) + [RawOf(p)]
    ensures Framed(Datas(ps + [p])) == Framed(Datas(ps)) + Le32(|RawOf(p)|) + RawOf(p)
    ensures Total(Datas(ps + [p])) == Total(Datas(ps)) + |RawOf(p)|
    ensures DropStatus(ps + [p]) == if p.drops.Some? then Some(0) else DropStatus(ps)
  {
    hide Datas, Framed, Total, DropStatus, Le32, RawOf;
    DatasAppend(ps, p);
    FramedAppend(Datas(ps), RawOf(p));
    DropsAppend(ps, p);
  }

  /** A row is longer than the datagram it carries twice over. */
  lemma RowSize(p: Packet)
    ensures |Render(Row(p))| > |p.rawHex|
  {
  }

  lemma SmallNumbers()
    ensures |Dec(0)| == 1 && |Dec(2)| == 1 && |Dec(15)| == 2
  {}

  /** The length of a terminal row, piece by piece. */
  lemma ResultSize(s: Summary)
    requires s.ok && s.error.None? && s.packets >= 0 && s.bytes >= 0
    ensures |Render(Result(s))| <=
      160 + |Dec(s.packets)| + |Dec(s.bytes)| + |s.sha| + |Nullable(s.stop)| + |Nullable(s.drops)|
  {
    hide Dec, Nullable;
  }

  lemma OkResultSize(s: Summary)
    requires s.ok && s.error.None? && s.packets >= 0 && s.bytes >= 0 && |s.sha| == 64
    requires s.stop == Some(2) || s.stop == Some(15)
    requires s.drops == None || s.drops == Some(0)
    ensures |Render(Result(s))| <= 240 + |Dec(s.packets)| + |Dec(s.bytes)|
  {
    hide Dec, Render;
    SmallNumbers();
    ResultSize(s);
  }

  /** What the guest has written so far. */
  ghost predicate Wrote(out: seq<Line>, ps: seq<Packet>) {
    |out| == |ps| + 1 && out[0] == Ready(1) && forall i | 0 <= i < |ps| :: out[i + 1] == Row(ps[i])
  }

  /** The locals of `collect` after these packets. */
  ghost predicate Kept(out: seq<Line>, ps: seq<Packet>, stream: seq<Byte>, total: nat, drops: Option<nat>) {
    && Wrote(out, ps) && RowsOk(ps)
    && stream == Framed(Datas(ps)) && total == Total(Datas(ps)) && drops == DropStatus(ps)
  }

  lemma RowsAppend(ps: seq<Packet>, p: Packet)
    requires RowsOk(ps) && PacketOk(p, |ps|)
    ensures RowsOk(ps + [p])
  {
    forall i | 0 <= i < |ps + [p]| ensures PacketOk((ps + [p])[i], i) {
      assert i < |ps| ==> (ps + [p])[i] == ps[i];
    }
  }

  lemma KeptAppend(out: seq<Line>, ps: seq<Packet>, stream: seq<Byte>, total: nat, drops: Option<nat>,
                   p: Packet, drops': Option<nat>)
    requires Kept(out, ps, stream, total, drops)
    requires PacketOk(p, |ps|) && p.drops == drops' && (drops' == Some(0) || drops' == drops)
    ensures Kept(out + [Row(p)], ps + [p], stream + Le32(|RawOf(p)|) + RawOf(p), total + |RawOf(p)|, drops')
  {
    RowsAppend(ps, p);
    PacketAppend(ps, p);
  }

  lemma KeptIsLaid(out: seq<Line>, ps: seq<Packet>, s: Summary)
    requires Wrote(out, ps)
    ensures Laid(out + [Result(s)]) && Packets(out + [Result(s)]) == ps
  {
    var lines := out + [Result(s)];
    forall i | 1 <= i < |lines| - 1 ensures lines[i] == Row(ps[i - 1]) {
      assert out[(i - 1) + 1] == Row(ps[i - 1]);
    }
  }

  /** What the guest reports once it stops cleanly is what the host accepts. */
  lemma KeptIsValid(
    sha: Digest, out: seq<Line>, ps: seq<Packet>, stream: seq<Byte>, total: nat, drops: Option<nat>, s: Summary)
    requires Kept(out, ps, stream, total, drops) && HexDigest(sha(stream))
    requires s == Summary(true, |ps|, total, sha(stream), None, s.stop, drops)
    requires (s.stop == Some(2) || s.stop == Some(15))
    ensures Laid(out + [Result(s)]) && Packets(out + [Result(s)]) == ps
    ensures Valid(sha, out + [Result(s)]) <==> Size(out + [Result(s)]) <= CAP && TimesOk(ps)
  {
    hide Framed, Datas, Total, DropStatus, RowsOk, TimesOk, Size;
    KeptIsLaid(out, ps, s);
  }

  /** The terminal row of a clean stop fits into the reserve. */
  lemma ReserveSuffices(cap: int, emitted: nat, s: Summary)
    requires s.ok && s.error.None? && |s.sha| == 64 && (s.stop == Some(2) || s.stop == Some(15))
    requires s.drops == None || s.drops == Some(0)
    requires 0 <= s.packets <= emitted && 0 <= 2 * s.bytes <= emitted && emitted + RESERVE <= cap
    requires 2 * |Dec(cap)| <= 3840
    ensures emitted + |Render(Result(s))| <= cap
  {
    OkResultSize(s);
    DecGrows(s.packets, cap);
    DecGrows(s.bytes, cap);
  }

  lemma DefaultCapDigits()
    ensures |Dec(CAP)| == 7
  {
    assert |Dec(4194304 / 100000)| == 2;
    assert |Dec(4194304 / 10000)| == 3;
    assert |Dec(4194304 / 1000)| == 4;
    assert |Dec(4194304 / 100)| == 5;
    assert |Dec(4194304 / 10)| == 6;
  }

  predicate Fits(out: seq<Line>, line: Line, reserved: nat, cap: int) {
    Size(out) + |Render(line)| + reserved <= cap
  }

  /** The locals of `collect`. */
  datatype Locals = Locals(out: seq<Line>, stream: seq<Byte>, total: nat, count: nat, drops: Option<nat>)

  ghost predicate Sound(cap: int, ps: seq<Packet>, l: Locals) {
    match l case Locals(out, stream, total, count, drops) =>
      && Kept(out, ps, stream, total, drops) && count == |ps|
      && Size(out) + RESERVE <= cap && count <= Size(out) && 2 * total <= Size(out)
  }

  ghost predicate Within(cap: int, l: Locals) {
    match l case Locals(out, _, _, _, _) => Size(out) <= cap
  }

  lemma SoundIsWithin(cap: int, ps: seq<Packet>, l: Locals, drops: Option<nat>)
    requires Sound(cap, ps, l)
    ensures Within(cap, l.(drops := drops))
  {}

  lemma SoundParts(cap: int, ps: seq<Packet>, l: Locals)
    requires Sound(cap, ps, l)
    ensures l.count == |ps| && l.drops in {None, Some(0)} && l.drops == DropStatus(ps) && l.out == Lines(ps)
  {
    hide RowsOk, Framed, Datas, Total, Size;
    assert |l.out| == |Lines(ps)|;
    assert forall i | 0 <= i < |l.out| :: l.out[i] == Lines(ps)[i];
  }

  lemma FitsMeans(out: seq<Line>, line: Line, cap: int)
    ensures Fits(out, line, RESERVE, cap) <==> Size(out) + |Render(line)| + RESERVE <= cap
  {
  }

  /** One more row, written within the cap. */
  lemma SoundAppend(cap: int, ps: seq<Packet>, l: Locals, p: Packet, drops: Option<nat>)
    requires Sound(cap, ps, l) && PacketOk(p, l.count) && p.rawHex == Hex(RawOf(p))
    requires p.drops == drops && (drops == Some(0) || drops == l.drops) && Fits(l.out, Row(p), RESERVE, cap)
    ensures var data := RawOf(p);
      var l' := Locals(l.out + [Row(p)], l.stream + Le32(|data|) + data, l.total + |data|, l.count + 1, drops);
      Sound(cap, ps + [p], l') && Within(cap, l') && Datas(ps + [p]) == Datas(ps) + [data]
  {
    hide Kept, PacketOk, Render, Framed, Datas, Hex;
    KeptAppend(l.out, ps, l.stream, l.total, l.drops, p, drops);
    PacketAppend(ps, p);
    SizeAppend(l.out, Row(p));
    RowSize(p);
    HexLength(RawOf(p));
  }

  lemma HexLength(data: seq<Byte>)
    ensures |Hex(data)| == 2 * |data|
  {}

  /** One round of the loop with a datagram: on an error only the drop counter may have moved. */
  method TakeDatagram(poll: Poll, cap: int, l: Locals, ghost ps: seq<Packet>)
    returns (error: Option<string>, l': Locals, ghost ps': seq<Packet>)
    requires poll.Datagram? && Sound(cap, ps, l)
    ensures Within(cap, l')
    ensures error.None? ==> Sound(cap, ps', l') && Datas(ps') == Datas(ps) + [poll.data]
    ensures error.None? <==>
      && SoundDatagram(poll)
      && Size(Lines(ps)) + |Render(Row(RowOf(poll, |ps|, DropStatus(ps))))| + RESERVE <= cap
    ensures error.None? ==> ps' == ps + [RowOf(poll, |ps|, DropStatus(ps))]
    ensures error.Some? ==> l' == l.(drops := l'.drops) && ps' == ps
  {
    hide Sound, Within, PacketOk, Datas, Framed, Render, Size, Fits, Hex, RawOf, RowOf, SoundDatagram, Lines;
    hide DropStatus;
    SoundParts(cap, ps, l);
    var p, drops;
    error, p, drops := HandleDatagram(poll, l.count, l.drops);
    l', ps' := l.(drops := drops), ps;
    if error.None? && !Fits(l.out, Row(p), RESERVE, cap) {
      error := Some("Monitor output cap exceeded");
    }
    FitsMeans(l.out, Row(p), cap);
    SoundIsWithin(cap, ps, l, drops);
    if error.None? {
      SoundAppend(cap, ps, l, p, drops);
      ps' := ps + [p];
      l' := Locals(l.out + [Row(p)], l.stream + Le32(|poll.data|) + poll.data, l.total + |poll.data|, l.count +
        1, drops);
    }
  }

  /** The report on these packets after a requested stop. */
  ghost function Report(sha: Digest, ps: seq<Packet>, stop: Option<int>): Summary {
    Summary(true, |ps|, Total(Datas(ps)), sha(Framed(Datas(ps))), None, stop, DropStatus(ps))
  }

  lemma SoundReport(sha: Digest, cap: int, ps: seq<Packet>, l: Locals, stop: Option<int>)
    requires Sound(cap, ps, l)
    ensures Report(sha, ps, stop) == Summary(true, l.count, l.total, sha(l.stream), None, stop, l.drops)
  {
    hide Framed, Datas, Total, DropStatus, RowsOk, Size;
  }

  /** The terminal row. */
  method Terminate(sha: Digest, cap: int, l: Locals, error: Option<string>, stopped: Option<int>, ghost ps: seq<Packet>)
    returns (outcome: Outcome, out: seq<Line>)
    requires forall s :: HexDigest(sha(s))
    requires Within(cap, l)
    requires error.None? ==> Sound(cap, ps, l) && (stopped == Some(2) || stopped == Some(15))
    ensures outcome != Running && Size(out) <= cap
    ensures error.None? ==>
      outcome == if Size(l.out) + |Render(Result(Report(sha, ps, stopped)))| <= cap
        then Returned(Report(sha, ps, stopped)) else Raised
    ensures error.None? && 2 * |Dec(cap)| <= 3840 ==> outcome.Returned?
    ensures out == l.out + if outcome.Returned? then [Result(outcome.summary)] else []
    ensures outcome.Returned? ==>
      outcome.summary == Summary(error.None?, l.count, l.total, sha(l.stream), error, stopped, l.drops)
    ensures outcome.Returned? <==> Fits(l.out, Result(
      Summary(error.None?, l.count, l.total, sha(l.stream), error, stopped, l.drops)), 0, cap)
    ensures outcome.Returned? ==> out == l.out + [Result(outcome.summary)] && (outcome.summary.ok <==> error.None?)
    ensures outcome.Returned? && error.None? ==>
      Laid(out) && Packets(out) == ps && (Valid(sha, out) <==> Size(out) <= CAP && TimesOk(ps))
  {
    var summary := Summary(error.None?, l.count, l.total, sha(l.stream), error, stopped, l.drops);
    SizeAppend(l.out, Result(summary));
    if error.None? {
      SoundReport(sha, cap, ps, l, stopped);
      KeptIsValid(sha, l.out, ps, l.stream, l.total, l.drops, summary);
      if 2 * |Dec(cap)| <= 3840 {
        ReserveSuffices(cap, Size(l.out), summary);
      }
    }
    if Fits(l.out, Result(summary), 0, cap) {
      outcome, out := Returned(summary), l.out + [Result(summary)];
    } else {
      outcome, out := Raised, l.out;
    }
  }

  /** The rows written so far carry exactly the datagrams received before a stop. */
  ghost predicate Faithful(script: seq<Poll>, k: nat, stopped: Option<int>, ps: seq<Packet>) {
    match stopped
    case None => k <= |script| && Datas(ps) == Received(script[..k])
    case Some(signal) =>
      && (signal == 2 || signal == 15)
      && 0 < k <= |script| && script[k - 1].Stop? && Datas(ps) == Received(script[..k - 1])
  }

  lemma FaithfulNext(script: seq<Poll>, k: nat, ps: seq<Packet>, ps': seq<Packet>)
    requires k < |script| && Faithful(script, k, None, ps)
    requires Datas(ps') == Datas(ps) + if script[k].Datagram? then [script[k].data] else []
    ensures Faithful(script, k + 1, None, ps')
  {
    assert script[..k + 1][..k] == script[..k];
  }

  lemma FaithfulStart(script: seq<Poll>)
    ensures Faithful(script, 0, None, [])
  {
  }

  lemma FaithfulStop(script: seq<Poll>, k: nat, signal: int, ps: seq<Packet>)
    requires k < |script| && Faithful(script, k, None, ps) && script[k].Stop? && (signal == 2 || signal == 15)
    ensures Faithful(script, k + 1, Some(signal), ps)
  {
  }

  /** The ready row. */
  method Announce(cap: int) returns (error: Option<string>, l: Locals)
    requires cap > RESERVE
    ensures Within(cap, l) && (error.None? ==> Sound(cap, [], l))
    ensures error.None? <==> |Render(Ready(1))| + RESERVE <= cap
  {
    error, l := None, Locals([], [], 0, 0, None);
    if !Fits([], Ready(1), RESERVE, cap) {
      error := Some("Monitor output cap exceeded");
    } else {
      SizeAppend([], Ready(1));
      l := l.(out := [Ready(1)]);
    }
  }

  /** The receive loop; `running` when the script ended first. */
  method Gather(cap: int, script: seq<Poll>)
    returns (running: bool, error: Option<string>, stopped: Option<int>, l: Locals, ghost ps: seq<Packet>, ghost k: nat)
    requires cap > RESERVE
    ensures Within(cap, l)
    ensures running ==> error.None?
    ensures error.None? && !running ==> Sound(cap, ps, l) && stopped.Some? && Faithful(script, k, stopped, ps)
    ensures running <==> Gatherable(cap, script)
    ensures error.None? && !running ==>
      k > 0 && StopsAt(cap, script, k - 1) && stopped == script[k - 1].signal && ps == RowsOf(script[..k - 1])
    ensures error.Some? ==> forall j: nat :: !StopsAt(cap, script, j)
    ensures error.Some? && Gatherable(cap, script[..0]) ==> Breaks(cap, script, k) && Holding(RowsOf(script[..k]), l)
  {
    hide *;
    running, stopped, ps, k := false, None, [], 0;
    error, l := Announce(cap);
    FaithfulStart(script);
    GatherStart(cap, script);
    if error.Some? {
      NeverBegun(cap, script);
      return;
    }
    for i := 0 to |script|
      invariant Within(cap, l) && error.None? && stopped.None? && !running
      invariant Sound(cap, ps, l) && Faithful(script, i, None, ps)
      invariant Gatherable(cap, script[..i]) && Smooth(script[..i]) && ps == RowsOf(script[..i])
    {
      var poll := script[i];
      ghost var before := ps;
      GatherNext(cap, script, i);
      match poll {
        case Stop(signal) =>
          stopped := signal;
          StoppedHere(cap, script, i);
          if !(signal == Some(2) || signal == Some(15)) {
            error := Some("Invalid requested stop signal");
            NotQuiet(poll);
            BreaksHere(cap, script, i);
            SoundHolds(cap, ps, l, l);
            k := i;
            return;
          } else {
            FaithfulStop(script, i, signal.value, ps);
          }
          k := i + 1;
          return;
        case Idle =>
        case Fault(text) =>
          error := Some(text);
          NotQuiet(poll);
          GatherEnds(cap, script, i);
          BreaksHere(cap, script, i);
          SoundHolds(cap, ps, l, l);
          k := i;
          return;
        case Datagram(_, _, _, _, _) =>
          ghost var earlier := l;
          error, l, ps := TakeDatagram(poll, cap, l, ps);
          if error.Some? {
            QuietDatagram(poll);
            GatherEnds(cap, script, i);
            BreaksHere(cap, script, i);
            SoundHolds(cap, ps, earlier, l);
            k := i;
            return;
          }
      }
      FaithfulNext(script, i, before, ps);
    }
    assert script[..|script|] == script;
    running, k := true, |script|;
  }

  lemma SoundIsDatagram(poll: Poll)
    ensures SoundDatagram(poll) ==> poll.Datagram?
  {
  }

  lemma QuietDatagram(poll: Poll)
    ensures poll.Datagram? ==> (Quiet(poll) <==> SoundDatagram(poll))
  {
  }

  lemma NeverBegun(cap: int, script: seq<Poll>)
    requires !Gatherable(cap, script[..0])
    ensures !Gatherable(cap, script) && forall k: nat :: !StopsAt(cap, script, k)
  {
    hide Gatherable, Quiet;
    assert script[..|script|] == script;
    if Gatherable(cap, script) {
      GatherShrinks(cap, script, 0, |script|);
    }
    forall k: nat ensures !StopsAt(cap, script, k) {
      if StopsAt(cap, script, k) {
        GatherShrinks(cap, script, 0, k);
      }
    }
  }

  /** A poll other than a stop that cannot be received. */
  lemma GatherEnds(cap: int, script: seq<Poll>, i: nat)
    requires i < |script| && !script[i].Stop?
    requires Gatherable(cap, script[..i]) && !Gatherable(cap, script[..i + 1])
    ensures !Gatherable(cap, script) && forall k: nat :: !StopsAt(cap, script, k)
  {
    hide Gatherable, Quiet;
    assert script[..|script|] == script;
    if Gatherable(cap, script) {
      GatherShrinks(cap, script, i + 1, |script|);
    }
    forall k: nat ensures !StopsAt(cap, script, k) {
      NeverStops(cap, script, i, k);
    }
  }

  lemma StoppedHere(cap: int, script: seq<Poll>, i: nat)
    requires i < |script| && script[i].Stop? && Gatherable(cap, script[..i])
    ensures !Gatherable(cap, script)
    ensures script[i].signal == Some(2) || script[i].signal == Some(15) <==> StopsAt(cap, script, i)
    ensures forall k: nat :: StopsAt(cap, script, k) ==> k == i
  {
    hide Gatherable, Quiet;
    NotQuiet(script[i]);
    GatherNext(cap, script, i);
    assert script[..|script|] == script;
    if Gatherable(cap, script) {
      GatherShrinks(cap, script, i + 1, |script|);
    }
    forall k: nat | StopsAt(cap, script, k) ensures k == i {
      NeverStops(cap, script, i, k);
    }
  }

  lemma NothingWritten()
    ensures Size([]) == 0
  {}

  lemma WithinIsSize(cap: int, l: Locals)
    ensures Within(cap, l) <==> Size(l.out) <= cap
  {}

  lemma FaithfulGives(script: seq<Poll>, k: nat, signal: Option<int>, ps: seq<Packet>)
    requires Faithful(script, k, signal, ps) && signal.Some?
    ensures signal == Some(2) || signal == Some(15)
    ensures exists j :: 0 <= j < |script| && script[j].Stop? && Datas(ps) == Received(script[..j])
  {}

  /** The rows of the polls before the stop and, if it fits, the report on them. */
  ghost predicate Concludes(sha: Digest, cap: int, script: seq<Poll>, k: nat, outcome: Outcome, out: seq<Line>)
    requires StopsAt(cap, script, k)
  {
    var ps := RowsOf(script[..k]);
    var report := Report(sha, ps, script[k].signal);
    if Size(Lines(ps)) + |Render(Result(report))| <= cap
    then outcome == Returned(report) && out == Lines(ps) + [Result(report)]
    else outcome == Raised && out == Lines(ps)
  }

  /** The first poll that cannot be received. */
  ghost predicate Breaks(cap: int, script: seq<Poll>, k: nat) {
    k < |script| && Smooth(script[..k]) && Gatherable(cap, script[..k]) && !Gatherable(cap, script[..k + 1])
  }

  /** The locals hold these packets; the drop counter may have moved on. */
  ghost predicate Holding(ps: seq<Packet>, l: Locals) {
    && l.out == Lines(ps) && l.count == |ps|
    && l.total == Total(Datas(ps)) && l.stream == Framed(Datas(ps))
  }

  lemma SoundHolds(cap: int, ps: seq<Packet>, l: Locals, l': Locals)
    requires Sound(cap, ps, l) && l' == l.(drops := l'.drops)
    ensures Holding(ps, l')
  {
    SoundParts(cap, ps, l);
    hide Framed, Datas, Total, DropStatus, RowsOk, Size, Lines;
  }

  lemma BreaksHere(cap: int, script: seq<Poll>, k: nat)
    requires k < |script| && Smooth(script[..k]) && Gatherable(cap, script[..k]) && !Gatherable(cap, script[..k + 1])
    ensures Breaks(cap, script, k)
  {
  }

  /** The rows received before the error, and the report that counts them. */
  ghost predicate Interrupted(
    sha: Digest, cap: int, script: seq<Poll>, k: nat, error: Option<string>, outcome: Outcome, out: seq<Line>)
    requires Breaks(cap, script, k)
  {
    var ps := RowsOf(script[..k]);
    match outcome
    case Running => false
    case Raised => out == Lines(ps)
    case Returned(s) =>
      && out == Lines(ps) + [Result(s)] && s.error == error && !s.ok
      && s.packets == |ps| && s.bytes == Total(Datas(ps)) && s.sha == sha(Framed(Datas(ps)))
  }

  /** A script received to its end does not stop. */
  lemma RunsOn(cap: int, script: seq<Poll>)
    requires Gatherable(cap, script)
    ensures forall k: nat :: !StopsAt(cap, script, k)
  {
    hide Gatherable, Quiet;
    assert script[..|script|] == script;
    forall k: nat ensures !StopsAt(cap, script, k) {
      if StopsAt(cap, script, k) {
        GatherShrinks(cap, script, k, |script|);
        NotQuiet(script[k]);
      }
    }
  }

  /**
   `collect`, over every script of polls.  The text never exceeds the cap; after
   a clean stop the reserve has room for the terminal row, the rows carry exactly
   the datagrams received, and the host accepts the text if and only if it is
   within the host's own cap and the clocks behaved.
   */
  method Collect(sha: Digest, cap: int, script: seq<Poll>)
    returns (outcome: Outcome, out: seq<Line>, error: Option<string>)
    requires forall s :: HexDigest(sha(s))
    ensures cap <= RESERVE ==> outcome == Raised && out == []
    ensures cap > RESERVE ==> Size(out) <= cap
    ensures cap > RESERVE && error.None? && 2 * |Dec(cap)| <= 3840 ==> outcome != Raised
    ensures cap == CAP && error.None? ==> outcome != Raised
    ensures outcome.Returned? ==>
      out != [] && out[|out| - 1] == Result(outcome.summary) && (outcome.summary.ok <==> error.None?)
    ensures outcome.Returned? && outcome.summary.ok ==>
      && Laid(out)
      && (Valid(sha, out) <==> Size(out) <= CAP && TimesOk(Packets(out)))
      && exists k :: 0 <= k < |script| && script[k].Stop? && Datas(Packets(out)) == Received(script[..k])
    ensures cap <= CAP && outcome.Returned? && outcome.summary.ok ==> (Valid(sha, out) <==> TimesOk(Packets(out)))
    ensures cap > RESERVE ==> (outcome == Running <==> Gatherable(cap, script))
    ensures cap > RESERVE && outcome != Running ==> (error.None? <==> exists k: nat :: StopsAt(cap, script, k))
    ensures cap > RESERVE ==> forall k: nat :: StopsAt(cap, script, k) ==> Concludes(sha, cap, script, k, outcome, out)
    ensures cap > RESERVE && error.Some? && Gatherable(cap, []) ==>
      exists k: nat :: Breaks(cap, script, k) && Interrupted(sha, cap, script, k, error, outcome, out)
  {
    DefaultCapDigits();
    hide Laid, Valid, Packets, Datas, Dec, Sound, Within, HexDigest, TimesOk, Size, Faithful, Received;
    hide Render, Gatherable, Lines, RowsOf, Report, StopsAt, Breaks, Fits, Total, Framed;
    assert script[..0] == [];
    NothingWritten();
    if cap <= RESERVE {
      return Raised, [], Some("Monitor cap must be integer greater than terminal reserve");
    }
    var running, stopped, l;
    ghost var ps, k;
    running, error, stopped, l, ps, k := Gather(cap, script);
    WithinIsSize(cap, l);
    if running {
      RunsOn(cap, script);
      return Running, l.out, error;
    }
    if error.None? {
      FaithfulGives(script, k, stopped, ps);
      SoundParts(cap, ps, l);
      forall j: nat | StopsAt(cap, script, j) ensures j == k - 1 {
        StopIsUnique(cap, script, j, k - 1);
      }
    }
    outcome, out := Terminate(sha, cap, l, error, stopped, ps);
    if error.None? {
      assert StopsAt(cap, script, k - 1);
      assert Concludes(sha, cap, script, k - 1, outcome, out);
    } else if Gatherable(cap, script[..0]) {
      assert Interrupted(sha, cap, script, k, error, outcome, out);
    }
  }
}
