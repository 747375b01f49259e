/**
 What the host accepts, in terms of what the guest can write.

 The host re-derives everything from the rows, the guest writes them from what it
 received.  The two meet: a capture is valid exactly when some run of the guest
 with orderly clocks writes it, except that the host does not insist on the drop
 status staying once it was reported, which the guest always does.
 */
module Collectable {
  import opened Common
  import opened Capture

  // ---- hexadecimal, the other way round ------------------------------------

  lemma NibbleIsDigit(c: char)
    requires Nibble(c).Some? && Nibble(c).value <= 15
    ensures Digits[Nibble(c).value] == c
  {
    var d := Nibble(c).value;
    if d < 10 {
      assert Digits[d] == '0' + d as char;
    } else {
      assert Digits[d] == 'a' + (d - 10) as char;
    }
  }

  lemma UnhexLast(s: string)
    requires s != "" && Unhex(s).Some?
    ensures |s| >= 2 && Unhex(s[..|s| - 2]).Some?
    ensures var data, high, low := Unhex(s).value, Nibble(s[|s| - 2]), Nibble(s[|s| - 1]);
      && high.Some? && low.Some? && high.value <= 15 && low.value <= 15
      && data == Unhex(s[..|s| - 2]).value + [16 * high.value + low.value]
  {
  }

  /** Text that decodes is the text of what it decodes to. */
  lemma {:induction false} UnhexRoundTrip(s: string)
    requires Unhex(s).Some?
    ensures Hex(Unhex(s).value) == s
  {
    hide Hex, Unhex, Nibble;
    if s == "" {
      NoHex();
    } else {
      UnhexLast(s);
      var n := |s| - 2;
      var high, low := Nibble(s[n]).value, Nibble(s[n + 1]).value;
      UnhexRoundTrip(s[..n]);
      NibbleIsDigit(s[n]);
      NibbleIsDigit(s[n + 1]);
      HexSnoc(Unhex(s[..n]).value, 16 * high + low);
      assert (16 * high + low) / 16 == high && (16 * high + low) % 16 == low;
      assert s == s[..n] + [s[n], s[n + 1]];
    }
  }

  // ---- one row -------------------------------------------------------------

  /** Ancillaries that give this kernel time and this drop status. */
  function ControlFor(p: Packet): seq<Ancillary> {
    (if p.kernel.Some? then [Timestamp(true, p.kernel.value / 1000000000, p.kernel.value % 1000000000)] else []) +
    (if p.drops.Some? then [Drops(true, 0)] else [])
  }

  function PollFor(p: Packet): Poll
    requires p.flags >= 0
  {
    Datagram(p.wall, p.mono, RawOf(p), ControlFor(p), p.flags)
  }

  lemma ControlIsSound(p: Packet)
    requires p.kernel.Some? ==> p.kernel.value >= 0
    ensures OneStamp(ControlFor(p)) && NoDrops(ControlFor(p))
    ensures forall i | 0 <= i < |ControlFor(p)| :: WellMade(ControlFor(p)[i])
    ensures Reports(ControlFor(p)) <==> p.drops.Some?
    ensures KernelTime(ControlFor(p)) == p.kernel
  {
    var control := ControlFor(p);
    if p.kernel.Some? {
      assert control[0] == Timestamp(true, p.kernel.value / 1000000000, p.kernel.value % 1000000000);
      assert StampValue(control[0]) == p.kernel.value;
    }
    if p.drops.Some? {
      assert control[|control| - 1] == Drops(true, 0);
    }
  }

  /** A row the host accepts is the row of some sound datagram. */
  lemma PacketIsRow(p: Packet, number: nat, drops: Option<int>)
    requires PacketOk(p, number) && (p.drops.None? ==> drops.None?)
    ensures SoundDatagram(PollFor(p)) && RowOf(PollFor(p), number, drops) == p
  {
    hide Unhex, Hex, Truncated, OneStamp, NoDrops, WellMade, Reports, KernelTime, ControlFor;
    ControlIsSound(p);
    UnhexRoundTrip(p.rawHex);
  }

  lemma KernelTimeSound(control: seq<Ancillary>)
    requires forall i | 0 <= i < |control| :: WellMade(control[i])
    ensures KernelTime(control).Some? ==> KernelTime(control).value >= 0
  {
  }

  /** And the row of a sound datagram is accepted. */
  lemma RowIsPacket(poll: Poll, number: nat, drops: Option<int>)
    requires SoundDatagram(poll) && drops in {None, Some(0)}
    ensures PacketOk(RowOf(poll, number, drops), number) && RawOf(RowOf(poll, number, drops)) == poll.data
  {
    hide Unhex, Hex, Truncated, OneStamp, NoDrops, Reports, KernelTime, WellMade;
    KernelTimeSound(poll.control);
    HexRoundTrip(poll.data);
  }

  // ---- all rows ------------------------------------------------------------

  /** A drop status once reported stays. */
  ghost predicate Sticky(ps: seq<Packet>) {
    forall i, j | 0 <= i < j < |ps| && ps[i].drops.Some? :: ps[j].drops.Some?
  }

  function PollsFor(ps: seq<Packet>): seq<Poll>
    requires RowsOk(ps)
  {
    seq(|ps|, i requires 0 <= i < |ps| => assert PacketOk(ps[i], i); PollFor(ps[i]))
  }

  lemma {:induction false} PacketsAreRows(ps: seq<Packet>)
    requires RowsOk(ps) && Sticky(ps)
    ensures Smooth(PollsFor(ps)) && RowsOf(PollsFor(ps)) == ps
  {
    hide PacketOk, SoundDatagram, RowOf;
    if ps != [] {
      var n := |ps| - 1;
      var polls := PollsFor(ps);
      PacketsAreRows(ps[..n]);
      assert polls[..n] == PollsFor(ps[..n]);
      assert polls[..n + 1] == polls;
      assert PacketOk(ps[n], n);
      PacketIsRow(ps[n], n, DropStatus(ps[..n]));
      SmoothNext(polls, n);
      RowsNext(polls, n);
      assert ps == ps[..n] + [ps[n]];
    }
  }

  lemma {:induction false} RowsArePackets(polls: seq<Poll>)
    requires Smooth(polls)
    ensures RowsOk(RowsOf(polls)) && Sticky(RowsOf(polls))
  {
    hide PacketOk, SoundDatagram, RowOf;
    if polls != [] {
      var n := |polls| - 1;
      assert polls[..n + 1] == polls;
      RowsNext(polls, n);
      RowsArePackets(polls[..n]);
      if polls[n].Datagram? {
        var before := RowsOf(polls[..n]);
        var p := RowOf(polls[n], |before|, DropStatus(before));
        RowIsPacket(polls[n], |before|, DropStatus(before));
        RowsAppend(before, p);
        StickyAppend(before, polls[n]);
      }
    }
  }

  lemma StickyAppend(ps: seq<Packet>, poll: Poll)
    requires Sticky(ps) && SoundDatagram(poll)
    ensures Sticky(ps + [RowOf(poll, |ps|, DropStatus(ps))])
  {
  }

  // ---- whole captures ------------------------------------------------------

  /** The guest, stopped at the k-th poll of this script, writes exactly these lines. */
  ghost predicate Writes(sha: Digest, cap: int, script: seq<Poll>, k: nat, lines: seq<Line>) {
    && StopsAt(cap, script, k)
    && var ps := RowsOf(script[..k]);
       lines == Lines(ps) + [Result(Report(sha, ps, script[k].signal))]
  }

  lemma LinesAreWrote(ps: seq<Packet>)
    ensures Wrote(Lines(ps), ps)
  {
  }

  lemma LaidIsLines(lines: seq<Line>)
    requires Laid(lines)
    ensures lines == Lines(Packets(lines)) + [Result(lines[|lines| - 1].summary)]
  {
    var ps := Packets(lines);
    assert |Lines(ps)| == |lines| - 1;
    assert forall i | 0 <= i < |lines| - 1 :: Lines(ps)[i] == lines[i];
  }

  lemma ReportIsSummary(sha: Digest, ps: seq<Packet>, s: Summary)
    requires forall b :: HexDigest(sha(b))
    ensures Summarises(sha, s, ps) <==> (s.stop == Some(2) || s.stop == Some(15)) && s == Report(sha, ps, s.stop)
  {
    hide Framed, Datas, Total, DropStatus, HexDigest;
    assert HexDigest(sha(Framed(Datas(ps))));
  }

  /** Packets that pass the checks, and the summary of them, are written by some run. */
  lemma PacketsAreWritten(sha: Digest, ps: seq<Packet>, s: Summary)
    requires forall b :: HexDigest(sha(b))
    requires RowsOk(ps) && Sticky(ps) && Summarises(sha, s, ps)
    ensures exists cap, script, k :: Writes(sha, cap, script, k, Lines(ps) + [Result(s)])
  {
    hide Summarises, RowsOk, Report, Lines, Size, RowsOf, Smooth, PollsFor, Sticky, HexDigest;
    PacketsAreRows(ps);
    ReportIsSummary(sha, ps, s);
    var polls := PollsFor(ps);
    var script := polls + [Stop(s.stop)];
    assert script[..|polls|] == polls && script[|polls|] == Stop(s.stop);
    assert Writes(sha, Size(Lines(ps)) + RESERVE, script, |polls|, Lines(ps) + [Result(s)]);
  }

  lemma ValidIsWritten(sha: Digest, lines: seq<Line>)
    requires forall b :: HexDigest(sha(b))
    requires Valid(sha, lines) && Sticky(Packets(lines))
    ensures exists cap, script, k :: Writes(sha, cap, script, k, lines)
  {
    hide Writes, Summarises, RowsOk, TimesOk, Lines, Size, Sticky, HexDigest, Packets;
    LaidIsLines(lines);
    PacketsAreWritten(sha, Packets(lines), lines[|lines| - 1].summary);
  }

  lemma WrittenIsValid(sha: Digest, cap: int, script: seq<Poll>, k: nat, lines: seq<Line>)
    requires forall b :: HexDigest(sha(b))
    requires Writes(sha, cap, script, k, lines)
    ensures Laid(lines) && Packets(lines) == RowsOf(script[..k]) && Sticky(Packets(lines))
    ensures Valid(sha, lines) <==> Size(lines) <= CAP && TimesOk(Packets(lines))
  {
    hide Summarises, RowsOk, TimesOk, Report, Lines, Size, RowsOf, Smooth, Packets, Laid, Sticky, HexDigest, Wrote;
    var ps := RowsOf(script[..k]);
    var s := Report(sha, ps, script[k].signal);
    RowsArePackets(script[..k]);
    LinesAreWrote(ps);
    KeptIsLaid(Lines(ps), ps, s);
    ReportStop(sha, ps, script[k].signal);
    ReportIsSummary(sha, ps, s);
  }

  lemma ReportStop(sha: Digest, ps: seq<Packet>, stop: Option<int>)
    ensures Report(sha, ps, stop).stop == stop
  {
  }

  /**
   The host accepts a capture with a lasting drop status if and only if some run of
   the guest writes it, it is within the host's cap, and the clocks behaved.
   */
  lemma ValidIffCollectable(sha: Digest, lines: seq<Line>)
    requires forall b :: HexDigest(sha(b))
    ensures Valid(sha, lines) && Sticky(Packets(lines)) <==>
      && Laid(lines) && Size(lines) <= CAP && TimesOk(Packets(lines))
      && exists cap, script, k :: Writes(sha, cap, script, k, lines)
  {
    hide Writes, Sticky, TimesOk, Size, Packets, Laid, RowsOk, Summarises, HexDigest;
    if Valid(sha, lines) && Sticky(Packets(lines)) {
      ValidIsWritten(sha, lines);
    }
    if cap, script, k :| Writes(sha, cap, script, k, lines) {
      WrittenIsValid(sha, cap, script, k, lines);
    }
  }

  // ---- where the host is more lenient --------------------------------------

  const Small: seq<Byte> := [9, 0, 0, 0, 0, 0]

  /** The row of a small datagram. */
  function SmallRow(number: nat, drops: Option<int>): Packet {
    Packet(number, 0, 0, None, 9, 0, Hex(Small), 0, drops)
  }

  lemma SmallIsOk(number: nat, drops: Option<int>)
    requires number < 10 && drops in {None, Some(0)}
    ensures PacketOk(SmallRow(number, drops), number) && RawOf(SmallRow(number, drops)) == Small
    ensures |Render(Row(SmallRow(number, drops)))| <= 1000
  {
    hide Hex, Unhex;
    HexRoundTrip(Small);
    HexLength(Small);
    assert |Dec(number)| == 1 && |Dec(0)| == 1 && |Dec(9)| == 1;
  }

  /** Its status is reported by the first packet and missing from the second. */
  function Lapsed(): seq<Packet> { [SmallRow(0, Some(0)), SmallRow(1, None)] }

  lemma LapsedData()
    ensures Datas(Lapsed()) == [Small, Small] && Total(Datas(Lapsed())) == 12 && DropStatus(Lapsed()) == Some(0)
  {
    hide Render, Hex, PacketOk, RawOf;
    SmallIsOk(0, Some(0));
    SmallIsOk(1, None);
    var ps := Lapsed();
    assert ps[..1] == [ps[0]] && ps[..1][..0] == [];
    assert Datas(ps[..1]) == [Small];
    assert [Small, Small][..1] == [Small] && [Small][..0] == [];
    assert Total([Small]) == 6;
    assert ps[0].drops.Some?;
  }

  lemma LapsedSize(sha: Digest)
    requires forall b :: HexDigest(sha(b))
    ensures Size(Lines(Lapsed()) + [Result(Report(sha, Lapsed(), Some(2)))]) <= CAP
  {
    hide Render, Hex, PacketOk, RawOf, Datas, Total, Framed, Dec, DropStatus, Size;
    var ps := Lapsed();
    LapsedData();
    SmallIsOk(0, Some(0));
    SmallIsOk(1, None);
    assert HexDigest(sha(Framed(Datas(ps))));
    OkResultSize(Report(sha, ps, Some(2)));
    SmallDec();
    ReadySize();
    assert [] + [ps[0]] == [ps[0]] && [ps[0]] + [ps[1]] == ps;
    LinesNext([], ps[0]);
    LinesNext([ps[0]], ps[1]);
    SizeAppend(Lines(ps), Result(Report(sha, ps, Some(2))));
  }

  lemma SmallDec()
    ensures |Dec(2)| == 1 && |Dec(12)| == 2
  {
  }

  lemma ReadySize()
    ensures Size(Lines([])) <= 1000
  {
    SizeAppend([], Ready(1));
    assert Lines([]) == [] + [Ready(1)];
    assert |Dec(1)| == 1;
  }

  /** The host accepts a capture that no run of the guest writes. */
  lemma LapsedIsValid(sha: Digest)
    requires forall b :: HexDigest(sha(b))
    ensures exists lines ::
      && Valid(sha, lines) && !Sticky(Packets(lines))
      && forall cap, script, k :: !Writes(sha, cap, script, k, lines)
  {
    hide Render, Hex, PacketOk, RawOf, Datas, Total, Framed, Dec, Size, Lines, Report, HexDigest, Summarises;
    hide Wrote, Laid, Packets, Writes;
    var ps := Lapsed();
    var s := Report(sha, ps, Some(2));
    var lines := Lines(ps) + [Result(s)];
    SmallIsOk(0, Some(0));
    SmallIsOk(1, None);
    LapsedSize(sha);
    LinesAreWrote(ps);
    KeptIsLaid(Lines(ps), ps, s);
    ReportStop(sha, ps, Some(2));
    ReportIsSummary(sha, ps, s);
    assert ps[0].drops.Some? && ps[1].drops.None?;
    assert !Sticky(ps);
    assert Valid(sha, lines);
    forall cap, script, k ensures !Writes(sha, cap, script, k, lines) {
      if Writes(sha, cap, script, k, lines) {
        WrittenIsValid(sha, cap, script, k, lines);
      }
    }
  }
}
