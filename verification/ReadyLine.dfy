/**
 Waiting for the helper's ready line on a pipe that delivers its bytes in arbitrary chunks.

 A script gives what each pass of the loop meets; the deadline is the script's end.
 */
module ReadyLine {

  type Bytes = seq<int>
  const CR := 13
  const LF := 10

  datatype Poll = Idle | Exited | Chunk(data: Bytes) | Eof
  datatype Ending = HelperExited | PipeClosed | TimedOut
  datatype Outcome = Ready(line: Bytes, lines: seq<Bytes>) | NotReady(why: Ending, lines: seq<Bytes>)

  // ---- what the bytes mean -----------------------------------------------

  /** The position of the first line feed, or the length when there is none. */
  function Find(s: Bytes): (n: nat)
    ensures n <= |s| && LF !in s[..n] && (n < |s| ==> s[n] == LF)
  {
    if s == [] || s[0] == LF then 0
    else
      var n := Find(s[1..]);
      assert s[..n + 1] == [s[0]] + s[1..][..n];
      n + 1
  }

  function Strip(s: Bytes, ends: set<int>): Bytes {
    if s != [] && s[|s| - 1] in ends then Strip(s[..|s| - 1], ends) else s
  }

  /** Zero or one line: blank ones are dropped. */
  function Kept(line: Bytes): seq<Bytes> { if line == [] then [] else [line] }

  /** The non-blank lines that a line feed ends, without trailing carriage returns. */
  function Lines(s: Bytes): seq<Bytes> decreases |s| {
    if Find(s) == |s| then [] else Kept(Strip(s[..Find(s)], {CR})) + Lines(s[Find(s) + 1..])
  }

  /** What follows the last line feed. */
  function Rest(s: Bytes): (r: Bytes)
    ensures LF !in r
    decreases |s|
  {
    if Find(s) == |s| then assert s[..|s|] == s; s else Rest(s[Find(s) + 1..])
  }

  predicate IsReady(prefix: Bytes, line: Bytes) { prefix <= line }

  predicate AnyReady(prefix: Bytes, lines: seq<Bytes>) { exists i :: 0 <= i < |lines| && IsReady(prefix, lines[i]) }

  lemma ReadyInRest(prefix: Bytes, lines: seq<Bytes>)
    requires AnyReady(prefix, lines) && lines != [] && !IsReady(prefix, lines[0])
    ensures AnyReady(prefix, lines[1..])
  {
    hide IsReady;
    var i :| 0 <= i < |lines| && IsReady(prefix, lines[i]);
    assert lines[1..][i - 1] == lines[i];
  }

  lemma StillNone(prefix: Bytes, line: Bytes, lines: seq<Bytes>)
    requires !IsReady(prefix, line) && !AnyReady(prefix, lines)
    ensures !AnyReady(prefix, [line] + lines)
  {
    hide IsReady;
    assert forall i | 0 <= i < |lines| + 1 :: ([line] + lines)[i] == if i == 0 then line else lines[i - 1];
  }

  /** The lines up to and including the first ready one. */
  function UpToReady(prefix: Bytes, lines: seq<Bytes>): (r: seq<Bytes>)
    requires AnyReady(prefix, lines)
    ensures r != [] && r <= lines && IsReady(prefix, r[|r| - 1]) && !AnyReady(prefix, r[..|r| - 1])
  {
    hide IsReady;
    if IsReady(prefix, lines[0]) then [lines[0]]
    else
      ReadyInRest(prefix, lines);
      var r := UpToReady(prefix, lines[1..]);
      StillNone(prefix, lines[0], r[..|r| - 1]);
      assert ([lines[0]] + r)[..|r|] == [lines[0]] + r[..|r| - 1];
      [lines[0]] + r
  }

  function Decide(prefix: Bytes, lines: seq<Bytes>, why: Ending): Outcome {
    if AnyReady(prefix, lines) then
      var upTo := UpToReady(prefix, lines);
      Ready(upTo[|upTo| - 1], upTo)
    else NotReady(why, lines)
  }

  /** The verdict on a byte stream and the way it ended: an unfinished line counts unless the helper exited. */
  function Verdict(prefix: Bytes, stream: Bytes, why: Ending): Outcome {
    Decide(prefix, Lines(stream) + if why == HelperExited then [] else Kept(Strip(Rest(stream), {CR})), why)
  }

  // ---- what a script delivers --------------------------------------------

  function Stream(script: seq<Poll>): Bytes {
    if script == [] || script[0] == Exited || script[0] == Eof then []
    else (if script[0].Chunk? then script[0].data else []) + Stream(script[1..])
  }

  function End(script: seq<Poll>): Ending {
    if script == [] then TimedOut
    else if script[0] == Exited then HelperExited
    else if script[0] == Eof then PipeClosed
    else End(script[1..])
  }

  // ---- chunks do not matter ----------------------------------------------

  lemma {:induction false} FindAppend(s: Bytes, t: Bytes)
    ensures Find(s) < |s| ==> Find(s + t) == Find(s)
  {
    if s != [] && s[0] != LF {
      FindAppend(s[1..], t);
      assert (s + t)[1..] == s[1..] + t;
    }
  }

  /** One line taken off the front. */
  lemma OneLine(s: Bytes, n: nat)
    requires n == Find(s) < |s|
    ensures Lines(s) == Kept(Strip(s[..n], {CR})) + Lines(s[n + 1..]) && Rest(s) == Rest(s[n + 1..])
  {
    hide Strip, Kept;
  }

  lemma NoLine(s: Bytes)
    requires Find(s) == |s|
    ensures Lines(s) == [] && Rest(s) == s
  {}

  /** Reading more only continues: the unfinished line is all that must be remembered. */
  lemma {:induction false} ReadOn(s: Bytes, t: Bytes)
    ensures Lines(s + t) == Lines(s) + Lines(Rest(s) + t) && Rest(s + t) == Rest(Rest(s) + t)
    decreases |s|
  {
    hide Strip, Kept, Lines, Rest, Find;
    var n := Find(s);
    if n < |s| {
      FindAppend(s, t);
      OneLine(s, n);
      OneLine(s + t, n);
      assert (s + t)[..n] == s[..n];
      assert (s + t)[n + 1..] == s[n + 1..] + t;
      ReadOn(s[n + 1..], t);
    } else {
      NoLine(s);
      assert [] + Lines(s + t) == Lines(s + t);
    }
  }

  /** Lines written one after the other, each with its terminator. */
  function Written(lines: seq<Bytes>): Bytes { if lines == [] then [] else lines[0] + [CR, LF] + Written(lines[1..]) }

  predicate Clean(line: Bytes) { line != [] && LF !in line && line[|line| - 1] != CR }

  lemma {:induction false} FindAfter(line: Bytes, more: Bytes)
    requires LF !in line
    ensures Find(line + [LF] + more) == |line|
  {
    var s := line + [LF] + more;
    if line != [] {
      assert s[1..] == line[1..] + [LF] + more;
      FindAfter(line[1..], more);
    }
  }

  lemma StripWritten(line: Bytes)
    requires Clean(line)
    ensures Strip(line + [CR], {CR}) == line
  {
    assert (line + [CR])[..|line|] == line;
  }

  lemma WrittenFirst(lines: seq<Bytes>)
    requires lines != []
    ensures Written(lines) == (lines[0] + [CR]) + [LF] + Written(lines[1..])
  {}

  /** What was written as lines is read as those lines. */
  lemma {:induction false} WrittenIsRead(lines: seq<Bytes>)
    requires forall i | 0 <= i < |lines| :: Clean(lines[i])
    ensures Lines(Written(lines)) == lines && Rest(Written(lines)) == []
  {
    if lines != [] {
      hide Strip, Lines, Rest, Find, Written;
      WrittenIsRead(lines[1..]);
      var s, n := Written(lines), |lines[0]| + 1;
      WrittenFirst(lines);
      FindAfter(lines[0] + [CR], Written(lines[1..]));
      assert s[..n] == lines[0] + [CR] && s[n + 1..] == Written(lines[1..]);
      OneLine(s, n);
      StripWritten(lines[0]);
    }
  }

  lemma {:induction false} StripSame(s: Bytes)
    requires LF !in s
    ensures Strip(s, {CR, LF}) == Strip(s, {CR})
  {
    if s != [] {
      StripSame(s[..|s| - 1]);
    }
  }

  lemma NoneInRest(prefix: Bytes, lines: seq<Bytes>)
    requires !AnyReady(prefix, lines) && lines != []
    ensures !AnyReady(prefix, lines[1..]) && !IsReady(prefix, lines[0])
  {
    hide IsReady;
    assert forall i | 0 <= i < |lines| - 1 :: lines[1..][i] == lines[i + 1];
  }

  lemma ReadyAmong(prefix: Bytes, lines: seq<Bytes>, i: nat)
    requires i < |lines| && IsReady(prefix, lines[i])
    ensures AnyReady(prefix, lines)
  {}

  lemma CutFirst(prefix: Bytes, lines: seq<Bytes>)
    requires AnyReady(prefix, lines) && lines != []
    ensures IsReady(prefix, lines[0]) ==> UpToReady(prefix, lines) == [lines[0]]
    ensures !IsReady(prefix, lines[0]) && AnyReady(prefix, lines[1..]) ==>
      UpToReady(prefix, lines) == [lines[0]] + UpToReady(prefix, lines[1..])
  {
    hide IsReady, AnyReady;
  }

  lemma Joined(before: seq<Bytes>, line: Bytes, more: seq<Bytes>)
    ensures var all := before + ([line] + more);
      && |all| > |before| && all[|before|] == line
      && (before == [] ==> all[0] == line && [all[0]] == before + [line])
      && (before != [] ==> all[0] == before[0] && all[1..] == before[1..] + ([line] + more))
      && (before != [] ==> [before[0]] + (before[1..] + [line]) == before + [line])
  {}

  lemma {:induction false} CutEarly(prefix: Bytes, before: seq<Bytes>, line: Bytes, more: seq<Bytes>)
    requires !AnyReady(prefix, before) && IsReady(prefix, line)
    ensures AnyReady(prefix, before + ([line] + more)) && UpToReady(prefix, before + ([line] + more)) == before + [line]
  {
    hide IsReady, AnyReady, UpToReady;
    var all := before + ([line] + more);
    Joined(before, line, more);
    ReadyAmong(prefix, all, |before|);
    CutFirst(prefix, all);
    if before != [] {
      NoneInRest(prefix, before);
      CutEarly(prefix, before[1..], line, more);
    }
  }

  /** A first ready line found early stays the first one. */
  lemma FoundEarly(prefix: Bytes, before: seq<Bytes>, line: Bytes, more: seq<Bytes>, why: Ending)
    requires !AnyReady(prefix, before) && IsReady(prefix, line)
    ensures Decide(prefix, before + ([line] + more), why) == Ready(line, before + [line])
  {
    hide IsReady, AnyReady;
    CutEarly(prefix, before, line, more);
  }

  lemma NoneReady(prefix: Bytes, before: seq<Bytes>, line: Bytes)
    requires !AnyReady(prefix, before) && !IsReady(prefix, line)
    ensures !AnyReady(prefix, before + [line])
  {}

  // ---- the reader --------------------------------------------------------

  lemma NothingToStrip(ends: set<int>)
    ensures Strip([], ends) == []
  {}

  lemma UndecidedIsNotReady(prefix: Bytes, lines: seq<Bytes>, why: Ending)
    requires !AnyReady(prefix, lines)
    ensures Decide(prefix, lines, why) == NotReady(why, lines)
  {}

  /** The end of the pipe or of the time: the unfinished line is looked at. */
  method Flush(prefix: Bytes, buffer: Bytes, lines: seq<Bytes>, ends: set<int>, why: Ending) returns (outcome: Outcome)
    requires !AnyReady(prefix, lines)
    ensures outcome == Decide(prefix, lines + Kept(Strip(buffer, ends)), why)
  {
    NothingToStrip(ends);
    hide Strip, AnyReady, IsReady, Decide;
    var all := lines;
    assert lines + [] == lines;
    if buffer != [] {
      var line := Strip(buffer, ends);
      if line != [] {
        all := all + [line];
        if IsReady(prefix, line) {
          FoundEarly(prefix, lines, line, [], why);
          assert lines + ([line] + []) == all;
          return Ready(line, all);
        }
        NoneReady(prefix, lines, line);
      }
    }
    assert all == lines + Kept(Strip(buffer, ends));
    UndecidedIsNotReady(prefix, all, why);
    return NotReady(why, all);
  }

  /** The inner loop: every finished line leaves the buffer, up to a ready one. */
  method TakeLines(prefix: Bytes, bytes: Bytes, known: seq<Bytes>)
    returns (ready: bool, buffer: Bytes, lines: seq<Bytes>)
    requires !AnyReady(prefix, known)
    ensures ready ==>
      && lines != [] && lines <= known + Lines(bytes)
      && IsReady(prefix, lines[|lines| - 1]) && !AnyReady(prefix, lines[..|lines| - 1])
    ensures !ready ==> lines == known + Lines(bytes) && buffer == Rest(bytes) && !AnyReady(prefix, lines)
  {
    hide Lines, Rest, Strip, AnyReady, IsReady, Find;
    ready, buffer, lines := false, bytes, known;
    while true
      invariant lines + Lines(buffer) == known + Lines(bytes) && Rest(buffer) == Rest(bytes) && !AnyReady(prefix, lines)
      decreases |buffer|
    {
      var i := Find(buffer);
      if i == |buffer| {
        NoLine(buffer);
        assert lines + [] == lines;
        return false, buffer, lines;
      }
      OneLine(buffer, i);
      var line := Strip(buffer[..i], {CR});
      Regroup(lines, Kept(line), Lines(buffer[i + 1..]));
      buffer := buffer[i + 1..];
      if line != [] {
        ghost var before := lines;
        lines := lines + [line];
        assert lines[..|lines| - 1] == before;
        if IsReady(prefix, line) {
          return true, buffer, lines;
        }
        NoneReady(prefix, before, line);
      } else {
        assert lines + [] == lines;
      }
    }
  }

  lemma Regroup(a: seq<Bytes>, b: seq<Bytes>, c: seq<Bytes>)
    ensures a + (b + c) == (a + b) + c
  {}

  /** `wait_for_helper_ready`: the verdict on the bytes delivered, however they were cut. */
  method WaitForReady(prefix: Bytes, script: seq<Poll>) returns (outcome: Outcome)
    ensures outcome == Verdict(prefix, Stream(script), End(script))
  {
    hide Strip, Kept, Lines, Rest, IsReady, AnyReady, Stream, End;
    var lines: seq<Bytes>, buffer: Bytes := [], [];
    ghost var seen: Bytes := [];
    NothingSeen(prefix);
    assert script[0..] == script && seen + Stream(script) == Stream(script);
    for i := 0 to |script|
      invariant Stream(script) == seen + Stream(script[i..]) && End(script) == End(script[i..])
      invariant lines == Lines(seen) && buffer == Rest(seen) && !AnyReady(prefix, lines)
    {
      ghost var left := script[i + 1..];
      assert script[i..][1..] == left;
      OnePoll(script[i..]);
      match script[i] {
        case Idle =>
        case Exited =>
          assert seen + [] == seen && lines + [] == lines;
          return NotReady(HelperExited, lines);
        case Eof =>
          assert seen + [] == seen;
          StripSame(buffer);
          outcome := Flush(prefix, buffer, lines, {CR, LF}, PipeClosed);
          return;
        case Chunk(data) =>
          ReadOn(seen, data);
          assert seen + (data + Stream(left)) == (seen + data) + Stream(left);
          seen := seen + data;
          var ready, after, more := TakeLines(prefix, buffer + data, lines);
          if ready {
            ReadyStays(prefix, more, seen, Stream(left), End(script));
            return Ready(more[|more| - 1], more);
          }
          buffer, lines := after, more;
      }
    }
    assert script[|script|..] == [] && seen + [] == seen;
    outcome := Flush(prefix, buffer, lines, {CR}, TimedOut);
  }

  lemma NothingSeen(prefix: Bytes)
    ensures Lines([]) == [] && Rest([]) == [] && !AnyReady(prefix, []) && Stream([]) == [] && End([]) == TimedOut
  {}

  lemma OnePoll(script: seq<Poll>)
    requires script != []
    ensures script[0] == Exited ==> Stream(script) == [] && End(script) == HelperExited
    ensures script[0] == Eof ==> Stream(script) == [] && End(script) == PipeClosed
    ensures script[0] == Idle ==> Stream(script) == Stream(script[1..]) && End(script) == End(script[1..])
    ensures script[0].Chunk? ==>
      Stream(script) == script[0].data + Stream(script[1..]) && End(script) == End(script[1..])
  {}

  /** A ready line found in what was read is the verdict on all that could have been read. */
  lemma ReadyStays(prefix: Bytes, found: seq<Bytes>, seen: Bytes, later: Bytes, why: Ending)
    requires found != [] && found <= Lines(seen) && IsReady(prefix, found[|found| - 1])
    requires !AnyReady(prefix, found[..|found| - 1])
    ensures Verdict(prefix, seen + later, why) == Ready(found[|found| - 1], found)
  {
    hide Strip, Kept, Lines, Rest, IsReady, AnyReady, Decide;
    ReadOn(seen, later);
    var last := if why == HelperExited then [] else Kept(Strip(Rest(seen + later), {CR}));
    var before, line := found[..|found| - 1], found[|found| - 1];
    var more := Lines(seen)[|found|..] + Lines(Rest(seen) + later) + last;
    assert found == before + [line];
    assert Lines(seen) == found + Lines(seen)[|found|..];
    assert Lines(seen + later) + last == before + ([line] + more);
    FoundEarly(prefix, before, line, more, why);
  }

  /** Two deliveries of the same bytes with the same ending get the same verdict and the same lines. */
  method SameBytesSameVerdict(prefix: Bytes, one: seq<Poll>, other: seq<Poll>) returns (a: Outcome, b: Outcome)
    requires Stream(one) == Stream(other) && End(one) == End(other)
    ensures a == b
  {
    a := WaitForReady(prefix, one);
    b := WaitForReady(prefix, other);
  }
}
