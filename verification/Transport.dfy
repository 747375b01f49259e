/**
 The FNV-1a hash of a transport and what a changed byte does to it.

 As in the source, bytes and hash values are integers: exclusive or is defined
 on naturals bit by bit, and masking by 0xFFFFFFFF is the remainder modulo 2^32.
 */
module Transport {
  import opened Common

  type Word = w: int | 0 <= w < 0x1_0000_0000

  const OFFSET_BASIS: Word := 0x811C9DC5

  function Xor(a: nat, b: nat): nat
    decreases a + b
  {
    if a == 0 then b else if b == 0 then a else (a % 2 + b % 2) % 2 + 2 * Xor(a / 2, b / 2)
  }

  /** Multiplication by the FNV prime modulo 2^32. */
  function Mix(h: nat): Word { (h * 0x01000193) % 0x1_0000_0000 }

  function Absorb(h: Word, b: Byte): Word { Mix(Xor(h, b)) }

  /** `_fnv1a_bytes` */
  function Fnv(h: Word, payload: seq<Byte>): Word
    decreases |payload|
  {
    if payload == [] then h else Fnv(Absorb(h, payload[0]), payload[1..])
  }

  // ---- each step is a bijection ------------------------------------------

  lemma XorHalves(a: nat, b: nat)
    ensures Xor(a, b) / 2 == Xor(a / 2, b / 2) && Xor(a, b) % 2 == (a % 2 + b % 2) % 2
  {
  }

  lemma XorZero(a: nat)
    ensures Xor(a, 0) == a
  {}

  lemma SameHalves(g: nat, h: nat, bit: nat)
    requires g / 2 == h / 2 && (g % 2 + bit) % 2 == (h % 2 + bit) % 2
    ensures g == h
  {}

  lemma {:induction false} XorInjective(g: nat, h: nat, b: nat)
    requires Xor(g, b) == Xor(h, b)
    ensures g == h
    decreases b
  {
    hide Xor;
    if b == 0 {
      XorZero(g);
      XorZero(h);
    } else {
      XorHalves(g, b);
      XorHalves(h, b);
      XorInjective(g / 2, h / 2, b / 2);
      SameHalves(g, h, b % 2);
    }
  }

  lemma XorCommutes(a: nat, b: nat)
    ensures Xor(a, b) == Xor(b, a)
  {
  }

  function Pow2(k: nat): nat { if k == 0 then 1 else 2 * Pow2(k - 1) }

  lemma {:induction false} XorBounded(a: nat, b: nat, k: nat)
    requires a < Pow2(k) && b < Pow2(k)
    ensures Xor(a, b) < Pow2(k)
  {
    if k > 0 {
      XorHalves(a, b);
      XorBounded(a / 2, b / 2, k - 1);
    }
  }

  lemma Pow2PerByte(k: nat)
    ensures Pow2(k + 8) == 256 * Pow2(k)
  {
    assert Pow2(k + 2) == 4 * Pow2(k);
    assert Pow2(k + 4) == 4 * Pow2(k + 2);
    assert Pow2(k + 6) == 4 * Pow2(k + 4);
  }

  lemma XorIsWord(h: Word, b: Byte)
    ensures Xor(h, b) < 0x1_0000_0000
  {
    Pow2PerByte(0);
    Pow2PerByte(8);
    Pow2PerByte(16);
    Pow2PerByte(24);
    XorBounded(h, b, 32);
  }

  /** 0x01000193 * 0x359C449B == 3513497 * 2^32 + 1: the prime has an inverse modulo 2^32. */
  lemma MultipleOfModulus(d: int, k: int)
    requires d * 0x01000193 == 0x1_0000_0000 * k
    ensures d == 0x1_0000_0000 * (0x359C449B * k - 3513497 * d)
  {
  }

  lemma SmallMultiple(d: int, j: int)
    requires d == 0x1_0000_0000 * j && -0x1_0000_0000 < d < 0x1_0000_0000
    ensures d == 0
  {
  }

  lemma MixInjective(x: Word, y: Word)
    requires Mix(x) == Mix(y)
    ensures x == y
  {
    var d, k := x - y, x * 0x01000193 / 0x1_0000_0000 - y * 0x01000193 / 0x1_0000_0000;
    MultipleOfModulus(d, k);
    SmallMultiple(d, 0x359C449B * k - 3513497 * d);
  }

  lemma AbsorbInjective(g: Word, h: Word, b: Byte, c: Byte)
    ensures Absorb(g, b) == Absorb(h, b) ==> g == h
    ensures Absorb(h, b) == Absorb(h, c) ==> b == c
  {
    hide Mix, Xor;
    XorIsWord(g, b);
    XorIsWord(h, b);
    XorIsWord(h, c);
    XorCommutes(h, b);
    XorCommutes(h, c);
    if Absorb(g, b) == Absorb(h, b) {
      MixInjective(Xor(g, b), Xor(h, b));
      XorInjective(g, h, b);
    }
    if Absorb(h, b) == Absorb(h, c) {
      MixInjective(Xor(h, b), Xor(h, c));
      XorInjective(b, c, h);
    }
  }

  lemma {:induction false} FnvInjective(g: Word, h: Word, payload: seq<Byte>)
    ensures Fnv(g, payload) == Fnv(h, payload) ==> g == h
    decreases |payload|
  {
    hide Absorb;
    if payload != [] {
      AbsorbInjective(g, h, payload[0], payload[0]);
      FnvInjective(Absorb(g, payload[0]), Absorb(h, payload[0]), payload[1..]);
    }
  }

  lemma {:induction false} FnvConcat(h: Word, a: seq<Byte>, b: seq<Byte>)
    ensures Fnv(h, a + b) == Fnv(Fnv(h, a), b)
    decreases |a|
  {
    hide Absorb;
    if a == [] {
      assert a + b == b;
    } else {
      assert (a + b)[1..] == a[1..] + b;
      FnvConcat(Absorb(h, a[0]), a[1..], b);
    }
  }

  /** Strings of equal length that differ in exactly one byte have different hashes. */
  lemma OneByteChangesHash(h: Word, p: seq<Byte>, q: seq<Byte>, i: nat)
    requires |p| == |q| && i < |p| && p[i] != q[i]
    requires forall j | 0 <= j < |p| && j != i :: p[j] == q[j]
    ensures Fnv(h, p) != Fnv(h, q)
  {
    hide Absorb;
    var head, tail := p[..i], p[i + 1..];
    assert q[..i] == head && q[i + 1..] == tail;
    assert p == head + ([p[i]] + tail) && q == head + ([q[i]] + tail);
    FnvConcat(h, head, [p[i]] + tail);
    FnvConcat(h, head, [q[i]] + tail);
    var g := Fnv(h, head);
    assert ([p[i]] + tail)[1..] == tail && ([q[i]] + tail)[1..] == tail;
    AbsorbInjective(g, g, p[i], q[i]);
    FnvInjective(Absorb(g, p[i]), Absorb(g, q[i]), tail);
  }

  // ---- transports --------------------------------------------------------

  /** A corpus file cut into frames of fixed size. */
  datatype Fixture = Fixture(frameBytes: nat, frameCount: nat, corpus: seq<Byte>)

  datatype Plan = Plan(fixtures: seq<Fixture>, malformedAt: int)   // -1: no malformed frame

  /** Slicing as the source does it: bounds beyond the end are clamped. */
  function Slice(s: seq<Byte>, lo: nat, hi: nat): (r: seq<Byte>)
    requires lo <= hi
    ensures |r| == (if hi <= |s| then hi - lo else if lo <= |s| then |s| - lo else 0)
    ensures forall i | 0 <= i < |r| :: r[i] == s[lo + i]
  {
    if hi <= |s| then s[lo..hi] else if lo <= |s| then s[lo..] else []
  }

  /** The first corpus byte of a frame. */
  function First(f: Fixture, sequence: nat): nat { sequence * f.frameBytes }

  function FrameOf(f: Fixture, sequence: nat): seq<Byte> {
    Slice(f.corpus, First(f, sequence), First(f, sequence) + f.frameBytes)
  }

  function Joined(fs: seq<Fixture>, sequence: nat): seq<Byte> {
    if fs == [] then [] else Joined(fs[..|fs| - 1], sequence) + FrameOf(fs[|fs| - 1], sequence)
  }

  /** What is sent: the joined frames, short of their last byte in the malformed one. */
  function Sent(t: Plan, sequence: nat): seq<Byte> {
    var joined := Joined(t.fixtures, sequence);
    if sequence == t.malformedAt && joined != [] then joined[..|joined| - 1] else joined
  }

  function HashOf(t: Plan, count: nat): Word {
    if count == 0 then OFFSET_BASIS
    else Fnv(Fnv(HashOf(t, count - 1), Le32(count - 1)), Sent(t, count - 1))
  }

  /** `expected_transport_hash`: refused for a negative count or one beyond the first fixture. */
  method ExpectedHash(t: Plan, count: int) returns (h: Option<Word>)
    requires t.fixtures != []
    ensures h == if 0 <= count <= t.fixtures[0].frameCount then Some(HashOf(t, count)) else None
  {
    if count < 0 || count > t.fixtures[0].frameCount {
      return None;
    }
    var hash := OFFSET_BASIS;
    for sequence := 0 to count
      invariant hash == HashOf(t, sequence)
    {
      hash := Fnv(hash, Le32(sequence));
      hash := Fnv(hash, Sent(t, sequence));
    }
    h := Some(hash);
  }

  // ---- what the hash depends on ------------------------------------------

  /** The same frames give the same hash. */
  lemma {:induction false} SameSentSameHash(t: Plan, u: Plan, count: nat)
    requires forall n | 0 <= n < count :: Sent(t, n) == Sent(u, n)
    ensures HashOf(t, count) == HashOf(u, count)
  {
    hide Fnv, Sent, Le32;
    if count > 0 {
      SameSentSameHash(t, u, count - 1);
    }
  }

  /** Equal lengths, and different bytes at position `i` only. */
  ghost predicate DifferAt(p: seq<Byte>, q: seq<Byte>, i: nat) {
    |p| == |q| && i < |p| && forall j | 0 <= j < |p| :: p[j] != q[j] <==> j == i
  }

  /** One changed byte in one sent frame changes the hash, however many frames follow. */
  lemma {:induction false} SentByteChangesHash(t: Plan, u: Plan, count: nat, frame: nat, i: nat)
    requires frame < count && DifferAt(Sent(t, frame), Sent(u, frame), i)
    requires forall n | 0 <= n < count && n != frame :: Sent(t, n) == Sent(u, n)
    ensures HashOf(t, count) != HashOf(u, count)
  {
    hide Fnv, Sent;
    var n := count - 1;
    if frame < n {
      SentByteChangesHash(t, u, n, frame, i);
      FnvInjective(HashOf(t, n), HashOf(u, n), Le32(n));
      FnvInjective(Fnv(HashOf(t, n), Le32(n)), Fnv(HashOf(u, n), Le32(n)), Sent(t, n));
    } else {
      SameSentSameHash(t, u, n);
      OneByteChangesHash(Fnv(HashOf(t, n), Le32(n)), Sent(t, n), Sent(u, n), i);
    }
  }

  /** A malformed frame at or beyond the count, or none, makes no difference. */
  lemma LateMalformedIsIgnored(t: Plan, count: nat)
    requires t.malformedAt < 0 || t.malformedAt >= count
    ensures HashOf(t, count) == HashOf(t.(malformedAt := -1), count)
  {
    SameSentSameHash(t, t.(malformedAt := -1), count);
  }

  // ---- a changed corpus byte ---------------------------------------------

  function FlipIn(fs: seq<Fixture>, k: nat, j: nat, c: Byte): seq<Fixture>
    requires k < |fs| && j < |fs[k].corpus|
  {
    fs[k := fs[k].(corpus := fs[k].corpus[j := c])]
  }

  function Flip(t: Plan, k: nat, j: nat, c: Byte): Plan
    requires k < |t.fixtures| && j < |t.fixtures[k].corpus|
  {
    t.(fixtures := FlipIn(t.fixtures, k, j, c))
  }

  predicate Covers(f: Fixture, n: nat, j: nat) { First(f, n) <= j < First(f, n) + f.frameBytes }

  /** Where byte `j` of fixture `k` stands in frame `n`. */
  function Position(fs: seq<Fixture>, k: nat, j: nat, n: nat): int
    requires k < |fs|
  {
    |Joined(fs[..k], n)| + j - First(fs[k], n)
  }

  /** The change that flipping byte `j` of fixture `k` makes to frame `n`. */
  ghost predicate ChangedAt(p: seq<Byte>, q: seq<Byte>, covered: bool, i: int) {
    if covered then i >= 0 && DifferAt(p, q, i) else p == q
  }

  lemma FrameChange(f: Fixture, j: nat, c: Byte, n: nat)
    requires j < |f.corpus| && f.corpus[j] != c
    ensures ChangedAt(FrameOf(f, n), FrameOf(f.(corpus := f.corpus[j := c]), n), Covers(f, n, j), j - First(f, n))
  {
    assert First(f, n) == First(f.(corpus := f.corpus[j := c]), n);
    hide First;
  }

  lemma JoinedSnoc(fs: seq<Fixture>, n: nat)
    requires fs != []
    ensures Joined(fs, n) == Joined(fs[..|fs| - 1], n) + FrameOf(fs[|fs| - 1], n)
  {
  }

  lemma {:induction false} JoinedChange(fs: seq<Fixture>, k: nat, j: nat, c: Byte, n: nat)
    requires k < |fs| && j < |fs[k].corpus| && fs[k].corpus[j] != c
    ensures ChangedAt(Joined(fs, n), Joined(FlipIn(fs, k, j, c), n), Covers(fs[k], n, j), Position(fs, k, j, n))
  {
    hide FrameOf, Covers, ChangedAt, First, Joined;
    var m, gs := |fs| - 1, FlipIn(fs, k, j, c);
    JoinedSnoc(fs, n);
    JoinedSnoc(gs, n);
    var covered := Covers(fs[k], n, j);
    if k < m {
      assert gs[..m] == FlipIn(fs[..m], k, j, c) && gs[m] == fs[m] && fs[..m][..k] == fs[..k];
      JoinedChange(fs[..m], k, j, c, n);
      ChangeLeft(Joined(fs[..m], n), Joined(gs[..m], n), FrameOf(fs[m], n), covered, Position(fs, k, j, n));
    } else {
      assert gs[..m] == fs[..m];
      FrameChange(fs[k], j, c, n);
      ChangeRight(Joined(fs[..m], n), FrameOf(fs[m], n), FrameOf(gs[m], n), covered, j - First(fs[k], n));
    }
  }

  lemma ChangeLeft(p: seq<Byte>, q: seq<Byte>, rest: seq<Byte>, covered: bool, i: int)
    requires ChangedAt(p, q, covered, i)
    ensures ChangedAt(p + rest, q + rest, covered, i)
  {
  }

  lemma ChangeRight(head: seq<Byte>, p: seq<Byte>, q: seq<Byte>, covered: bool, i: int)
    requires ChangedAt(p, q, covered, i)
    ensures ChangedAt(head + p, head + q, covered, |head| + i)
  {
    if covered {
      assert forall j | 0 <= j < |p| :: (head + p)[|head| + j] == p[j] && (head + q)[|head| + j] == q[j];
    }
  }

  lemma CoveringFrame(f: Fixture, n: nat, j: nat)
    requires f.frameBytes > 0
    ensures Covers(f, n, j) <==> n == j / f.frameBytes
  {
    var q := j / f.frameBytes;
    assert j == q * f.frameBytes + j % f.frameBytes;
    if n < q {
      assert (n + 1) * f.frameBytes <= q * f.frameBytes;
    } else if n > q {
      assert (q + 1) * f.frameBytes <= n * f.frameBytes;
    }
  }

  /** The byte lies in a frame before the count and is not the one the malformed frame drops. */
  predicate IsSent(t: Plan, count: nat, k: nat, j: nat)
    requires k < |t.fixtures|
  {
    var f := t.fixtures[k];
    f.frameBytes > 0 &&
    var n := j / f.frameBytes;
    n < count && !(n == t.malformedAt && Position(t.fixtures, k, j, n) == |Joined(t.fixtures, n)| - 1)
  }

  lemma SentChange(t: Plan, k: nat, j: nat, c: Byte, n: nat)
    requires k < |t.fixtures| && j < |t.fixtures[k].corpus| && t.fixtures[k].corpus[j] != c
    ensures var i := Position(t.fixtures, k, j, n);
      ChangedAt(Sent(t, n), Sent(Flip(t, k, j, c), n),
                Covers(t.fixtures[k], n, j) && !(n == t.malformedAt && i == |Joined(t.fixtures, n)| - 1), i)
  {
    JoinedChange(t.fixtures, k, j, c, n);
    hide Joined, First, Covers, Position;
  }

  /** Changing a corpus byte changes the expected hash if and only if that byte is sent. */
  lemma HashWitnessesExactlyTheSentBytes(t: Plan, count: nat, k: nat, j: nat, c: Byte)
    requires k < |t.fixtures| && j < |t.fixtures[k].corpus| && t.fixtures[k].corpus[j] != c
    ensures HashOf(t, count) != HashOf(Flip(t, k, j, c), count) <==> IsSent(t, count, k, j)
  {
    hide HashOf, Sent, Joined;
    var u, f := Flip(t, k, j, c), t.fixtures[k];
    forall n: nat | n < count && !(Covers(f, n, j) && IsSent(t, count, k, j))
      ensures Sent(t, n) == Sent(u, n)
    {
      SentChange(t, k, j, c, n);
      if f.frameBytes > 0 {
        CoveringFrame(f, n, j);
      }
    }
    if IsSent(t, count, k, j) {
      var frame := j / f.frameBytes;
      forall n: nat | n < count {
        CoveringFrame(f, n, j);
      }
      CoveringFrame(f, frame, j);
      SentChange(t, k, j, c, frame);
      SentByteChangesHash(t, u, count, frame, Position(t.fixtures, k, j, frame));
    } else {
      SameSentSameHash(t, u, count);
    }
  }
}
