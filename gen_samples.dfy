// cvutils/gen_samples.py: the gray-level and RGB-level calibration image
// generators. Each phase works on one numpy buffer of shape
// (maxval, maxval, channels), yields it, and then changes it in place with
// slice statements; a yielded frame is modelled as a snapshot of the buffer
// at the moment of the yield.

module GenSamples {
  import opened Exceptions

  /** 1 << n. */
  function Pow2(n: nat): (r: nat)
    ensures r >= 1
  {
    if n == 0 then 1 else 2 * Pow2(n - 1)
  }

  function Min(a: int, b: int): int
  {
    if a <= b then a else b
  }

  // ----- The buffer

  // The buffer is numpy's C-order layout of shape (m, m, ch): element q is
  // row Row(m, ch, q), column Col(m, ch, q), channel Chan(ch, q).

  function Chan(ch: int, q: int): int
    requires ch >= 1
  {
    q % ch
  }

  function Row(m: int, ch: int, q: int): int
    requires m >= 1 && ch >= 1
  {
    q / ch / m
  }

  function Col(m: int, ch: int, q: int): int
    requires m >= 1 && ch >= 1
  {
    q / ch % m
  }

  /** Every element of an (m, m, ch) buffer has a row and a column in 0..m-1
      and a channel in 0..ch-1. */
  lemma CoordBounds(m: int, ch: int, q: int)
    requires m >= 1 && ch >= 1 && 0 <= q < m * m * ch
    ensures 0 <= Row(m, ch, q) < m && 0 <= Col(m, ch, q) < m && 0 <= Chan(ch, q) < ch
  {
    DivLess(q, ch, m * m);
    DivLess(q / ch, m, m);
  }

  lemma DivLess(q: int, d: int, n: int)
    requires 0 <= q < n * d && d > 0
    ensures q / d < n
  {
    var k := q / d;
    assert k * d <= q;
    MulLess(k, n, d);
  }

  lemma MulLess(a: int, b: int, d: int)
    requires d > 0 && a * d < b * d
    ensures a < b
  {
    assert (b - a) * d == b * d - a * d;
  }

  /** One slice statement on channel c of the buffer:
      `img[y0:, x0:, c] += 1` (with y0 = x0 = 0 for `img[:, :, c]`),
      `img[:, x, c] = v`, or `img[y, :, c] = v`. */
  datatype Stmt = Inc(y0: int, x0: int) | SetCol(x: int, v: int) | SetRow(y: int, v: int)

  /** The element at row y, column x, channel k after the statement, with
      `+= 1` wrapping at maxval = m as the unsigned dtype does. */
  function AfterAt(m: int, c: int, s: Stmt, y: int, x: int, k: int, old_: int): int
    requires m >= 1
  {
    if k != c then old_
    else
      match s
      case Inc(y0, x0) => if y >= y0 && x >= x0 then (old_ + 1) % m else old_
      case SetCol(x1, v) => if x == x1 then v else old_
      case SetRow(y1, v) => if y == y1 then v else old_
  }

  /** Element q of the buffer after the statement. */
  function After(m: int, ch: int, c: int, s: Stmt, q: int, old_: int): int
    requires m >= 1 && ch >= 1
  {
    AfterAt(m, c, s, Row(m, ch, q), Col(m, ch, q), Chan(ch, q), old_)
  }

  /** Carry out one slice statement on the buffer in place. */
  method Apply(a: array<int>, m: int, ch: int, c: int, s: Stmt)
    requires m >= 1 && ch >= 1
    modifies a
    ensures forall q :: 0 <= q < a.Length ==> a[q] == After(m, ch, c, s, q, old(a[q]))
  {
    for q := 0 to a.Length
      invariant forall p :: 0 <= p < q ==> a[p] == After(m, ch, c, s, p, old(a[p]))
      invariant forall p :: q <= p < a.Length ==> a[p] == old(a[p])
    {
      a[q] := After(m, ch, c, s, q, a[q]);
    }
  }

  // ----- The phases

  /** One phase of a generator: fresh `np.full` frames, or one zeroed buffer
      changed after each yield by an increment of the channel, of the last
      columns, of the last rows, of the bottom-right square, or by lighting
      one more column, row, or both. */
  datatype Phase = Full | Ramp | Cols | Rows | Diag | ColStripes | RowStripes | Grid

  predicate Striped(ph: Phase)
  {
    ph == ColStripes || ph == RowStripes || ph == Grid
  }

  /** How many frames a phase yields: maxval, or maxval // 2 for stripes. */
  function Steps(m: int, ph: Phase): int
  {
    if Striped(ph) then m / 2 else m
  }

  /** Python's slice start `-i:` for 0 <= i: `-0:` is `0:`, the whole axis. */
  function SliceStart(m: int, i: int): int
  {
    if i == 0 then 0 else m - i
  }

  /** The statements a phase runs after its yield i. */
  function Updates(m: int, ph: Phase, i: int): (us: seq<Stmt>)
    ensures ph != Full ==> 1 <= |us| <= 2
  {
    match ph
    case Full => []
    case Ramp => [Inc(0, 0)]
    case Cols => [Inc(0, SliceStart(m, i))]
    case Rows => [Inc(SliceStart(m, i), 0)]
    case Diag => [Inc(SliceStart(m, i), SliceStart(m, i))]
    case ColStripes => [SetCol(m - i * 2 - 1, m - 1)]
    case RowStripes => [SetRow(m - i * 2 - 1, m - 1)]
    case Grid => [SetCol(m - i * 2 - 1, m - 1), SetRow(m - i * 2 - 1, m - 1)]
  }

  /** The value a sweep has put at distance t from the start of its axis by
      yield i: one for the update after yield 0, which covers everything,
      and one for each later update whose slice reaches t. */
  function Level(m: int, i: int, t: int): int
  {
    if i == 0 then 0 else if t + i >= m then t + i - m + 1 else 1
  }

  /** Line t is lit by yield i: it is one of m-1, m-3, ..., m-2i+1. */
  predicate Lit(m: int, i: int, t: int)
  {
    0 <= m - 1 - t && (m - 1 - t) % 2 == 0 && (m - 1 - t) / 2 < i
  }

  /** The value at row y, column x of the phase's channel at yield i. */
  function PhaseValue(m: int, ph: Phase, i: int, y: int, x: int): int
  {
    match ph
    case Full => i
    case Ramp => i
    case Cols => Level(m, i, x)
    case Rows => Level(m, i, y)
    case Diag => Level(m, i, Min(x, y))
    case ColStripes => if Lit(m, i, x) then m - 1 else 0
    case RowStripes => if Lit(m, i, y) then m - 1 else 0
    case Grid => if Lit(m, i, x) || Lit(m, i, y) then m - 1 else 0
  }

  /** The element at row y, column x, channel k of the frame a phase on
      channel c yields at i; the other channels stay 0. */
  function PixelAt(m: int, c: int, ph: Phase, i: int, y: int, x: int, k: int): int
  {
    if k != c then 0 else PhaseValue(m, ph, i, y, x)
  }

  /** Element q of that frame. */
  function Pixel(m: int, ch: int, c: int, ph: Phase, i: int, q: int): int
    requires m >= 1 && ch >= 1
  {
    PixelAt(m, c, ph, i, Row(m, ch, q), Col(m, ch, q), Chan(ch, q))
  }

  /** f is the frame a phase on channel c yields at i. */
  ghost predicate IsFrame(m: int, ch: int, c: int, ph: Phase, i: int, f: seq<int>)
    requires m >= 1 && ch >= 1
  {
    |f| == m * m * ch && forall q :: 0 <= q < |f| ==> f[q] == Pixel(m, ch, c, ph, i, q)
  }

  /** The conditions every phase runs under: maxval is even (a power of two
      of at least 2), the channel exists, and np.full is only used for the
      single-channel generator. */
  predicate PhaseOk(m: int, ch: int, c: int, ph: Phase)
  {
    m >= 2 && m % 2 == 0 && ch >= 1 && 0 <= c < ch && (ph == Full ==> ch == 1)
  }

  /** One update of a sweep moves its level on by one where its slice
      reaches, and leaves it elsewhere (no wrap before the last yield). */
  lemma LevelStep(m: int, i: int, t: int)
    requires 0 <= t < m && 0 <= i && i + 1 < m
    ensures Level(m, i + 1, t) == (if t >= SliceStart(m, i) then (Level(m, i, t) + 1) % m else Level(m, i, t))
  {
    var l := Level(m, i, t);
    assert 0 <= l <= i;
    if t >= SliceStart(m, i) {
      assert l + 1 < m;
      assert (l + 1) % m == l + 1;
    }
  }

  /** Lighting line m - 2i - 1 after yield i gives the lines lit by i + 1. */
  lemma LitStep(m: int, i: int, t: int)
    requires 0 <= t < m && 0 <= i
    ensures Lit(m, i + 1, t) <==> Lit(m, i, t) || t == m - i * 2 - 1
  {
  }

  /** The sweep phases: the `+= 1` after yield i takes the value at yield i
      to the value at yield i + 1. */
  lemma SweepStepAt(m: int, c: int, ph: Phase, i: int, y: int, x: int, k: int)
    requires m >= 2 && (ph == Ramp || ph == Cols || ph == Rows || ph == Diag) && 0 <= i && i + 1 < m
    requires 0 <= y < m && 0 <= x < m
    ensures AfterAt(m, c, Updates(m, ph, i)[0], y, x, k, PixelAt(m, c, ph, i, y, x, k)) == PixelAt(m, c, ph, i + 1, y, x, k)
  {
    if k == c {
      match ph
      case Ramp =>
      case Cols => LevelStep(m, i, x);
      case Rows => LevelStep(m, i, y);
      case Diag => LevelStep(m, i, Min(x, y));
    }
  }

  /** The stripe phases: the assignments after yield i light line m - 2i - 1. */
  lemma StripeStepAt(m: int, c: int, ph: Phase, i: int, y: int, x: int, k: int)
    requires m >= 2 && Striped(ph) && 0 <= i
    requires 0 <= y < m && 0 <= x < m
    ensures var us := Updates(m, ph, i);
      var v := AfterAt(m, c, us[0], y, x, k, PixelAt(m, c, ph, i, y, x, k));
      (if |us| == 2 then AfterAt(m, c, us[1], y, x, k, v) else v) == PixelAt(m, c, ph, i + 1, y, x, k)
  {
    if k == c {
      LitStep(m, i, x);
      LitStep(m, i, y);
    }
  }

  /** The statements a phase runs after yield i, applied to element q. */
  function AfterUpdates(m: int, ch: int, c: int, ph: Phase, i: int, q: int, old_: int): int
    requires m >= 1 && ch >= 1 && ph != Full
  {
    var us := Updates(m, ph, i);
    var v := After(m, ch, c, us[0], q, old_);
    if |us| == 2 then After(m, ch, c, us[1], q, v) else v
  }

  /** What the phase's statements after yield i do to element q of the
      buffer: its value at yield i becomes its value at yield i + 1. */
  lemma PhaseStep(m: int, ch: int, c: int, ph: Phase, i: int, q: int)
    requires PhaseOk(m, ch, c, ph) && ph != Full && 0 <= i && i + 1 < Steps(m, ph)
    requires 0 <= q < m * m * ch
    ensures AfterUpdates(m, ch, c, ph, i, q, Pixel(m, ch, c, ph, i, q)) == Pixel(m, ch, c, ph, i + 1, q)
  {
    CoordBounds(m, ch, q);
    if Striped(ph) {
      StripeStepAt(m, c, ph, i, Row(m, ch, q), Col(m, ch, q), Chan(ch, q));
    } else {
      SweepStepAt(m, c, ph, i, Row(m, ch, q), Col(m, ch, q), Chan(ch, q));
    }
  }

  /** The update after yield i, in place: one or two slice statements. */
  method Advance(a: array<int>, m: int, ch: int, c: int, ph: Phase, i: int)
    requires PhaseOk(m, ch, c, ph) && ph != Full && 0 <= i
    modifies a
    ensures forall q :: 0 <= q < a.Length ==> a[q] == AfterUpdates(m, ch, c, ph, i, q, old(a[q]))
  {
    var us := Updates(m, ph, i);
    Apply(a, m, ch, c, us[0]);
    if |us| == 2 {
      Apply(a, m, ch, c, us[1]);
    }
  }

  /** Run one phase and collect a snapshot of its buffer at every yield. */
  method RunPhase(m: int, ch: int, c: int, ph: Phase) returns (fs: seq<seq<int>>)
    requires PhaseOk(m, ch, c, ph)
    ensures |fs| == Steps(m, ph)
    ensures forall i :: 0 <= i < |fs| ==> IsFrame(m, ch, c, ph, i, fs[i])
  {
    var n := m * m * ch;
    var steps := Steps(m, ph);
    fs := [];
    if ph == Full {
      for i := 0 to steps
        invariant |fs| == i
        invariant forall k :: 0 <= k < i ==> IsFrame(m, ch, c, ph, k, fs[k])
      {
        var a := new int[n](_ => i);
        fs := fs + [a[..]];
      }
    } else {
      var a := new int[n](_ => 0);
      for i := 0 to steps
        invariant |fs| == i && a.Length == n
        invariant forall k :: 0 <= k < i ==> IsFrame(m, ch, c, ph, k, fs[k])
        invariant i < steps ==> forall q :: 0 <= q < n ==> a[q] == Pixel(m, ch, c, ph, i, q)
      {
        fs := fs + [a[..]];
        Advance(a, m, ch, c, ph, i);
        if i + 1 < steps {
          forall q | 0 <= q < n
            ensures a[q] == Pixel(m, ch, c, ph, i + 1, q)
          {
            PhaseStep(m, ch, c, ph, i, q);
          }
        }
      }
    }
  }

  // ----- The generators

  /** The phases of the gray generator, in the order it runs them. */
  const GrayPhases: seq<Phase> := [Full, Cols, Rows, Diag, ColStripes, RowStripes, Grid]

  /** The phases of the RGB generator: the same, except that the first one
      increments the channel instead of filling fresh frames. */
  const RgbPhases: seq<Phase> := [Ramp, Cols, Rows, Diag, ColStripes, RowStripes, Grid]

  /** The frames of a phase's channel passes, or of several phases, one
      after the other in the order they are yielded. */
  function Flatten<T>(xss: seq<seq<T>>): (xs: seq<T>)
  {
    if xss == [] then [] else xss[0] + Flatten(xss[1..])
  }

  /** Where the part xss[j] starts in Flatten(xss). */
  function Offset<T>(xss: seq<seq<T>>, j: int): nat
    requires 0 <= j <= |xss|
  {
    if j == 0 then 0 else |xss[0]| + Offset(xss[1..], j - 1)
  }

  /** What a generator yields: phase by phase, channel pass by channel pass. */
  function Frames(bs: seq<seq<seq<seq<int>>>>): seq<seq<int>>
  {
    if bs == [] then [] else Flatten(bs[0]) + Frames(bs[1..])
  }

  /** passes[c] is what phase ph yields in its pass on channel c. */
  ghost predicate Passes(m: int, ch: int, ph: Phase, passes: seq<seq<seq<int>>>)
    requires m >= 1 && ch >= 1
  {
    |passes| == ch &&
    forall c :: 0 <= c < ch ==>
      |passes[c]| == Steps(m, ph) && forall i :: 0 <= i < |passes[c]| ==> IsFrame(m, ch, c, ph, i, passes[c][i])
  }

  /** bs[p] is what phase p yields, pass by pass. */
  ghost predicate Layout(m: int, ch: int, phases: seq<Phase>, bs: seq<seq<seq<seq<int>>>>)
    requires m >= 1 && ch >= 1
  {
    |bs| == |phases| && forall p :: 0 <= p < |bs| ==> Passes(m, ch, phases[p], bs[p])
  }

  /** How many frames the phases yield, each in ch channel passes. */
  function Total(m: int, ch: int, phases: seq<Phase>): int
  {
    if phases == [] then 0 else ch * Steps(m, phases[0]) + Total(m, ch, phases[1..])
  }

  lemma Pow2Even(n: nat)
    requires n >= 1
    ensures Pow2(n) >= 2 && Pow2(n) % 2 == 0
  {
  }

  /** Layout holds for seven phases once it holds for each of them. */
  lemma SevenPhases(m: int, ch: int, p0: Phase, p1: Phase, p2: Phase, p3: Phase, p4: Phase, p5: Phase, p6: Phase,
                    b0: seq<seq<seq<int>>>, b1: seq<seq<seq<int>>>, b2: seq<seq<seq<int>>>, b3: seq<seq<seq<int>>>,
                    b4: seq<seq<seq<int>>>, b5: seq<seq<seq<int>>>, b6: seq<seq<seq<int>>>)
    requires m >= 1 && ch >= 1
    requires Passes(m, ch, p0, b0) && Passes(m, ch, p1, b1) && Passes(m, ch, p2, b2) && Passes(m, ch, p3, b3)
    requires Passes(m, ch, p4, b4) && Passes(m, ch, p5, b5) && Passes(m, ch, p6, b6)
    ensures Layout(m, ch, [p0, p1, p2, p3, p4, p5, p6], [b0, b1, b2, b3, b4, b5, b6])
  {
    var phases := [p0, p1, p2, p3, p4, p5, p6];
    var bs := [b0, b1, b2, b3, b4, b5, b6];
    forall p | 0 <= p < 7
      ensures Passes(m, ch, phases[p], bs[p])
    {
      if p == 0 {
      } else if p == 1 {
      } else if p == 2 {
      } else if p == 3 {
      } else if p == 4 {
      } else if p == 5 {
      } else {
        assert p == 6;
      }
    }
  }

  /** One phase of the gray generator: its single pass. */
  method GrayPass(m: int, ph: Phase) returns (passes: seq<seq<seq<int>>>)
    requires m >= 2 && m % 2 == 0
    ensures Passes(m, 1, ph, passes)
  {
    var fs := RunPhase(m, 1, 0, ph);
    passes := [fs];
  }

  /** `gen_gray_level_calib_imgs(bits)`: maxval = 1 << bits; a negative bits
      fails the shift; any bits other than 8 or 16 leaves the dtype unbound,
      so the first buffer cannot be made; otherwise the frames of the seven
      phases of GrayPhases, one after the other. */
  method GrayFrames(bits: int) returns (r: Result<seq<seq<int>>>, ghost bs: seq<seq<seq<seq<int>>>>)
    ensures bits < 0 ==> r == Err(ValueError)
    ensures 0 <= bits && bits != 8 && bits != 16 ==> r == Err(NameError)
    ensures bits == 8 || bits == 16 ==> r == Ok(Frames(bs)) && Layout(Pow2(bits), 1, GrayPhases, bs)
  {
    bs := [];
    if bits < 0 {
      return Err(ValueError), bs;
    }
    if bits != 8 && bits != 16 {
      return Err(NameError), bs;
    }
    var m := Pow2(bits);
    Pow2Even(bits);
    var full := GrayPass(m, Full);
    var cols := GrayPass(m, Cols);
    var rows := GrayPass(m, Rows);
    var diag := GrayPass(m, Diag);
    var colStripes := GrayPass(m, ColStripes);
    var rowStripes := GrayPass(m, RowStripes);
    var grid := GrayPass(m, Grid);
    var phases := [full, cols, rows, diag, colStripes, rowStripes, grid];
    bs := phases;
    SevenPhases(m, 1, Full, Cols, Rows, Diag, ColStripes, RowStripes, Grid,
      full, cols, rows, diag, colStripes, rowStripes, grid);
    r := Ok(Frames(phases));
  }

  /** `for c in (0, 1, 2)` around one phase of the RGB generator. */
  method ChannelPasses(m: int, ph: Phase) returns (passes: seq<seq<seq<int>>>)
    requires m >= 2 && m % 2 == 0 && ph != Full
    ensures Passes(m, 3, ph, passes)
  {
    passes := [];
    for c := 0 to 3
      invariant |passes| == c
      invariant forall c' :: 0 <= c' < c ==>
        |passes[c']| == Steps(m, ph) && forall i :: 0 <= i < |passes[c']| ==> IsFrame(m, 3, c', ph, i, passes[c'][i])
    {
      var fs := RunPhase(m, 3, c, ph);
      passes := passes + [fs];
    }
  }

  /** `gen_rgb_level_calib_imgs(bits)`: the same failures as the gray
      generator; otherwise the frames of the seven phases of RgbPhases, each
      run once per channel. */
  method RgbFrames(bits: int) returns (r: Result<seq<seq<int>>>, ghost bs: seq<seq<seq<seq<int>>>>)
    ensures bits < 0 ==> r == Err(ValueError)
    ensures 0 <= bits && bits != 8 && bits != 16 ==> r == Err(NameError)
    ensures bits == 8 || bits == 16 ==> r == Ok(Frames(bs)) && Layout(Pow2(bits), 3, RgbPhases, bs)
  {
    bs := [];
    if bits < 0 {
      return Err(ValueError), bs;
    }
    if bits != 8 && bits != 16 {
      return Err(NameError), bs;
    }
    var m := Pow2(bits);
    Pow2Even(bits);
    var ramp := ChannelPasses(m, Ramp);
    var cols := ChannelPasses(m, Cols);
    var rows := ChannelPasses(m, Rows);
    var diag := ChannelPasses(m, Diag);
    var colStripes := ChannelPasses(m, ColStripes);
    var rowStripes := ChannelPasses(m, RowStripes);
    var grid := ChannelPasses(m, Grid);
    var phases := [ramp, cols, rows, diag, colStripes, rowStripes, grid];
    bs := phases;
    SevenPhases(m, 3, Ramp, Cols, Rows, Diag, ColStripes, RowStripes, Grid,
      ramp, cols, rows, diag, colStripes, rowStripes, grid);
    r := Ok(Frames(phases));
  }

  // ----- Where each frame is, and how many there are

  lemma {:induction false} FlattenAt<T>(xss: seq<seq<T>>, j: int, i: int)
    requires 0 <= j < |xss| && 0 <= i < |xss[j]|
    ensures Offset(xss, j) + i < |Flatten(xss)| && Flatten(xss)[Offset(xss, j) + i] == xss[j][i]
  {
    assert Flatten(xss) == xss[0] + Flatten(xss[1..]);
    if j > 0 {
      FlattenAt(xss[1..], j - 1, i);
    }
  }

  /** Parts of n elements each: part j starts at j * n. */
  lemma {:induction false} UniformParts<T>(xss: seq<seq<T>>, n: int, j: int)
    requires forall k :: 0 <= k < |xss| ==> |xss[k]| == n
    requires 0 <= j <= |xss|
    ensures Offset(xss, j) == j * n && |Flatten(xss)| == |xss| * n
  {
    if xss != [] {
      UniformParts(xss[1..], n, if j == 0 then 0 else j - 1);
      assert |Flatten(xss)| == n + (|xss| - 1) * n;
      if j > 0 {
        assert Offset(xss, j) == n + (j - 1) * n;
      }
    }
  }

  /** The frame that phase p yields at i in its pass on channel c is frame
      Total(phases[..p]) + c * Steps + i of the generator. */
  lemma {:induction false} FrameOf(m: int, ch: int, phases: seq<Phase>, bs: seq<seq<seq<seq<int>>>>, p: int, c: int, i: int)
    requires m >= 1 && ch >= 1 && Layout(m, ch, phases, bs)
    requires 0 <= p < |phases| && 0 <= c < ch && 0 <= i < Steps(m, phases[p])
    ensures var k := Total(m, ch, phases[..p]) + c * Steps(m, phases[p]) + i;
      0 <= k < |Frames(bs)| && Frames(bs)[k] == bs[p][c][i] && IsFrame(m, ch, c, phases[p], i, Frames(bs)[k])
  {
    var n := Steps(m, phases[0]);
    assert Passes(m, ch, phases[0], bs[0]);
    UniformParts(bs[0], n, c);
    if p == 0 {
      assert phases[..0] == [];
      FlattenAt(bs[0], c, i);
    } else {
      var tail := phases[1..];
      assert Layout(m, ch, tail, bs[1..]) by {
        forall q | 0 <= q < |bs[1..]|
          ensures Passes(m, ch, tail[q], bs[1..][q])
        {
          assert Passes(m, ch, phases[q + 1], bs[q + 1]);
        }
      }
      FrameOf(m, ch, tail, bs[1..], p - 1, c, i);
      assert phases[..p][1..] == tail[..p - 1];
    }
  }

  /** The generator yields Total(phases) frames. */
  lemma {:induction false} FramesLength(m: int, ch: int, phases: seq<Phase>, bs: seq<seq<seq<seq<int>>>>)
    requires m >= 1 && ch >= 1 && Layout(m, ch, phases, bs)
    ensures |Frames(bs)| == Total(m, ch, phases)
  {
    if phases != [] {
      assert Passes(m, ch, phases[0], bs[0]);
      UniformParts(bs[0], Steps(m, phases[0]), 0);
      var tail := phases[1..];
      assert Layout(m, ch, tail, bs[1..]) by {
        forall q | 0 <= q < |bs[1..]|
          ensures Passes(m, ch, tail[q], bs[1..][q])
        {
          assert Passes(m, ch, phases[q + 1], bs[q + 1]);
        }
      }
      FramesLength(m, ch, tail, bs[1..]);
    }
  }

  /** Four phases followed by the three stripe phases. */
  lemma SevenTotal(m: int, ch: int, p0: Phase, p1: Phase, p2: Phase, p3: Phase)
    ensures Total(m, ch, [p0, p1, p2, p3, ColStripes, RowStripes, Grid]) ==
      ch * Steps(m, p0) + ch * Steps(m, p1) + ch * Steps(m, p2) + ch * Steps(m, p3) + 3 * (ch * (m / 2))
  {
    var h := ch * (m / 2);
    var t6: seq<Phase> := [Grid];
    assert t6[1..] == [];
    assert Total(m, ch, t6) == h;
    var t5 := [RowStripes] + t6;
    assert t5[1..] == t6;
    assert Total(m, ch, t5) == h + h;
    var t4 := [ColStripes] + t5;
    assert t4[1..] == t5;
    assert Total(m, ch, t4) == h + h + h;
    var t3 := [p3] + t4;
    assert t3[1..] == t4;
    assert Total(m, ch, t3) == ch * Steps(m, p3) + 3 * h;
    var t2 := [p2] + t3;
    assert t2[1..] == t3;
    assert Total(m, ch, t2) == ch * Steps(m, p2) + ch * Steps(m, p3) + 3 * h;
    var t1 := [p1] + t2;
    assert t1[1..] == t2;
    assert Total(m, ch, t1) == ch * Steps(m, p1) + ch * Steps(m, p2) + ch * Steps(m, p3) + 3 * h;
    var t0 := [p0] + t1;
    assert t0[1..] == t1;
    assert t0 == [p0, p1, p2, p3, ColStripes, RowStripes, Grid];
  }

  /** Four phases, one after the other. */
  lemma FourTotal(m: int, ch: int, p0: Phase, p1: Phase, p2: Phase, p3: Phase)
    ensures Total(m, ch, [p0, p1, p2, p3]) == ch * Steps(m, p0) + ch * Steps(m, p1) + ch * Steps(m, p2) + ch * Steps(m, p3)
  {
    var t3: seq<Phase> := [p3];
    assert t3[1..] == [];
    assert Total(m, ch, t3) == ch * Steps(m, p3);
    var t2 := [p2] + t3;
    assert t2[1..] == t3;
    assert Total(m, ch, t2) == ch * Steps(m, p2) + ch * Steps(m, p3);
    var t1 := [p1] + t2;
    assert t1[1..] == t2;
    var t0 := [p0] + t1;
    assert t0[1..] == t1;
    assert t0 == [p0, p1, p2, p3];
  }

  /** Four phases of maxval frames and three of maxval // 2. */
  lemma GrayCount(m: int)
    ensures Total(m, 1, GrayPhases) == 4 * m + 3 * (m / 2)
  {
    SevenTotal(m, 1, Full, Cols, Rows, Diag);
  }

  /** The same phases, each in three channel passes. */
  lemma RgbCount(m: int)
    ensures Total(m, 3, RgbPhases) == 3 * (4 * m + 3 * (m / 2))
  {
    SevenTotal(m, 3, Ramp, Cols, Rows, Diag);
  }

  /** How many frames each generator yields. */
  lemma FrameCounts(bits: int, gray: seq<seq<seq<seq<int>>>>, rgb: seq<seq<seq<seq<int>>>>)
    requires bits == 8 || bits == 16
    requires Layout(Pow2(bits), 1, GrayPhases, gray) && Layout(Pow2(bits), 3, RgbPhases, rgb)
    ensures var m := Pow2(bits);
      |Frames(gray)| == 4 * m + 3 * (m / 2) && |Frames(rgb)| == 3 * |Frames(gray)|
  {
    FramesLength(Pow2(bits), 1, GrayPhases, gray);
    FramesLength(Pow2(bits), 3, RgbPhases, rgb);
    GrayCount(Pow2(bits));
    RgbCount(Pow2(bits));
  }

  /** maxval is 256 for 8 bits and 65536 for 16. */
  lemma MaxVals()
    ensures Pow2(8) == 256 && Pow2(16) == 65536
  {
  }

  // ----- What the frames hold

  /** The first gray phase: frame i is filled with i. */
  lemma GrayFill(m: int, bs: seq<seq<seq<seq<int>>>>, i: int)
    requires m >= 2 && Layout(m, 1, GrayPhases, bs) && 0 <= i < m
    ensures |Frames(bs)[i]| == m * m && forall q :: 0 <= q < m * m ==> Frames(bs)[i][q] == i
  {
    FrameOf(m, 1, GrayPhases, bs, 0, 0, i);
    assert GrayPhases[..0] == [];
    forall q | 0 <= q < m * m
      ensures Frames(bs)[i][q] == i
    {
      assert Chan(1, q) == 0;
    }
  }

  /** How many of the updates after yields 0 .. i-1 of a sweep reach
      distance t: the one after yield j starts its slice at SliceStart(j). */
  function Reached(m: int, i: nat, t: int): nat
  {
    if i == 0 then 0 else Reached(m, i - 1, t) + (if t >= SliceStart(m, i - 1) then 1 else 0)
  }

  /** A sweep's value at yield i is the number of updates that reached it. */
  lemma {:induction false} LevelCounts(m: int, i: nat, t: int)
    requires 0 <= t < m && i <= m
    ensures Level(m, i, t) == Reached(m, i, t)
  {
    if i > 0 {
      LevelCounts(m, i - 1, t);
    }
  }

  /** The update after yield 0 reaches every element (`-0:` is the whole
      axis), so yield 1 is all ones; the last line has had every update, so
      at yield i it holds i; the first m - i lines have had only the first. */
  lemma SweepShape(m: int, i: int, t: int)
    requires 1 <= i < m && 0 <= t < m
    ensures Level(m, 1, t) == 1
    ensures Level(m, i, m - 1) == i
    ensures t < m - i ==> Level(m, i, t) == 1
    ensures 1 <= Level(m, i, t) <= i
  {
  }

  /** Line t is lit by yield i exactly when it is line m - 2j - 1 for one of
      the assignments j < i. */
  lemma StripeRule(m: int, i: int, t: int)
    ensures Lit(m, i, t) <==> exists j :: 0 <= j < i && t == m - 2 * j - 1
  {
    if Lit(m, i, t) {
      var j := (m - 1 - t) / 2;
      assert t == m - 2 * j - 1;
    }
    if exists j :: 0 <= j < i && t == m - 2 * j - 1 {
      var j :| 0 <= j < i && t == m - 2 * j - 1;
      assert m - 1 - t == 2 * j;
    }
  }

  /** No value at a yield reaches maxval, so nothing the generators yield has
      wrapped around in the unsigned dtype. */
  lemma ValuesFit(m: int, ph: Phase, i: int, y: int, x: int)
    requires m >= 2 && 0 <= i < Steps(m, ph) && 0 <= y < m && 0 <= x < m
    ensures 0 <= PhaseValue(m, ph, i, y, x) < m
  {
  }

  /** A frame of the gray generator's column sweep: the phase's yield i is
      frame m + i, and its element at column x is the number of updates that
      reached x. */
  lemma GrayColumnSweep(m: int, bs: seq<seq<seq<seq<int>>>>, i: int, q: int)
    requires m >= 2 && Layout(m, 1, GrayPhases, bs) && 0 <= i < m && 0 <= q < m * m
    ensures m + i < |Frames(bs)| && |Frames(bs)[m + i]| == m * m
    ensures Frames(bs)[m + i][q] == Reached(m, i, Col(m, 1, q))
  {
    FrameOf(m, 1, GrayPhases, bs, 1, 0, i);
    assert GrayPhases[..1] == [Full];
    assert Total(m, 1, [Full]) == m;
    CoordBounds(m, 1, q);
    LevelCounts(m, i, Col(m, 1, q));
  }

  /** A frame of the RGB generator: the pass on channel c of phase p leaves
      the other two channels at 0, and channel c holds the phase's value. */
  lemma RgbChannelOnly(m: int, bs: seq<seq<seq<seq<int>>>>, p: int, c: int, i: int, q: int)
    requires m >= 2 && Layout(m, 3, RgbPhases, bs)
    requires 0 <= p < 7 && 0 <= c < 3 && 0 <= i < Steps(m, RgbPhases[p]) && 0 <= q < m * m * 3
    ensures var k := Total(m, 3, RgbPhases[..p]) + c * Steps(m, RgbPhases[p]) + i;
      0 <= k < |Frames(bs)| && |Frames(bs)[k]| == m * m * 3 &&
      Frames(bs)[k][q] == if Chan(3, q) == c then PhaseValue(m, RgbPhases[p], i, Row(m, 3, q), Col(m, 3, q)) else 0
  {
    FrameOf(m, 3, RgbPhases, bs, p, c, i);
  }

  lemma {:induction false} FlattenSizes(xss: seq<seq<seq<int>>>, n: int)
    requires forall j, i :: 0 <= j < |xss| && 0 <= i < |xss[j]| ==> |xss[j][i]| == n
    ensures forall k :: 0 <= k < |Flatten(xss)| ==> |Flatten(xss)[k]| == n
  {
    if xss != [] {
      FlattenSizes(xss[1..], n);
      assert Flatten(xss) == xss[0] + Flatten(xss[1..]);
    }
  }

  /** Every frame a generator yields is maxval x maxval x ch. */
  lemma {:induction false} FrameSizes(m: int, ch: int, phases: seq<Phase>, bs: seq<seq<seq<seq<int>>>>)
    requires m >= 1 && ch >= 1 && Layout(m, ch, phases, bs)
    ensures forall k :: 0 <= k < |Frames(bs)| ==> |Frames(bs)[k]| == m * m * ch
  {
    if phases != [] {
      assert Passes(m, ch, phases[0], bs[0]);
      FlattenSizes(bs[0], m * m * ch);
      var tail := phases[1..];
      assert Layout(m, ch, tail, bs[1..]) by {
        forall q | 0 <= q < |bs[1..]|
          ensures Passes(m, ch, tail[q], bs[1..][q])
        {
          assert Passes(m, ch, phases[q + 1], bs[q + 1]);
        }
      }
      FrameSizes(m, ch, tail, bs[1..]);
    }
  }

  /** A frame of the gray generator's column stripes: the phase's yield i is
      frame 4m + i, and its element at column x is maxval - 1 exactly when x
      is one of the columns m - 1, m - 3, ..., m - 2i + 1, and 0 otherwise. */
  lemma GrayColumnStripes(m: int, bs: seq<seq<seq<seq<int>>>>, i: int, q: int)
    requires m >= 2 && Layout(m, 1, GrayPhases, bs) && 0 <= i < m / 2 && 0 <= q < m * m
    ensures 4 * m + i < |Frames(bs)| && |Frames(bs)[4 * m + i]| == m * m
    ensures Frames(bs)[4 * m + i][q] ==
      if exists j :: 0 <= j < i && Col(m, 1, q) == m - 2 * j - 1 then m - 1 else 0
  {
    FrameOf(m, 1, GrayPhases, bs, 4, 0, i);
    assert GrayPhases[..4] == [Full, Cols, Rows, Diag];
    FourTotal(m, 1, Full, Cols, Rows, Diag);
    StripeRule(m, i, Col(m, 1, q));
  }
}
