/** Shared vocabulary of the model: optional values, the integer widths the
    engine relies on, and small sequence/array helpers for sample buffers. */
module Common {

  datatype Option<T> = None | Some(value: T)

  /** `u64::MAX`, used by the engine as an "unknown" sentinel. */
  const U64_MAX: nat := 0xFFFF_FFFF_FFFF_FFFF

  /** `usize::MAX` on 64-bit targets, used as the "repeat forever" count. */
  const USIZE_MAX: nat := 0xFFFF_FFFF_FFFF_FFFF

  type Usize = x: nat | x <= USIZE_MAX

  /** A playback status event as sent to the status channel; the playback id
      and path of the sending source are left implicit, and a position is
      given in samples rather than as a duration. */
  datatype StatusEvent = Position(position: nat) | Stopped(exhausted: bool)

  /** The volume fader's `process` on its `k`-th call: the faded samples.
      The fader's own state is left to this oracle. */
  type Fader = (nat, seq<real>) -> seq<real>

  /** The fader rewrites samples in place. */
  ghost predicate FaderOk(fader: Fader) {
    forall k: nat, s: seq<real> :: |fader(k, s)| == |s|
  }

  function Min(a: nat, b: nat): (r: nat)
    ensures r <= a && r <= b && (r == a || r == b)
  {
    if a <= b then a else b
  }

  /** The frame that interleaved sample `sample` belongs to, with `ch` samples per frame. */
  function FrameOf(sample: nat, ch: nat): (f: nat)
    requires ch > 0
  {
    sample / ch
  }

  /** A buffer of `n` silent samples. */
  function Zeros(n: nat): (r: seq<real>)
    ensures |r| == n
    ensures forall i :: 0 <= i < n ==> r[i] == 0.0
  {
    seq(n, i => 0.0)
  }

  /** `out` with the samples `s` added onto the positions starting at `off`. */
  function AddAt(out: seq<real>, off: nat, s: seq<real>): (r: seq<real>)
    requires off + |s| <= |out|
    ensures |r| == |out|
    ensures forall k :: 0 <= k < |out| ==> r[k] == out[k] + Over(off, s, k)
  {
    seq(|out|, k requires 0 <= k < |out| => if off <= k < off + |s| then out[k] + s[k - off] else out[k])
  }

  /** The sample of `s` that lands on position `k` when `s` is placed at `off`, or silence. */
  function Over(off: nat, s: seq<real>, k: nat): real {
    if off <= k < off + |s| then s[k - off] else 0.0
  }

  /** `out` with the positions starting at `off` overwritten by `s`. */
  function CopyAt(out: seq<real>, off: nat, s: seq<real>): (r: seq<real>)
    requires off + |s| <= |out|
    ensures |r| == |out|
  {
    out[..off] + s + out[off + |s|..]
  }

  /** `s` multiplied by the gain `g`. */
  function Scale(s: seq<real>, g: real): (r: seq<real>)
    ensures |r| == |s|
  {
    seq(|s|, k requires 0 <= k < |s| => s[k] * g)
  }

  /** The sources apply their volume only when it differs from 1.0 by more than 0.0001. */
  predicate VolumeApplies(volume: real)
    ensures VolumeApplies(volume) <==> volume < 0.9999 || 1.0001 < volume
  {
    volume - 1.0 > 0.0001 || 1.0 - volume > 0.0001
  }

  /** A buffer that agrees position by position with `AddAt` is `AddAt`. */
  lemma AddAtPointwise(out: seq<real>, off: nat, s: seq<real>, r: seq<real>)
    requires off + |s| <= |out| && |r| == |out|
    requires forall k :: 0 <= k < |out| ==> r[k] == out[k] + Over(off, s, k)
    ensures r == AddAt(out, off, s)
  {
  }

  /** Two adjacent placements add up to the placement of the concatenated samples. */
  lemma OverConcat(off: nat, a: seq<real>, b: seq<real>, k: nat)
    ensures Over(off, a, k) + Over(off + |a|, b, k) == Over(off, a + b, k)
  {
  }

  /** Two adjacent additions are one addition of the concatenated samples. */
  lemma AddAtConcat(out: seq<real>, off: nat, a: seq<real>, b: seq<real>)
    requires off + |a| + |b| <= |out|
    ensures AddAt(AddAt(out, off, a), off + |a|, b) == AddAt(out, off, a + b)
  {
    forall k | 0 <= k < |out|
      ensures AddAt(AddAt(out, off, a), off + |a|, b)[k] == AddAt(out, off, a + b)[k]
    {
      OverConcat(off, a, b, k);
    }
  }

  /** Copying `s` to the front of `out` replaces that many samples. */
  lemma CopyAtFront(out: seq<real>, s: seq<real>)
    requires |s| <= |out|
    ensures CopyAt(out, 0, s) == s + out[|s|..]
  {
    assert out[..0] == [];
  }

  /** The two parts of a concatenation, as slices of it. */
  lemma SplitFront(a: seq<real>, b: seq<real>)
    ensures (a + b)[..0] == [] && (a + b)[0..|a|] == (a + b)[..|a|] == a && (a + b)[|a|..] == b
  {
  }

  lemma MulMonotone(a: nat, b: nat, c: nat)
    requires a <= b
    ensures a * c <= b * c
  {
  }

  lemma DivMonotone(a: nat, b: nat, c: nat)
    requires a <= b && c > 0
    ensures a / c <= b / c
  {
    if a / c > b / c {
      MulMonotone(b / c + 1, a / c, c);
    }
  }

  /** Division by `d` is the unique quotient of a remainder below `d`. */
  lemma DivUnique(y: nat, d: nat, q: nat, r: nat)
    requires 0 <= r < d && y == q * d + r
    ensures y / d == q
  {
    var b := y / d;
    if q < b {
      MulMonotone(q + 1, b, d);
    } else if b < q {
      MulMonotone(b + 1, q, d);
    }
  }

  /** Taking `d` samples off a buffer takes one frame of `d` samples off its frame count. */
  lemma DivStep(x: nat, d: nat)
    requires 0 < d <= x
    ensures (x - d) / d + 1 == x / d
  {
    var q := (x - d) / d;
    DivUnique(x, d, q + 1, (x - d) % d);
  }

  /** Adding onto the positions of `out` one sample at a time. */
  method AccumulateAt(out: array<real>, off: nat, s: seq<real>)
    requires off + |s| <= out.Length
    modifies out
    ensures out[..] == AddAt(old(out[..]), off, s)
  {
    var k := 0;
    while k < |s|
      invariant 0 <= k <= |s|
      invariant forall j :: 0 <= j < out.Length ==> out[j] == old(out[j]) + Over(off, s[..k], j)
    {
      out[off + k] := out[off + k] + s[k];
      k := k + 1;
    }
    assert s[..|s|] == s;
    AddAtPointwise(old(out[..]), off, s, out[..]);
  }

  /** Copying samples into the positions of `out`, as `copy_from_slice` does. */
  method CopyInto(out: array<real>, off: nat, s: seq<real>)
    requires off + |s| <= out.Length
    modifies out
    ensures out[..] == CopyAt(old(out[..]), off, s)
  {
    forall k | 0 <= k < |s| {
      out[off + k] := s[k];
    }
    assert out[..] == CopyAt(old(out[..]), off, s) by {
      var c := CopyAt(old(out[..]), off, s);
      forall k | 0 <= k < out.Length ensures out[k] == c[k] {
        if k < off {
        } else if k < off + |s| {
          assert c[k] == s[k - off];
        } else {
          assert c[k] == old(out[..])[k];
        }
      }
    }
  }

  /** Multiplying the samples of `out` in `[from, to)` by `g`, one sample at a time. */
  method ScaleRange(out: array<real>, from: nat, to: nat, g: real)
    requires from <= to <= out.Length
    modifies out
    ensures out[..] == old(out[..])[..from] + Scale(old(out[..])[from..to], g) + old(out[..])[to..]
  {
    var k := from;
    while k < to
      invariant from <= k <= to
      invariant forall j :: 0 <= j < out.Length ==> out[j] == if from <= j < k then old(out[j]) * g else old(out[j])
    {
      out[k] := out[k] * g;
      k := k + 1;
    }
    ghost var prev := old(out[..]);
    assert out[..] == prev[..from] + Scale(prev[from..to], g) + prev[to..] by {
      var r := prev[..from] + Scale(prev[from..to], g) + prev[to..];
      forall j | 0 <= j < out.Length ensures out[j] == r[j] {
        if from <= j < to {
          assert r[j] == prev[from..to][j - from] * g;
        } else if j >= to {
          assert r[j] == prev[to..][j - to];
        }
      }
    }
  }

  /** The samples `read` as a write delivers them: scaled by the volume
      when it applies, then, during a fade-out, through the fader's `k`-th
      call. */
  function Delivered(read: seq<real>, volume: real, stopping: bool, fader: Fader, k: nat): (r: seq<real>)
    requires FaderOk(fader)
    ensures |r| == |read|
    ensures !stopping ==> forall i :: 0 <= i < |read| ==>
      r[i] == if VolumeApplies(volume) then read[i] * volume else read[i]
    ensures !stopping && !VolumeApplies(volume) ==> r == read
  {
    var scaled := if VolumeApplies(volume) then Scale(read, volume) else read;
    if stopping then fader(k, scaled) else scaled
  }

  /** Copies `read` to the front of `output`, then scales and fades it there. */
  method DeliverInto(output: array<real>, read: seq<real>, volume: real, stopping: bool, fader: Fader, k: nat)
    requires FaderOk(fader) && |read| <= output.Length
    modifies output
    ensures output[..] == Delivered(read, volume, stopping, fader, k) + old(output[..])[|read|..]
  {
    ghost var rest := output[|read|..];
    var n := |read|;
    CopyInto(output, 0, read);
    CopyAtFront(old(output[..]), read);
    ghost var scaled := if VolumeApplies(volume) then Scale(read, volume) else read;
    if VolumeApplies(volume) {
      SplitFront(read, rest);
      ScaleRange(output, 0, n, volume);
      assert output[..] == scaled + rest;
    }
    if stopping {
      SplitFront(scaled, rest);
      var faded := fader(k, output[..n]);
      CopyAtFront(output[..], faded);
      CopyInto(output, 0, faded);
    }
  }
}
