/**
 * How the sweep's sample buffer and write cursor evolve: the combined
 * effect of one vfoSweepUpdateSamples call (pan, then rescale, then the
 * new write index), and the cursor that sweepScanStep advances one column
 * per step.
 */
module SweepScan {
  import opened UiGlobals
  import opened SweepSamples

  /** The pan of vfoSweepUpdateSamples: left when shift is positive, right when negative. */
  function Panned(s: seq<Byte>, shift: int): (r: seq<Byte>)
    requires IsBuffer(s) && -8 <= shift <= 8
    ensures IsBuffer(r)
    ensures shift == 0 ==> r == s
  {
    if shift > 0 then ShiftedLeft(s, shift) else if shift < 0 then ShiftedRight(s, -shift) else s
  }

  /** The rescale of vfoSweepUpdateSamples: compress (zoom in) or expand (zoom out). */
  function Rescaled(s: seq<Byte>, rescale: int): (r: seq<Byte>)
    requires IsBuffer(s)
    ensures IsBuffer(r)
    ensures rescale == 0 ==> r == s
  {
    if rescale > 0 then Compressed(s) else if rescale < 0 then Expanded(s) else s
  }

  /**
   * The buffer after vfoSweepUpdateSamples with the offset already scaled
   * by SHIFT_DISTANCE: pan by shift columns (left when positive, right
   * when negative), then compress (rescale > 0) or expand (rescale < 0).
   */
  function SamplesAfter(s: seq<Byte>, shift: int, rescale: int): (r: seq<Byte>)
    requires IsBuffer(s) && -8 <= shift <= 8
    ensures IsBuffer(r)
    ensures shift == 0 && rescale == 0 ==> r == s
    ensures rescale == 0 && shift > 0 ==> r == ShiftedLeft(s, shift)
    ensures rescale == 0 && shift < 0 ==> r == ShiftedRight(s, -shift)
    ensures shift == 0 && rescale > 0 ==> r == Compressed(s)
    ensures shift == 0 && rescale < 0 ==> r == Expanded(s)
  {
    Rescaled(Panned(s, shift), rescale)
  }

  /** The write index after vfoSweepUpdateSamples: set by a pan, then by a rescale, else kept. */
  function SampleIndexAfter(idx: int, shift: int, rescale: int): (r: int)
    requires -8 <= shift <= 8
    ensures shift == 0 && rescale == 0 ==> r == idx
    ensures shift != 0 || rescale != 0 ==> 0 <= r < N
    ensures rescale > 0 ==> r == NEW_START_SAMPLE + N / 2
    ensures rescale < 0 ==> r == 0
    ensures rescale == 0 && shift > 0 ==> r == N - 1 - shift
    ensures rescale == 0 && shift < 0 ==> r == 0
  {
    var i := if shift != 0 then IndexAfterPan(shift) else idx;
    if rescale > 0 then (N * 3) / 4 else if rescale < 0 then 0 else i
  }

  /**
   * After every update that moves the graph, the sweep resumes where the
   * new, empty columns begin: after a pan up, just before the columns the
   * pan revealed on the right; after a pan down or a zoom-out, at the
   * left edge; after a zoom-in, at the first cleared column on the right.
   */
  lemma SweepResumesAtRevealedColumns(s: seq<Byte>, shift: int, rescale: int)
    requires IsBuffer(s) && -8 <= shift <= 8
    requires (shift != 0 && rescale == 0) || (shift == 0 && rescale > 0)
    ensures var r := SamplesAfter(s, shift, rescale);
      var i := SampleIndexAfter(0, shift, rescale);
      (shift > 0 ==> forall j :: i < j < N ==> r[j] == 0) &&
      (shift < 0 ==> forall j :: i <= j < -shift ==> r[j] == 0) &&
      (rescale > 0 ==> forall j :: i <= j < N ==> r[j] == 0)
  {
  }

  /**
   * The up key and then the down key in sweep mode pan the graph back:
   * every column that stayed on screen is restored, and the columns that
   * were pushed off come back empty.
   */
  lemma {:induction false} PanUpThenDownKeys(s: seq<Byte>, k: nat)
    requires IsBuffer(s) && 0 < k <= 8
    ensures SamplesAfter(SamplesAfter(s, k, 0), -(k as int), 0) == Zeros(k) + s[k..]
  {
    PanUpThenDown(s, k);
  }

  /** The write position of sweepScanStep: sweepSampleIndex and sweepSampleIndexIncrement. */
  datatype SweepCursor = SweepCursor(index: int, increment: int)

  /**
   * One expired sweep step: a column inside the graph is written and the
   * cursor moves by the increment; past the end it returns to column 0
   * with the increment back to 1.
   */
  function SweepTick(c: SweepCursor): (r: SweepCursor)
    ensures c.index < N ==> r == c.(index := c.index + c.increment)
    ensures c.index >= N ==> r == SweepCursor(0, 1)
  {
    if c.index < N then c.(index := c.index + c.increment) else SweepCursor(0, 1)
  }

  /** k expired sweep steps. */
  function SweepTicks(c: SweepCursor, k: nat): SweepCursor
    decreases k
  {
    if k == 0 then c else SweepTicks(SweepTick(c), k - 1)
  }

  lemma {:induction false} SweepTicksAdd(c: SweepCursor, a: nat, b: nat)
    ensures SweepTicks(c, a + b) == SweepTicks(SweepTicks(c, a), b)
    decreases a
  {
    if a > 0 {
      SweepTicksAdd(SweepTick(c), a - 1, b);
    }
  }

  /** From column j with increment 1, the sweep reaches the end of the graph after N - j steps. */
  lemma {:induction false} SweepRunsToEnd(j: int)
    requires 0 <= j <= N
    ensures SweepTicks(SweepCursor(j, 1), N - j) == SweepCursor(N, 1)
    decreases N - j
  {
    if j < N {
      assert SweepTick(SweepCursor(j, 1)) == SweepCursor(j + 1, 1);
      SweepRunsToEnd(j + 1);
    }
  }

  /**
   * A sweep started at column 0 visits every column in order, one per
   * step, and N + 1 steps later is back at column 0: the graph is redrawn
   * in full on every pass.
   */
  lemma {:induction false} SweepPassCoversGraph(k: nat)
    requires k <= N
    ensures SweepTicks(SweepCursor(0, 1), k) == SweepCursor(k, 1)
    ensures SweepTicks(SweepCursor(0, 1), N + 1) == SweepCursor(0, 1)
  {
    SweepTicksAdd(SweepCursor(0, 1), k, N - k);
    SweepRunsToEnd(k);
    SweepRunsToEnd(0);
    SweepTicksAdd(SweepCursor(0, 1), N, 1);
    assert SweepTicks(SweepCursor(N, 1), 1) == SweepCursor(0, 1);
    SweepPrefix(k);
  }

  lemma {:induction false} SweepPrefix(k: nat)
    requires k <= N
    ensures SweepTicks(SweepCursor(0, 1), k) == SweepCursor(k, 1)
    decreases k
  {
    if k > 0 {
      SweepPrefix(k - 1);
      SweepTicksAdd(SweepCursor(0, 1), k - 1, 1);
      assert SweepTicks(SweepCursor(k - 1, 1), 1) == SweepCursor(k, 1);
    }
  }
}
