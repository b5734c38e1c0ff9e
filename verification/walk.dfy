/**
 * The section walk of the coreg renderer: which section is shown, the
 * progress percentage, and the signal raised after the last section.
 */
module Walk {
  import opened Session

  /** What the walk tells the page after its last section: nothing yet, long form, or finish. */
  datatype Signal = NoSignal | ShowLongForm | Finish

  /** The display state of the section sequence and the progress shown. */
  datatype FlowState = FlowState(visible: seq<bool>, progress: int)

  /** The number of visible sections. */
  function VisibleCount(vis: seq<bool>): nat {
    if |vis| == 0 then 0 else VisibleCount(vis[..|vis| - 1]) + (if vis[|vis| - 1] then 1 else 0)
  }

  /** When only index `k` may be shown, at most one section is visible. */
  lemma {:induction false} CountOfSingle(vis: seq<bool>, k: int)
    requires forall j :: 0 <= j < |vis| ==> (vis[j] <==> j == k)
    ensures VisibleCount(vis) == (if 0 <= k < |vis| then 1 else 0)
    decreases |vis|
  {
    if |vis| > 0 {
      CountOfSingle(vis[..|vis| - 1], k);
    }
  }

  /** After rendering: the first section shown, the others hidden, progress 0%. */
  function Init(n: nat): (f: FlowState)
    ensures |f.visible| == n && f.progress == 0
    ensures forall j :: 0 <= j < n ==> (f.visible[j] <==> j == 0)
    ensures VisibleCount(f.visible) == (if n == 0 then 0 else 1)
  {
    var vis := seq(n, j => j == 0);
    CountOfSingle(vis, 0);
    FlowState(vis, 0)
  }

  /**
   * `Math.round((k + 1) / n * 100)`, computed exactly: rounding half up is
   * `floor(x + 1/2)`, which for x = (k+1)*100/n is ((k+1)*200 + n) div 2n.
   */
  function Progress(k: nat, n: nat): (pct: int)
    requires k < n
    ensures 0 <= pct <= 100
    ensures k == n - 1 ==> pct == 100
    ensures n < 200 && pct == 100 ==> k == n - 1
    ensures n <= 200 ==> pct >= 1
  {
    ProgressBounds(k, n);
    ((k + 1) * 200 + n) / (2 * n)
  }

  lemma MulMonotone(a: int, b: int, d: nat)
    requires a <= b
    ensures a * d <= b * d
  {
  }

  lemma DivAtLeast(num: int, den: int, c: int)
    requires den > 0 && num >= c * den
    ensures num / den >= c
  {
    var q := num / den;
    assert num == q * den + num % den;
    if q < c {
      MulMonotone(q, c - 1, den);
    }
  }

  lemma DivBelow(num: int, den: int, c: int)
    requires den > 0 && num < c * den
    ensures num / den < c
  {
    var q := num / den;
    assert num == q * den + num % den;
    if q >= c {
      MulMonotone(c, q, den);
    }
  }

  lemma ProgressBounds(k: nat, n: nat)
    requires k < n
    ensures var pct := ((k + 1) * 200 + n) / (2 * n);
      && 0 <= pct <= 100
      && (k == n - 1 ==> pct == 100)
      && (n < 200 && k < n - 1 ==> pct < 100)
      && (n <= 200 ==> pct >= 1)
  {
    var num, den := (k + 1) * 200 + n, 2 * n;
    DivAtLeast(num, den, 0);
    DivBelow(num, den, 101);
    if k == n - 1 {
      DivAtLeast(num, den, 100);
    }
    if n < 200 && k < n - 1 {
      DivBelow(num, den, 100);
    }
    if n <= 200 {
      DivAtLeast(num, den, 1);
    }
  }

  /** With 200 sections the bar already shows 100% one section before the end. */
  lemma ProgressFullTooEarly()
    ensures Progress(198, 200) == 100
  {
  }

  /** `handleFinalCoreg`: long form if the flag says "true" or the list is non-empty. */
  function FinalSignal(s: SessionState): (sig: Signal)
    ensures sig != NoSignal
    ensures sig == ShowLongForm <==> s.requiresLongForm || |s.longFormCampaigns| > 0
  {
    if s.requiresLongForm || |s.longFormCampaigns| > 0 then ShowLongForm else Finish
  }

  /** The result of one advance: the new display state and the signal raised, if any. */
  datatype Moved = Moved(flow: FlowState, signal: Signal)

  /**
   * `goToNextSection` from section `cur`: hide every section, then show the
   * next one and update the progress, or, past the last one, raise the final
   * signal read from the session.
   */
  function Advance(f: FlowState, cur: nat, s: SessionState): (m: Moved)
    requires cur < |f.visible|
    ensures |m.flow.visible| == |f.visible|
    ensures cur + 1 < |f.visible| ==>
      && (forall j :: 0 <= j < |f.visible| ==> (m.flow.visible[j] <==> j == cur + 1))
      && m.flow.progress == Progress(cur + 1, |f.visible|)
      && m.signal == NoSignal
    ensures cur + 1 == |f.visible| ==>
      && (forall j :: 0 <= j < |f.visible| ==> !m.flow.visible[j])
      && m.flow.progress == f.progress
      && m.signal == FinalSignal(s)
    ensures VisibleCount(m.flow.visible) == (if cur + 1 < |f.visible| then 1 else 0)
  {
    var n := |f.visible|;
    var vis := seq(n, j => j == cur + 1);
    CountOfSingle(vis, cur + 1);
    if cur < n - 1 then Moved(FlowState(vis, Progress(cur + 1, n)), NoSignal)
    else Moved(FlowState(vis, f.progress), FinalSignal(s))
  }
}
