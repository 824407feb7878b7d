/**
 * The scroll-driven 3D receipt-scanning scene.
 *
 * On every scroll event the scene recomputes one of six ordered scene states
 * from the scroll offset, the viewport height and four section anchors. Each
 * scene object then eases its stored values, once per rendered frame, toward
 * targets that depend on the scene state alone.
 */
module ThreeBackground {
  import opened Wrappers
  import ScrollMetrics

  // ---------------------------------------------------------------------------
  // Scene states
  // ---------------------------------------------------------------------------

  /** The scene states, in page order from top to bottom. */
  datatype SceneState = Hero | Story | Featured1 | Featured2 | Projects | Final

  /** Position of a state in page order. */
  function Rank(s: SceneState): (r: nat)
    ensures r < 6
  {
    match s
    case Hero => 0
    case Story => 1
    case Featured1 => 2
    case Featured2 => 3
    case Projects => 4
    case Final => 5
  }

  // ---------------------------------------------------------------------------
  // Section anchors and the state cascade
  // ---------------------------------------------------------------------------

  /** A threshold offset: a finite document offset, or the `Infinity` a missing element defaults to. */
  datatype Offset = Finite(top: real) | Infinite

  /** `o + d`, where Infinity absorbs any finite addend. */
  function Shift(o: Offset, d: real): Offset {
    match o
    case Finite(t) => Finite(t + d)
    case Infinite => Infinite
  }

  /** `p < o` for a finite probe `p`. */
  predicate Before(p: real, o: Offset) {
    o.Infinite? || p < o.top
  }

  /** The `offsetTop` of the four elements the cascade looks up; `None` when the element is absent. */
  datatype Anchors = Anchors(story: Option<real>, featured: Option<real>, projects: Option<real>, experience: Option<real>)

  /** `el?.offsetTop ?? Infinity` */
  function OrInfinite(a: Option<real>): Offset {
    match a
    case Some(t) => Finite(t)
    case None => Infinite
  }

  /** The point compared against the thresholds: 30% of the way down the viewport. */
  function Probe(scrollY: real, viewportHeight: real): real {
    scrollY + viewportHeight * 0.3
  }

  /**
   * The five thresholds of the cascade, in the order the code tests them.
   * A missing story element defaults to 0, the three others to Infinity.
   */
  function Thresholds(viewportHeight: real, a: Anchors): (ts: seq<Offset>)
    ensures |ts| == 5
  {
    var featured := OrInfinite(a.featured);
    [ Finite(a.story.GetOr(0.0) + viewportHeight * 0.5),
      featured,
      Shift(featured, viewportHeight),
      OrInfinite(a.projects),
      OrInfinite(a.experience) ]
  }

  /**
   * Reference definition of a threshold cascade: the index of the first
   * threshold the probe has not passed, or `|ts|` when it has passed them all.
   */
  function FirstNotPassed(p: real, ts: seq<Offset>): (k: nat)
    ensures k <= |ts|
    ensures forall j :: 0 <= j < k ==> !Before(p, ts[j])
    ensures k < |ts| ==> Before(p, ts[k])
  {
    if |ts| == 0 then 0
    else if Before(p, ts[0]) then 0
    else 1 + FirstNotPassed(p, ts[1..])
  }

  /** A larger probe never stops earlier in a cascade, whatever the order of its thresholds. */
  lemma {:induction false} FirstNotPassedMonotone(p1: real, p2: real, ts: seq<Offset>)
    requires p1 <= p2
    ensures FirstNotPassed(p1, ts) <= FirstNotPassed(p2, ts)
  {
    if |ts| > 0 && !Before(p1, ts[0]) {
      FirstNotPassedMonotone(p1, p2, ts[1..]);
    }
  }

  /**
   * The scene state for a scroll offset, a viewport height and the section
   * anchors, as the scroll handler's `if`/`else if` chain decides it: it is
   * the state whose rank is the first threshold the probe falls below.
   */
  function SceneStateAt(scrollY: real, viewportHeight: real, a: Anchors): (s: SceneState)
    ensures Rank(s) == FirstNotPassed(Probe(scrollY, viewportHeight), Thresholds(viewportHeight, a))
  {
    var storyTop := a.story.GetOr(0.0);
    var featuredTop := OrInfinite(a.featured);
    var scrollPos := Probe(scrollY, viewportHeight);
    var ts := Thresholds(viewportHeight, a);
    assert ts[0] == Finite(storyTop + viewportHeight * 0.5) && ts[1] == featuredTop;
    assert ts[2] == Shift(featuredTop, viewportHeight);
    assert ts[3] == OrInfinite(a.projects) && ts[4] == OrInfinite(a.experience);
    if scrollPos < storyTop + viewportHeight * 0.5 then Hero
    else if Before(scrollPos, featuredTop) then Story
    else if Before(scrollPos, Shift(featuredTop, viewportHeight)) then Featured1
    else if Before(scrollPos, OrInfinite(a.projects)) then Featured2
    else if Before(scrollPos, OrInfinite(a.experience)) then Projects
    else Final
  }

  /**
   * With the anchors and the viewport fixed, scrolling down never moves the
   * scene to an earlier state, even when the anchors are out of order.
   */
  lemma SceneStateMonotone(y1: real, y2: real, viewportHeight: real, a: Anchors)
    requires y1 <= y2
    ensures Rank(SceneStateAt(y1, viewportHeight, a)) <= Rank(SceneStateAt(y2, viewportHeight, a))
  {
    FirstNotPassedMonotone(Probe(y1, viewportHeight), Probe(y2, viewportHeight), Thresholds(viewportHeight, a));
  }

  /**
   * Missing anchors cap the state: without a featured element the scene never
   * leaves story, without projects it stops at featured2, and without
   * experience at projects.
   */
  lemma MissingAnchorsCapState(scrollY: real, viewportHeight: real, a: Anchors)
    ensures a.featured.None? ==> Rank(SceneStateAt(scrollY, viewportHeight, a)) <= 1
    ensures a.projects.None? ==> Rank(SceneStateAt(scrollY, viewportHeight, a)) <= 3
    ensures a.experience.None? ==> Rank(SceneStateAt(scrollY, viewportHeight, a)) <= 4
  {
  }

  /** A missing story element behaves as one at offset 0, not as one infinitely far. */
  lemma MissingStoryIsZero(scrollY: real, viewportHeight: real, a: Anchors)
    requires a.story.None?
    ensures SceneStateAt(scrollY, viewportHeight, a) == SceneStateAt(scrollY, viewportHeight, a.(story := Some(0.0)))
    ensures 0.0 < viewportHeight && scrollY < viewportHeight * 0.2 ==> SceneStateAt(scrollY, viewportHeight, a) == Hero
  {
  }

  /**
   * Worked example with story = 0, featured = 1000, projects = 3000,
   * experience = 5000 and an 800-pixel viewport; the probe is 240 pixels
   * below the scroll offset, so 900 already reads as featured1.
   */
  lemma CascadeExample()
    ensures var a := Anchors(Some(0.0), Some(1000.0), Some(3000.0), Some(5000.0));
      && SceneStateAt(0.0, 800.0, a) == Hero
      && SceneStateAt(700.0, 800.0, a) == Story
      && SceneStateAt(900.0, 800.0, a) == Featured1
      && SceneStateAt(1000.0, 800.0, a) == Featured1
      && SceneStateAt(2000.0, 800.0, a) == Featured2
      && SceneStateAt(2900.0, 800.0, a) == Projects
      && SceneStateAt(3000.0, 800.0, a) == Projects
      && SceneStateAt(5000.0, 800.0, a) == Final
  {
  }

  /** The state and progress the scroll hook publishes to the scene. */
  class ScrollTracker {
    var scrollState: SceneState
    var scrollProgress: real

    /** Before the handler's first run (the one the mount effect makes): hero, progress 0. */
    constructor ()
      ensures scrollState == Hero && scrollProgress == 0.0
    {
      scrollState := Hero;
      scrollProgress := 0.0;
    }

    /** The scroll handler: recompute the progress and the scene state from scratch. */
    method HandleScroll(scrollY: real, scrollHeight: real, innerHeight: real, a: Anchors)
      requires scrollHeight - innerHeight != 0.0
      modifies this
      ensures scrollProgress == ScrollMetrics.Progress(scrollY, scrollHeight - innerHeight)
      ensures scrollState == SceneStateAt(scrollY, innerHeight, a)
    {
      var docHeight := scrollHeight - innerHeight;
      scrollProgress := ScrollMetrics.Progress(scrollY, docHeight);
      scrollState := SceneStateAt(scrollY, innerHeight, a);
    }
  }

  // ---------------------------------------------------------------------------
  // Per-state targets
  // ---------------------------------------------------------------------------

  /** Receipt text opacity: faded once the receipt has been scanned. */
  function ReceiptTextTarget(s: SceneState): (r: real)
    ensures r == (if 2 <= Rank(s) then 0.3 else 1.0)
  {
    if s == Featured1 || s == Featured2 || s == Projects || s == Final then 0.3 else 1.0
  }

  /** Scanner glow: off in hero, full while scanning, dimmed afterwards. */
  function GlowTarget(s: SceneState): (r: real)
    ensures r == 0.0 <==> Rank(s) == 0
    ensures r == 1.0 <==> 1 <= Rank(s) <= 2
    ensures r == 0.3 <==> 3 <= Rank(s)
  {
    if s == Story || s == Featured1 then 1.0
    else if s == Hero then 0.0
    else 0.3
  }

  /** Whether the scan line is shown: only in story and featured1. */
  predicate ScanLineShown(s: SceneState)
  {
    if s == Featured1 then true else s == Story
  }

  /** The scan line shows exactly while the scanner is scanning. */
  lemma ScanLineShownExactly(s: SceneState)
    ensures ScanLineShown(s) <==> 1 <= Rank(s) <= 2
    ensures ScanLineShown(s) <==> GlowTarget(s) == 1.0
  {
  }

  /** Number of data rows to reveal: none, the first three, or all six. */
  function RowsTarget(s: SceneState): (r: real)
    ensures r == 0.0 || r == 3.0 || r == 6.0
    ensures r == 0.0 <==> Rank(s) < 2
    ensures r == 3.0 <==> Rank(s) == 2
    ensures r == 6.0 <==> 3 <= Rank(s)
  {
    if s == Featured1 then 3.0
    else if s == Featured2 || s == Projects || s == Final then 6.0
    else 0.0
  }

  /** Checkmark opacity: shown once all rows are due. */
  function CheckTarget(s: SceneState): (r: real)
    ensures r == 0.0 || r == 1.0
    ensures r == 1.0 <==> 3 <= Rank(s)
    ensures r == 1.0 <==> RowsTarget(s) == 6.0
  {
    if s == Featured2 || s == Projects || s == Final then 1.0 else 0.0
  }

  /** Data card x position: parked to the right before the featured section. */
  function CardXTarget(s: SceneState): (r: real)
    ensures r == 3.0 <==> Rank(s) <= 1
    ensures r == 1.5 <==> 2 <= Rank(s)
  {
    if s == Hero || s == Story then 3.0 else 1.5
  }

  /** Reimbursed card opacity: visible from projects on. */
  function ReimbursedOpacityTarget(s: SceneState): (r: real)
    ensures r == 1.0 <==> 4 <= Rank(s)
    ensures r == 0.0 <==> Rank(s) < 4
  {
    if s == Projects || s == Final then 1.0 else 0.0
  }

  /** Reimbursed card y position: slid up from below from projects on. */
  function ReimbursedYTarget(s: SceneState): (r: real)
    ensures r == -1.8 <==> 4 <= Rank(s)
    ensures r == -3.0 <==> Rank(s) < 4
  {
    if s == Projects || s == Final then -1.8 else -3.0
  }

  /**
   * Along the page order the reveal only progresses: rows, checkmark and
   * confirmation never go back, and the card never moves back to the right.
   */
  lemma TargetsMonotone(s: SceneState, t: SceneState)
    requires Rank(s) <= Rank(t)
    ensures RowsTarget(s) <= RowsTarget(t)
    ensures CheckTarget(s) <= CheckTarget(t)
    ensures ReimbursedOpacityTarget(s) <= ReimbursedOpacityTarget(t)
    ensures ReimbursedYTarget(s) <= ReimbursedYTarget(t)
    ensures CardXTarget(t) <= CardXTarget(s)
    ensures ReceiptTextTarget(t) <= ReceiptTextTarget(s)
  {
  }

  // ---------------------------------------------------------------------------
  // Easing toward a target
  // ---------------------------------------------------------------------------

  function Min(a: real, b: real): real { if a <= b then a else b }
  function Max(a: real, b: real): real { if a <= b then b else a }
  function Abs(a: real): real { if a < 0.0 then -a else a }

  /** An easing step with a factor in [0, 1] lands between the two ends. */
  lemma StepBetween(a: real, b: real, t: real)
    requires 0.0 <= t <= 1.0
    ensures Min(a, b) <= a + (b - a) * t <= Max(a, b)
  {
    var d := b - a;
    if 0.0 <= d {
      assert 0.0 <= d * t;
      assert d - d * t == d * (1.0 - t);
      assert 0.0 <= d * (1.0 - t);
    } else {
      assert d * t <= 0.0;
      assert d * t - d == -d * (1.0 - t);
      assert 0.0 <= -d * (1.0 - t);
    }
  }

  /** `THREE.MathUtils.lerp(a, b, t)`; the remaining distance to `b` shrinks by the factor `1 - t`. */
  function Lerp(a: real, b: real, t: real): (r: real)
    ensures b - r == (b - a) * (1.0 - t)
    ensures t == 0.0 ==> r == a
    ensures t == 1.0 ==> r == b
    ensures a == b ==> r == b
    ensures 0.0 <= t <= 1.0 ==> Min(a, b) <= r <= Max(a, b)
    ensures 0.0 <= t <= 1.0 ==> Abs(b - r) <= Abs(b - a)
  {
    if 0.0 <= t <= 1.0 then StepBetween(a, b, t); a + (b - a) * t
    else a + (b - a) * t
  }

  /** The value after easing toward a fixed target once per frame with the given factors. */
  function Settle(v: real, target: real, factors: seq<real>): real
    decreases |factors|
  {
    if |factors| == 0 then v else Settle(Lerp(v, target, factors[0]), target, factors[1..])
  }

  /**
   * As long as the scene state (hence the target) stays put and every frame's
   * factor `delta * rate` is at most 1, an eased value never overshoots: it
   * stays between where it started and the target, and never gets farther
   * from the target.
   */
  lemma {:induction false} SettleNeverOvershoots(v: real, target: real, factors: seq<real>)
    requires forall i :: 0 <= i < |factors| ==> 0.0 <= factors[i] <= 1.0
    ensures Min(v, target) <= Settle(v, target, factors) <= Max(v, target)
    ensures Abs(target - Settle(v, target, factors)) <= Abs(target - v)
    decreases |factors|
  {
    if |factors| > 0 {
      SettleNeverOvershoots(Lerp(v, target, factors[0]), target, factors[1..]);
    }
  }

  /** A value already at its target stays there, whatever the frame timings. */
  lemma {:induction false} SettleAtTarget(target: real, factors: seq<real>)
    ensures Settle(target, target, factors) == target
  {
    if |factors| > 0 {
      SettleAtTarget(target, factors[1..]);
    }
  }

  // ---------------------------------------------------------------------------
  // Visibility thresholds
  // ---------------------------------------------------------------------------

  /** Data row `i` is drawn while more than `i` rows are revealed. */
  predicate RowVisible(rowsVisible: real, i: nat) { rowsVisible > i as real }

  /** The checkmark is drawn once its opacity exceeds 0.1. */
  predicate CheckmarkVisible(opacity: real) { opacity > 0.1 }

  /** The REIMBURSED text and amount are drawn once the card's opacity exceeds 0.5. */
  predicate ReimbursedTextVisible(opacity: real) { opacity > 0.5 }

  /** The visible rows are always a prefix of the six data rows. */
  lemma VisibleRowsArePrefix(rowsVisible: real, i: nat, j: nat)
    requires i <= j
    requires RowVisible(rowsVisible, j)
    ensures RowVisible(rowsVisible, i)
  {
  }

  /**
   * The visibility predicates, taken of each state's target values, hold
   * for as many rows as the row target, for the checkmark from featured2
   * on, and for the confirmation text from projects on.
   */
  lemma SettledVisibility(s: SceneState, i: nat)
    requires i < 6
    ensures RowVisible(RowsTarget(s), i) <==> (Rank(s) == 2 && i < 3) || 3 <= Rank(s)
    ensures CheckmarkVisible(CheckTarget(s)) <==> 3 <= Rank(s)
    ensures ReimbursedTextVisible(ReimbursedOpacityTarget(s)) <==> 4 <= Rank(s)
  {
  }

  // ---------------------------------------------------------------------------
  // Scene objects and their per-frame updates
  // ---------------------------------------------------------------------------

  /** The receipt: its text fades once it has been scanned. */
  class Receipt {
    var textOpacity: real

    predicate Valid() reads this { 0.3 <= textOpacity <= 1.0 }

    constructor ()
      ensures textOpacity == 1.0 && Valid()
    {
      textOpacity := 1.0;
    }

    /** One rendered frame, `delta` seconds after the previous one. */
    method Frame(s: SceneState, delta: real)
      modifies this
      ensures textOpacity == Lerp(old(textOpacity), ReceiptTextTarget(s), delta * 2.0)
      ensures old(Valid()) && 0.0 <= delta <= 0.5 ==> Valid()
    {
      if s == Featured1 || s == Featured2 || s == Projects || s == Final {
        textOpacity := Lerp(textOpacity, 0.3, delta * 2.0);
      } else {
        textOpacity := Lerp(textOpacity, 1.0, delta * 2.0);
      }
    }
  }

  /** The scanner: a glowing accent and a scan line. */
  class Scanner {
    var glowIntensity: real
    var scanLineVisible: bool
    var scanLineY: real

    predicate Valid() reads this { 0.0 <= glowIntensity <= 1.0 && -1.2 <= scanLineY <= 1.1 }

    constructor ()
      ensures glowIntensity == 0.0 && !scanLineVisible && scanLineY == 0.0 && Valid()
    {
      glowIntensity := 0.0;
      scanLineVisible := false;
      scanLineY := 0.0;
    }

    /** One rendered frame; `sweep` is the sine of twice the elapsed time that drives the scan line. */
    method Frame(s: SceneState, delta: real, sweep: real)
      modifies this
      ensures glowIntensity == Lerp(old(glowIntensity), GlowTarget(s), delta * 3.0)
      ensures scanLineVisible == ScanLineShown(s)
      ensures scanLineY == if s == Featured1 then sweep * 1.1 else -1.2
      ensures old(Valid()) && 0.0 <= delta <= 1.0 / 3.0 && -1.0 <= sweep <= 1.0 ==> Valid()
    {
      var targetGlow := if s == Story || s == Featured1 then 1.0
                        else if s == Hero then 0.0 else 0.3;
      glowIntensity := Lerp(glowIntensity, targetGlow, delta * 3.0);
      if s == Featured1 {
        scanLineY := sweep * 1.1;
        scanLineVisible := true;
      } else {
        scanLineVisible := s == Story;
        scanLineY := -1.2;
      }
    }
  }

  /** The glass data card: rows revealed one by one, then a checkmark. */
  class DataCard {
    var rowsVisible: real
    var checkmarkOpacity: real
    var x: real

    predicate Valid() reads this {
      0.0 <= rowsVisible <= 6.0 && 0.0 <= checkmarkOpacity <= 1.0 && 1.5 <= x <= 3.0
    }

    constructor ()
      ensures rowsVisible == 0.0 && checkmarkOpacity == 0.0 && x == 2.5 && Valid()
    {
      rowsVisible := 0.0;
      checkmarkOpacity := 0.0;
      x := 2.5;
    }

    /** One rendered frame, `delta` seconds after the previous one. */
    method Frame(s: SceneState, delta: real)
      modifies this
      ensures rowsVisible == Lerp(old(rowsVisible), RowsTarget(s), delta * 2.0)
      ensures checkmarkOpacity == Lerp(old(checkmarkOpacity), CheckTarget(s), delta * 3.0)
      ensures x == Lerp(old(x), CardXTarget(s), delta * 2.0)
      ensures old(Valid()) && 0.0 <= delta <= 1.0 / 3.0 ==> Valid()
    {
      var targetRows := if s == Featured1 then 3.0
                        else if s == Featured2 || s == Projects || s == Final then 6.0
                        else 0.0;
      rowsVisible := Lerp(rowsVisible, targetRows, delta * 2.0);
      var targetCheck := if s == Featured2 || s == Projects || s == Final then 1.0 else 0.0;
      checkmarkOpacity := Lerp(checkmarkOpacity, targetCheck, delta * 3.0);
      var targetX := if s == Hero || s == Story then 3.0 else 1.5;
      x := Lerp(x, targetX, delta * 2.0);
    }
  }

  /** The REIMBURSED confirmation card that slides up and fades in. */
  class ReimbursedCard {
    var opacity: real
    var y: real

    predicate Valid() reads this { 0.0 <= opacity <= 1.0 }

    constructor ()
      ensures opacity == 0.0 && y == -3.0 && Valid()
    {
      opacity := 0.0;
      y := -3.0;
    }

    /**
     * One rendered frame; `hover` is the sine of half the elapsed time. The
     * hover offset is added to the stored position, so the next frame eases
     * from the hovered position.
     */
    method Frame(s: SceneState, delta: real, hover: real)
      modifies this
      ensures opacity == Lerp(old(opacity), ReimbursedOpacityTarget(s), delta * 2.0)
      ensures y == Lerp(old(y), ReimbursedYTarget(s), delta * 2.0) + hover * 0.01
      ensures old(Valid()) && 0.0 <= delta <= 0.5 ==> Valid()
    {
      var targetOpacity := if s == Projects || s == Final then 1.0 else 0.0;
      opacity := Lerp(opacity, targetOpacity, delta * 2.0);
      var targetY := if s == Projects || s == Final then -1.8 else -3.0;
      y := Lerp(y, targetY, delta * 2.0);
      y := y + hover * 0.01;
    }
  }
}
