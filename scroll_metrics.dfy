/**
 * The overall scroll progress that both the 3D background and the
 * progress rail compute on every scroll event: the scroll offset divided by
 * the scrollable height (document height minus viewport height), capped at 1.
 *
 * The code clamps only from above and does not guard a zero scrollable
 * height, so the division is modelled with `docHeight != 0` as a
 * precondition and a negative scroll offset gives a negative progress.
 */
module ScrollMetrics {

  /** `Math.min(scrollY / docHeight, 1)` */
  function Progress(scrollY: real, docHeight: real): (p: real)
    requires docHeight != 0.0
    ensures p <= 1.0
    ensures p < 1.0 ==> p * docHeight == scrollY
    ensures p == 1.0 ==> 1.0 <= scrollY / docHeight
    ensures 0.0 < docHeight ==> (p == 1.0 <==> docHeight <= scrollY)
    ensures 0.0 < docHeight && 0.0 <= scrollY ==> 0.0 <= p
  {
    if scrollY / docHeight < 1.0 then scrollY / docHeight else 1.0
  }

  /** For a fixed geometry, scrolling further never lowers the progress. */
  lemma ProgressMonotone(s1: real, s2: real, docHeight: real)
    requires 0.0 < docHeight
    requires s1 <= s2
    ensures Progress(s1, docHeight) <= Progress(s2, docHeight)
  {
    assert s1 / docHeight <= s2 / docHeight by {
      assert s2 / docHeight - s1 / docHeight == (s2 - s1) / docHeight;
    }
  }

  /** Top of the page, half way, and past the end give 0, 0.5 and 1. */
  lemma ProgressSamples(docHeight: real)
    requires 0.0 < docHeight
    ensures Progress(0.0, docHeight) == 0.0
    ensures Progress(docHeight / 2.0, docHeight) == 0.5
    ensures Progress(2.0 * docHeight, docHeight) == 1.0
  {
  }
}
