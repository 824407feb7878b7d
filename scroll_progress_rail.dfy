/**
 * The scroll progress rail: a bar that fills with the overall scroll
 * progress, and a marker on the section being read.
 *
 * On every scroll event the rail scans its fixed list of sections from the
 * last to the first and marks the first one (from the end) whose element
 * exists and whose top lies at or above a point one third of the way down
 * the viewport. When no section qualifies, the marked section stays as it was.
 */
module ScrollProgressRail {
  import opened Wrappers
  import ScrollMetrics

  /** The section ids, in page order. */
  const Sections: seq<string> := ["story", "featured", "projects", "experience", "skills", "contact"]

  /**
   * Section `i` can be marked: its element exists (`offsets` holds the
   * `offsetTop` of every element `getElementById` finds) and its top is at
   * or above the probe.
   */
  predicate Qualifies(offsets: map<string, real>, probe: real, i: nat)
    requires i < |Sections|
  {
    Sections[i] in offsets && offsets[Sections[i]] <= probe
  }

  /** The point compared against the section tops: one third of the way down the viewport. */
  function Probe(scrollY: real, innerHeight: real): real {
    scrollY + innerHeight / 3.0
  }

  /** The greatest index below `n` whose section qualifies, if any. */
  function ActiveIndex(offsets: map<string, real>, probe: real, n: nat): (k: Option<nat>)
    requires n <= |Sections|
    ensures k.Some? ==> k.value < n && Qualifies(offsets, probe, k.value)
    ensures k.Some? ==> forall j :: k.value < j < n ==> !Qualifies(offsets, probe, j)
    ensures k.None? <==> forall j :: 0 <= j < n ==> !Qualifies(offsets, probe, j)
  {
    if n == 0 then None
    else if Qualifies(offsets, probe, n - 1) then Some(n - 1)
    else ActiveIndex(offsets, probe, n - 1)
  }

  /**
   * The reverse scan of the scroll handler: from the last section down,
   * stop at the first that qualifies.
   */
  method ScanFromEnd(offsets: map<string, real>, probe: real) returns (k: Option<nat>)
    ensures k == ActiveIndex(offsets, probe, |Sections|)
    ensures k.Some? ==> k.value < |Sections| && Qualifies(offsets, probe, k.value)
    ensures k.Some? ==> forall j :: k.value < j < |Sections| ==> !Qualifies(offsets, probe, j)
    ensures k.None? ==> forall j :: 0 <= j < |Sections| ==> !Qualifies(offsets, probe, j)
  {
    k := None;
    var i := |Sections| - 1;
    while i >= 0
      invariant -1 <= i < |Sections|
      invariant k.None?
      invariant forall j :: i < j < |Sections| ==> !Qualifies(offsets, probe, j)
      invariant ActiveIndex(offsets, probe, |Sections|) == ActiveIndex(offsets, probe, i + 1)
      decreases i
    {
      if Sections[i] in offsets && offsets[Sections[i]] <= probe {
        k := Some(i);
        break;
      }
      i := i - 1;
    }
  }

  /**
   * With the section tops fixed, a probe further down never marks an earlier
   * section, and a section that qualifies keeps qualifying.
   */
  lemma {:induction false} ActiveIndexMonotone(offsets: map<string, real>, p1: real, p2: real, n: nat)
    requires n <= |Sections|
    requires p1 <= p2
    requires ActiveIndex(offsets, p1, n).Some?
    ensures ActiveIndex(offsets, p2, n).Some?
    ensures ActiveIndex(offsets, p1, n).value <= ActiveIndex(offsets, p2, n).value
  {
    if !Qualifies(offsets, p2, n - 1) {
      ActiveIndexMonotone(offsets, p1, p2, n - 1);
    }
  }

  /**
   * The comparison is inclusive: with sections at 100 and 500 and the probe
   * at 500, the later section is marked.
   */
  lemma InclusiveTieBreak()
    ensures ActiveIndex(map["story" := 100.0, "featured" := 500.0], 500.0, |Sections|) == Some(1)
    ensures ActiveIndex(map["story" := 100.0, "featured" := 500.0], 499.0, |Sections|) == Some(0)
    ensures ActiveIndex(map["story" := 100.0, "featured" := 500.0], 99.0, |Sections|) == None
  {
    var m := map["story" := 100.0, "featured" := 500.0];
    assert Sections[0] == "story" && Sections[1] == "featured";
    assert m.Keys == {"story", "featured"};
    assert Sections[2] !in m && Sections[3] !in m && Sections[4] !in m && Sections[5] !in m;
  }

  /** The rail's state: the marked section and the fill of the progress bar. */
  class Rail {
    var activeSection: string
    var scrollProgress: real

    /** The marked section is always one of the listed ids. */
    predicate Valid() reads this { activeSection in Sections }

    /** Before the handler's first run (the one the mount effect makes): story marked, empty bar. */
    constructor ()
      ensures activeSection == "story" && scrollProgress == 0.0 && Valid()
    {
      activeSection := "story";
      scrollProgress := 0.0;
    }

    /**
     * The scroll handler. The progress is recomputed; the marked section
     * becomes the last qualifying one, or stays as it was if none qualifies.
     */
    method HandleScroll(scrollY: real, innerHeight: real, scrollHeight: real, offsets: map<string, real>)
      requires scrollHeight - innerHeight != 0.0
      modifies this
      ensures scrollProgress == ScrollMetrics.Progress(scrollY, scrollHeight - innerHeight)
      ensures var k := ActiveIndex(offsets, Probe(scrollY, innerHeight), |Sections|);
        activeSection == if k.Some? then Sections[k.value] else old(activeSection)
      ensures old(Valid()) ==> Valid()
    {
      var docHeight := scrollHeight - innerHeight;
      scrollProgress := ScrollMetrics.Progress(scrollY, docHeight);
      var scrollPosition := Probe(scrollY, innerHeight);
      var k := ScanFromEnd(offsets, scrollPosition);
      if k.Some? {
        activeSection := Sections[k.value];
      }
    }
  }
}
