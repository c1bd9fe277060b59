/**
 * The axis layout of com.threerings.ui.AxisLayout: a two-pass box layout that
 * first collects metrics over the visible elements and then walks them again
 * with a running on-axis cursor, sizing and placing each one.
 *
 * Sizes are `real`: the source's `float` rounding is not modelled.
 */
module Axis {
  import opened Wrappers

  /** Alignment of a group or an element inside an extent: start is left/top. */
  datatype Align = Start | Center | End {
    /** Offset at which content of length `size` is placed inside `extent`. */
    function ComputeOffset(size: real, extent: real): (r: real)
      ensures this == Start ==> r == 0.0
      ensures this == Center ==> r + size + r == extent   // equal margins
      ensures this == End ==> r + size == extent          // flush with the end
    {
      match this
      case Start => 0.0
      case Center => (extent - size) / 2.0
      case End => extent - size
    }
  }

  /** Off-axis sizing policy. */
  datatype Policy = Default | Stretch | Equalize {
    /** Off-axis length of an element of preferred length `size`, when the
        largest visible sibling prefers `maxSize` and `extent` is available. */
    function ComputeSize(size: real, maxSize: real, extent: real): (r: real)
      ensures this == Default ==> r == size
      ensures this == Stretch ==> r == extent
      ensures this == Equalize ==> r == maxSize
    {
      match this
      case Default => size
      case Stretch => extent
      case Equalize => maxSize
    }
  }

  /** A per-element layout constraint: stretched or not, with a weight. */
  datatype Constraint = Constraint(stretch: bool, weight: real) {
    /** On-axis length: the preferred length, or for a stretched element its
        weight's share of `availSize`. */
    function ComputeSize(size: real, totalWeight: real, availSize: real): (r: real)
      requires stretch ==> totalWeight != 0.0
      ensures !stretch ==> r == size
      ensures stretch ==> r == Portion(availSize, weight, totalWeight)
    {
      if stretch then Portion(availSize, weight, totalWeight) else size
    }
  }

  /** The part of `availSize` that `weight` out of `totalWeight` receives. */
  function Portion(availSize: real, weight: real, totalWeight: real): real
    requires totalWeight != 0.0
  {
    availSize * weight / totalWeight
  }

  /** Portions of the same whole add up by weight. */
  lemma PortionAdd(availSize: real, w1: real, w2: real, totalWeight: real)
    requires totalWeight != 0.0
    ensures Portion(availSize, w1, totalWeight) + Portion(availSize, w2, totalWeight)
      == Portion(availSize, w1 + w2, totalWeight)
  {
    assert availSize * w1 + availSize * w2 == availSize * (w1 + w2);
  }

  /** The whole weight receives the whole size, no weight receives nothing. */
  lemma PortionBounds(availSize: real, totalWeight: real)
    requires totalWeight != 0.0
    ensures Portion(availSize, totalWeight, totalWeight) == availSize
    ensures Portion(availSize, 0.0, totalWeight) == 0.0
  {
  }

  /** The constraint of an element without one. */
  const Unstretched := Constraint(false, 1.0)
  /** The shared constraint returned by `stretched()`. */
  const UniformStretched := Constraint(true, 1.0)

  /** `stretched(weight)`: a stretched constraint; the weight is not checked. */
  function StretchedBy(weight: real): (c: Constraint)
    ensures c.stretch && c.weight == weight
    ensures weight == 1.0 ==> c == UniformStretched
  {
    Constraint(true, weight)
  }

  /** A layout participant: its identity, its visibility and its preferred size. */
  datatype Element = Element(id: nat, visible: bool, prefWidth: real, prefHeight: real)

  /** The constraint map handed to the layout, keyed by element identity;
      `None` is a null map. */
  type ConstraintMap = Option<map<nat, Constraint>>

  function GetConstraint(cmap: ConstraintMap, e: Element): (c: Constraint)
    ensures cmap.Some? && e.id in cmap.value ==> c == cmap.value[e.id]
    ensures cmap.None? || e.id !in cmap.value ==> c == Unstretched
  {
    match cmap
    case None => Unstretched
    case Some(m) => if e.id in m then m[e.id] else Unstretched
  }

  /** The two dimensions of a size. */
  datatype Dim = Width | Height

  /** The component of a (width, height) pair along `d`. */
  function Along(d: Dim, width: real, height: real): real {
    if d == Width then width else height
  }

  function Pref(e: Element, d: Dim): real {
    Along(d, e.prefWidth, e.prefHeight)
  }

  function Max(a: real, b: real): real {
    if a >= b then a else b
  }

  predicate IsStretched(cmap: ConstraintMap, e: Element) {
    e.visible && GetConstraint(cmap, e).stretch
  }

  predicate IsFixed(cmap: ConstraintMap, e: Element) {
    e.visible && !GetConstraint(cmap, e).stretch
  }

  /** The visible elements of `s`, in order. */
  function VisibleOf(s: seq<Element>): (r: seq<Element>)
    ensures |r| <= |s|
  {
    if s == [] then []
    else
      var r := VisibleOf(s[..|s| - 1]);
      if s[|s| - 1].visible then r + [s[|s| - 1]] else r
  }

  /** The visible, stretched elements of `s`, in order. */
  function StretchedOf(s: seq<Element>, cmap: ConstraintMap): (r: seq<Element>)
    ensures |r| <= |s|
  {
    if s == [] then []
    else
      var r := StretchedOf(s[..|s| - 1], cmap);
      if IsStretched(cmap, s[|s| - 1]) then r + [s[|s| - 1]] else r
  }

  /** The visible, non-stretched elements of `s`, in order. */
  function FixedOf(s: seq<Element>, cmap: ConstraintMap): (r: seq<Element>)
    ensures |r| <= |s|
  {
    if s == [] then []
    else
      var r := FixedOf(s[..|s| - 1], cmap);
      if IsFixed(cmap, s[|s| - 1]) then r + [s[|s| - 1]] else r
  }

  /** Sum of the preferred lengths along `d`. */
  function Sum(s: seq<Element>, d: Dim): real {
    if s == [] then 0.0 else Sum(s[..|s| - 1], d) + Pref(s[|s| - 1], d)
  }

  /** Largest preferred length along `d`, starting from 0. */
  function MaxOf(s: seq<Element>, d: Dim): (r: real)
    ensures r >= 0.0
    ensures forall k :: 0 <= k < |s| ==> Pref(s[k], d) <= r
    ensures r == 0.0 || exists k :: 0 <= k < |s| && Pref(s[k], d) == r
  {
    if s == [] then 0.0 else Max(MaxOf(s[..|s| - 1], d), Pref(s[|s| - 1], d))
  }

  /** Sum of the constraint weights. */
  function SumWeights(s: seq<Element>, cmap: ConstraintMap): real {
    if s == [] then 0.0 else SumWeights(s[..|s| - 1], cmap) + GetConstraint(cmap, s[|s| - 1]).weight
  }

  /** The three filters keep exactly the elements of their kind. */
  lemma {:induction false} FilterMembers(s: seq<Element>, cmap: ConstraintMap)
    ensures forall e :: e in VisibleOf(s) <==> e in s && e.visible
    ensures forall e :: e in StretchedOf(s, cmap) <==> e in s && IsStretched(cmap, e)
    ensures forall e :: e in FixedOf(s, cmap) <==> e in s && IsFixed(cmap, e)
  {
    if s != [] {
      var init := s[..|s| - 1];
      FilterMembers(init, cmap);
      assert s == init + [s[|s| - 1]];
    }
  }

  lemma SumSnoc(s: seq<Element>, e: Element, d: Dim)
    ensures Sum(s + [e], d) == Sum(s, d) + Pref(e, d)
  {
    assert (s + [e])[..|s|] == s;
  }

  lemma MaxSnoc(s: seq<Element>, e: Element, d: Dim)
    ensures MaxOf(s + [e], d) == Max(MaxOf(s, d), Pref(e, d))
  {
    assert (s + [e])[..|s|] == s;
  }

  lemma WeightsSnoc(s: seq<Element>, e: Element, cmap: ConstraintMap)
    ensures SumWeights(s + [e], cmap) == SumWeights(s, cmap) + GetConstraint(cmap, e).weight
  {
    assert (s + [e])[..|s|] == s;
  }

  // ---------------------------------------------------------------------
  // Pass one: metrics

  /** The aggregate sizing data of one layout pass (AxisLayout.Metrics). */
  datatype Metrics = Metrics(
    count: nat,
    totalWidth: real, totalHeight: real,
    maxWidth: real, maxHeight: real,
    fixWidth: real, fixHeight: real,
    stretchCount: nat, totalWeight: real)
  {
    function Total(d: Dim): real { Along(d, totalWidth, totalHeight) }
    function Largest(d: Dim): real { Along(d, maxWidth, maxHeight) }
    function Fix(d: Dim): real { Along(d, fixWidth, fixHeight) }
  }

  /** A fresh `Metrics` object: every field zero. */
  const NoMetrics := Metrics(0, 0.0, 0.0, 0.0, 0.0, 0.0, 0.0, 0, 0.0)

  /** The metrics after one more visible element `e` whose constraint is `c`. */
  function Accumulate(m: Metrics, e: Element, c: Constraint): Metrics {
    m.(count := m.count + 1,
       totalWidth := m.totalWidth + e.prefWidth,
       totalHeight := m.totalHeight + e.prefHeight,
       maxWidth := Max(m.maxWidth, e.prefWidth),
       maxHeight := Max(m.maxHeight, e.prefHeight),
       fixWidth := if c.stretch then m.fixWidth else m.fixWidth + e.prefWidth,
       fixHeight := if c.stretch then m.fixHeight else m.fixHeight + e.prefHeight,
       stretchCount := if c.stretch then m.stretchCount + 1 else m.stretchCount,
       totalWeight := if c.stretch then m.totalWeight + c.weight else m.totalWeight)
  }

  /** The metrics `computeMetrics` collects over `elems`, element by element. */
  function MetricsOf(elems: seq<Element>, cmap: ConstraintMap): Metrics {
    if elems == [] then NoMetrics
    else
      var m := MetricsOf(elems[..|elems| - 1], cmap);
      var e := elems[|elems| - 1];
      if e.visible then Accumulate(m, e, GetConstraint(cmap, e)) else m
  }

  /** Count, sums and maxima range over the visible elements only. */
  lemma {:induction false} MetricsOverVisible(elems: seq<Element>, cmap: ConstraintMap)
    ensures var m := MetricsOf(elems, cmap);
      && m.count == |VisibleOf(elems)|
      && m.totalWidth == Sum(VisibleOf(elems), Width)
      && m.totalHeight == Sum(VisibleOf(elems), Height)
      && m.maxWidth == MaxOf(VisibleOf(elems), Width)
      && m.maxHeight == MaxOf(VisibleOf(elems), Height)
  {
    if elems != [] {
      var init, e := elems[..|elems| - 1], elems[|elems| - 1];
      MetricsOverVisible(init, cmap);
      if e.visible {
        assert VisibleOf(elems) == VisibleOf(init) + [e];
        SumSnoc(VisibleOf(init), e, Width);
        SumSnoc(VisibleOf(init), e, Height);
        MaxSnoc(VisibleOf(init), e, Width);
        MaxSnoc(VisibleOf(init), e, Height);
      }
    }
  }

  /** The fixed sums range over the visible, non-stretched elements only. */
  lemma MetricsOverFixed(elems: seq<Element>, cmap: ConstraintMap)
    ensures var m := MetricsOf(elems, cmap);
      && m.fixWidth == Sum(FixedOf(elems, cmap), Width)
      && m.fixHeight == Sum(FixedOf(elems, cmap), Height)
  {
    FixedSumAlong(elems, cmap, Width);
    FixedSumAlong(elems, cmap, Height);
  }

  lemma {:induction false} FixedSumAlong(elems: seq<Element>, cmap: ConstraintMap, d: Dim)
    ensures MetricsOf(elems, cmap).Fix(d) == Sum(FixedOf(elems, cmap), d)
  {
    if elems != [] {
      var init, e := elems[..|elems| - 1], elems[|elems| - 1];
      FixedSumAlong(init, cmap, d);
      if IsFixed(cmap, e) {
        assert FixedOf(elems, cmap) == FixedOf(init, cmap) + [e];
        SumSnoc(FixedOf(init, cmap), e, d);
      } else {
        assert FixedOf(elems, cmap) == FixedOf(init, cmap);
      }
    }
  }

  /** The stretch count and weight range over the visible, stretched elements only. */
  lemma {:induction false} MetricsOverStretched(elems: seq<Element>, cmap: ConstraintMap)
    ensures var m := MetricsOf(elems, cmap);
      && m.stretchCount == |StretchedOf(elems, cmap)|
      && m.totalWeight == SumWeights(StretchedOf(elems, cmap), cmap)
  {
    if elems != [] {
      var init, e := elems[..|elems| - 1], elems[|elems| - 1];
      MetricsOverStretched(init, cmap);
      if IsStretched(cmap, e) {
        assert StretchedOf(elems, cmap) == StretchedOf(init, cmap) + [e];
        WeightsSnoc(StretchedOf(init, cmap), e, cmap);
      }
    }
  }

  /** What each metric means: counts, sums and maxima over the visible
      elements, with the fixed sums over the non-stretched ones and the
      count and weight over the stretched ones. */
  lemma MetricsCharacterized(elems: seq<Element>, cmap: ConstraintMap)
    ensures var m := MetricsOf(elems, cmap);
      && m.count == |VisibleOf(elems)|
      && m.totalWidth == Sum(VisibleOf(elems), Width)
      && m.totalHeight == Sum(VisibleOf(elems), Height)
      && m.maxWidth == MaxOf(VisibleOf(elems), Width)
      && m.maxHeight == MaxOf(VisibleOf(elems), Height)
      && m.fixWidth == Sum(FixedOf(elems, cmap), Width)
      && m.fixHeight == Sum(FixedOf(elems, cmap), Height)
      && m.stretchCount == |StretchedOf(elems, cmap)|
      && m.totalWeight == SumWeights(StretchedOf(elems, cmap), cmap)
  {
    MetricsOverVisible(elems, cmap);
    MetricsOverFixed(elems, cmap);
    MetricsOverStretched(elems, cmap);
  }

  /** Invisible elements contribute nothing: the metrics of `elems` are those
      of its visible elements alone. */
  lemma {:induction false} MetricsSkipInvisible(elems: seq<Element>, cmap: ConstraintMap)
    ensures MetricsOf(VisibleOf(elems), cmap) == MetricsOf(elems, cmap)
  {
    if elems != [] {
      var init, e := elems[..|elems| - 1], elems[|elems| - 1];
      MetricsSkipInvisible(init, cmap);
      if e.visible {
        var v := VisibleOf(init) + [e];
        assert v[..|v| - 1] == VisibleOf(init);
      }
    }
  }

  /** Every visible element is either fixed or stretched: the fixed sums and
      the stretched elements' lengths make up the totals. */
  lemma {:induction false} FixedPlusStretched(elems: seq<Element>, cmap: ConstraintMap, d: Dim)
    ensures var m := MetricsOf(elems, cmap);
      && m.Total(d) == m.Fix(d) + Sum(StretchedOf(elems, cmap), d)
      && m.stretchCount <= m.count
  {
    if elems != [] {
      var init, e := elems[..|elems| - 1], elems[|elems| - 1];
      FixedPlusStretched(init, cmap, d);
      if IsStretched(cmap, e) {
        SumSnoc(StretchedOf(init, cmap), e, d);
      }
    }
  }

  /** If some visible element is stretched, the total stretch weight is
      nonzero, so that its share can be computed. */
  ghost predicate SharesDefined(s: seq<Element>, cmap: ConstraintMap, totalWeight: real) {
    forall k :: 0 <= k < |s| && IsStretched(cmap, s[k]) ==> totalWeight != 0.0
  }

  // ---------------------------------------------------------------------
  // Pass two: sizes and positions

  /** Layout direction: a vertical layout stacks along its height. */
  datatype Orientation = Vertical | Horizontal {
    function On(): Dim { if this == Vertical then Height else Width }
    function Off(): Dim { if this == Vertical then Width else Height }
  }

  /** The configuration of a layout: `_alignOn`, `_alignOff`, `_gap`, `_offPolicy`. */
  datatype Config = Config(orientation: Orientation, alignOn: Align, alignOff: Align, gap: int, offPolicy: Policy)

  /** The size a layout reports: `Dimension`. */
  datatype Dimension = Dimension(width: real, height: real) {
    function Along(d: Dim): real { if d == Width then width else height }
  }

  /** The bounds an element is given by `resize` and `setLocation`. */
  datatype Rect = Rect(x: real, y: real, w: real, h: real) {
    function Pos(d: Dim): real { Along(d, x, y) }
    function Len(d: Dim): real { Along(d, w, h) }
  }

  /** The bounds with the given on-axis and off-axis position and length. */
  function Arrange(o: Orientation, onPos: real, onLen: real, offPos: real, offLen: real): (r: Rect)
    ensures r.Pos(o.On()) == onPos && r.Len(o.On()) == onLen
    ensures r.Pos(o.Off()) == offPos && r.Len(o.Off()) == offLen
  {
    if o == Vertical then Rect(offPos, onPos, offLen, onLen) else Rect(onPos, offPos, onLen, offLen)
  }

  /** The total gap between `count` elements: `_gap * (count - 1)`, which is
      `-gap` when there are none. */
  function GapSpan(gap: int, count: nat): real {
    (gap * (count - 1)) as real
  }

  /** The on-axis space left for the stretched elements. */
  function StretchExtent(cfg: Config, m: Metrics, extentOn: real): (r: real)
    ensures r >= 0.0
    ensures r >= extentOn - GapSpan(cfg.gap, m.count) - m.Fix(cfg.orientation.On())
    ensures r == 0.0 || r == extentOn - GapSpan(cfg.gap, m.count) - m.Fix(cfg.orientation.On())
  {
    Max(0.0, extentOn - GapSpan(cfg.gap, m.count) - m.Fix(cfg.orientation.On()))
  }

  /** The initial on-axis cursor. */
  function StartCursor(cfg: Config, m: Metrics, extentOn: real): real {
    if m.stretchCount > 0 then 0.0 else cfg.alignOn.ComputeOffset(m.Total(cfg.orientation.On()), extentOn)
  }

  /** The on-axis length of element `e`. */
  function OnLength(cfg: Config, m: Metrics, stretchExtent: real, cmap: ConstraintMap, e: Element): real
    requires GetConstraint(cmap, e).stretch ==> m.totalWeight != 0.0
  {
    GetConstraint(cmap, e).ComputeSize(Pref(e, cfg.orientation.On()), m.totalWeight, stretchExtent)
  }

  /** How far the on-axis cursor moves over the elements of `s`: each
      visible one advances it by its on-axis length plus the gap. */
  function Advance(cfg: Config, m: Metrics, stretchExtent: real, cmap: ConstraintMap, s: seq<Element>): real
    requires SharesDefined(s, cmap, m.totalWeight)
  {
    if s == [] then 0.0
    else
      var e := s[|s| - 1];
      Advance(cfg, m, stretchExtent, cmap, s[..|s| - 1])
        + (if e.visible then OnLength(cfg, m, stretchExtent, cmap, e) + cfg.gap as real else 0.0)
  }

  /** Total on-axis length handed to the stretched elements of `s`. */
  function StretchShare(cfg: Config, m: Metrics, stretchExtent: real, cmap: ConstraintMap, s: seq<Element>): real
    requires SharesDefined(s, cmap, m.totalWeight)
  {
    if s == [] then 0.0
    else
      var e := s[|s| - 1];
      StretchShare(cfg, m, stretchExtent, cmap, s[..|s| - 1])
        + (if IsStretched(cmap, e) then OnLength(cfg, m, stretchExtent, cmap, e) else 0.0)
  }

  /** Where `layout(elems, constraints, width, height)` puts element `i`:
      nothing for an invisible element, otherwise its bounds. */
  function Placement(cfg: Config, elems: seq<Element>, cmap: ConstraintMap, width: real, height: real, i: nat): Option<Rect>
    requires i < |elems|
    requires SharesDefined(elems, cmap, MetricsOf(elems, cmap).totalWeight)
  {
    var e := elems[i];
    if !e.visible then None
    else
      var m := MetricsOf(elems, cmap);
      var on, off := cfg.orientation.On(), cfg.orientation.Off();
      var ext := StretchExtent(cfg, m, Along(on, width, height));
      var cursor := StartCursor(cfg, m, Along(on, width, height)) + Advance(cfg, m, ext, cmap, elems[..i]);
      var offLen := cfg.offPolicy.ComputeSize(Pref(e, off), m.Largest(off), Along(off, width, height));
      Some(Arrange(cfg.orientation, cursor, OnLength(cfg, m, ext, cmap, e),
                   cfg.alignOff.ComputeOffset(offLen, Along(off, width, height)), offLen))
  }

  /** The on-axis cursor after the layout loop. */
  function FinalCursor(cfg: Config, elems: seq<Element>, cmap: ConstraintMap, width: real, height: real): real
    requires SharesDefined(elems, cmap, MetricsOf(elems, cmap).totalWeight)
  {
    var m := MetricsOf(elems, cmap);
    var extOn := Along(cfg.orientation.On(), width, height);
    StartCursor(cfg, m, extOn) + Advance(cfg, m, StretchExtent(cfg, m, extOn), cmap, elems)
  }

  // ---------------------------------------------------------------------
  // Lemmas about the on-axis cursor

  lemma SharesDefinedPrefix(s: seq<Element>, cmap: ConstraintMap, totalWeight: real, n: nat)
    requires n <= |s| && SharesDefined(s, cmap, totalWeight)
    ensures SharesDefined(s[..n], cmap, totalWeight)
  {
    forall k | 0 <= k < n && IsStretched(cmap, s[..n][k]) ensures totalWeight != 0.0 {
      assert s[..n][k] == s[k];
    }
  }

  /** The cursor over `s` is the fixed lengths, plus the stretched shares,
      plus one gap per visible element. */
  lemma {:induction false} AdvanceDecomposed(cfg: Config, m: Metrics, se: real, cmap: ConstraintMap, s: seq<Element>)
    requires SharesDefined(s, cmap, m.totalWeight)
    ensures Advance(cfg, m, se, cmap, s)
      == Sum(FixedOf(s, cmap), cfg.orientation.On()) + StretchShare(cfg, m, se, cmap, s)
         + (cfg.gap * |VisibleOf(s)|) as real
  {
    if s != [] {
      var init, e := s[..|s| - 1], s[|s| - 1];
      SharesDefinedPrefix(s, cmap, m.totalWeight, |s| - 1);
      AdvanceDecomposed(cfg, m, se, cmap, init);
      if e.visible {
        assert VisibleOf(s) == VisibleOf(init) + [e];
        assert (cfg.gap * (|VisibleOf(init)| + 1)) as real == (cfg.gap * |VisibleOf(init)|) as real + cfg.gap as real;
        if IsFixed(cmap, e) {
          assert FixedOf(s, cmap) == FixedOf(init, cmap) + [e];
          SumSnoc(FixedOf(init, cmap), e, cfg.orientation.On());
        }
      }
    }
  }

  /** The stretched shares are proportional to the stretched weights:
      together they are the portion of `se` that their weights receive. */
  lemma {:induction false} StretchShareProportional(cfg: Config, m: Metrics, se: real, cmap: ConstraintMap, s: seq<Element>)
    requires m.totalWeight != 0.0
    ensures StretchShare(cfg, m, se, cmap, s) == Portion(se, SumWeights(StretchedOf(s, cmap), cmap), m.totalWeight)
  {
    if s == [] {
      PortionBounds(se, m.totalWeight);
    } else {
      var init, e := s[..|s| - 1], s[|s| - 1];
      StretchShareProportional(cfg, m, se, cmap, init);
      if IsStretched(cmap, e) {
        assert StretchedOf(s, cmap) == StretchedOf(init, cmap) + [e];
        WeightsSnoc(StretchedOf(init, cmap), e, cmap);
        PortionAdd(se, SumWeights(StretchedOf(init, cmap), cmap), GetConstraint(cmap, e).weight, m.totalWeight);
      } else {
        assert StretchedOf(s, cmap) == StretchedOf(init, cmap);
      }
    }
  }

  /** Without stretched elements there is no stretched share, and the fixed
      elements are all the visible ones. */
  lemma {:induction false} NoStretched(cfg: Config, m: Metrics, se: real, cmap: ConstraintMap, s: seq<Element>)
    requires StretchedOf(s, cmap) == []
    ensures SharesDefined(s, cmap, m.totalWeight)
    ensures StretchShare(cfg, m, se, cmap, s) == 0.0
    ensures FixedOf(s, cmap) == VisibleOf(s)
  {
    if s != [] {
      var init, e := s[..|s| - 1], s[|s| - 1];
      FilterMembers(s, cmap);
      assert e in s;
      NoStretched(cfg, m, se, cmap, init);
    }
  }

  lemma {:induction false} NoStretchedPrefix(s: seq<Element>, cmap: ConstraintMap, n: nat)
    requires n <= |s| && StretchedOf(s, cmap) == []
    ensures StretchedOf(s[..n], cmap) == []
  {
    if n > 0 {
      NoStretchedPrefix(s, cmap, n - 1);
      FilterMembers(s, cmap);
      assert s[..n][..n - 1] == s[..n - 1];
      assert s[n - 1] in s;
    }
  }

  /** One more element moves the cursor by its on-axis length and a gap if it
      is visible, and not at all otherwise. */
  lemma AdvanceStep(cfg: Config, m: Metrics, se: real, cmap: ConstraintMap, s: seq<Element>, i: nat)
    requires i < |s| && SharesDefined(s, cmap, m.totalWeight)
    ensures SharesDefined(s[..i], cmap, m.totalWeight) && SharesDefined(s[..i + 1], cmap, m.totalWeight)
    ensures IsStretched(cmap, s[i]) ==> m.totalWeight != 0.0
    ensures Advance(cfg, m, se, cmap, s[..i + 1])
      == Advance(cfg, m, se, cmap, s[..i]) + (if s[i].visible then OnLength(cfg, m, se, cmap, s[i]) + cfg.gap as real else 0.0)
  {
    SharesDefinedPrefix(s, cmap, m.totalWeight, i);
    SharesDefinedPrefix(s, cmap, m.totalWeight, i + 1);
    assert s[..i + 1][..i] == s[..i];
  }

  /** Invisible elements do not move the cursor. */
  lemma {:induction false} AdvanceSkipsInvisible(cfg: Config, m: Metrics, se: real, cmap: ConstraintMap, s: seq<Element>, i: nat, j: nat)
    requires i <= j <= |s| && SharesDefined(s, cmap, m.totalWeight)
    requires forall k :: i <= k < j ==> !s[k].visible
    ensures SharesDefined(s[..i], cmap, m.totalWeight) && SharesDefined(s[..j], cmap, m.totalWeight)
    ensures Advance(cfg, m, se, cmap, s[..j]) == Advance(cfg, m, se, cmap, s[..i])
  {
    SharesDefinedPrefix(s, cmap, m.totalWeight, i);
    SharesDefinedPrefix(s, cmap, m.totalWeight, j);
    if i < j {
      AdvanceSkipsInvisible(cfg, m, se, cmap, s, i, j - 1);
      assert s[..j][..j - 1] == s[..j - 1];
    }
  }

  // ---------------------------------------------------------------------
  // Lemmas about the placements

  /** The placements of the first `n` elements, in order. */
  function Placements(cfg: Config, elems: seq<Element>, cmap: ConstraintMap, width: real, height: real, n: nat): (r: seq<Option<Rect>>)
    requires n <= |elems|
    requires SharesDefined(elems, cmap, MetricsOf(elems, cmap).totalWeight)
    ensures |r| == n
  {
    if n == 0 then [] else Placements(cfg, elems, cmap, width, height, n - 1) + [Placement(cfg, elems, cmap, width, height, n - 1)]
  }

  lemma {:induction false} PlacementsIndexed(cfg: Config, elems: seq<Element>, cmap: ConstraintMap, width: real, height: real, n: nat)
    requires n <= |elems|
    requires SharesDefined(elems, cmap, MetricsOf(elems, cmap).totalWeight)
    ensures var r := Placements(cfg, elems, cmap, width, height, n);
      forall j :: 0 <= j < n ==> r[j] == Placement(cfg, elems, cmap, width, height, j) && (r[j].None? <==> !elems[j].visible)
  {
    if n > 0 {
      PlacementsIndexed(cfg, elems, cmap, width, height, n - 1);
    }
  }

  /** Where a visible element goes, in terms of the cursor before it. */
  lemma PlacementAt(cfg: Config, elems: seq<Element>, cmap: ConstraintMap, width: real, height: real, i: nat)
    requires i < |elems| && elems[i].visible
    requires SharesDefined(elems, cmap, MetricsOf(elems, cmap).totalWeight)
    ensures SharesDefined(elems[..i], cmap, MetricsOf(elems, cmap).totalWeight)
    ensures IsStretched(cmap, elems[i]) ==> MetricsOf(elems, cmap).totalWeight != 0.0
    ensures var m := MetricsOf(elems, cmap);
      var on, off := cfg.orientation.On(), cfg.orientation.Off();
      var se := StretchExtent(cfg, m, Along(on, width, height));
      var offLen := cfg.offPolicy.ComputeSize(Pref(elems[i], off), m.Largest(off), Along(off, width, height));
      Placement(cfg, elems, cmap, width, height, i)
        == Some(Arrange(cfg.orientation,
                        StartCursor(cfg, m, Along(on, width, height)) + Advance(cfg, m, se, cmap, elems[..i]),
                        GetConstraint(cmap, elems[i]).ComputeSize(Pref(elems[i], on), m.totalWeight, se),
                        cfg.alignOff.ComputeOffset(offLen, Along(off, width, height)), offLen))
  {
    SharesDefinedPrefix(elems, cmap, MetricsOf(elems, cmap).totalWeight, i);
  }

  /** A visible element's on-axis length is its preferred length or, if it
      is stretched, its weight's share of the stretch extent. Invisible
      elements are not placed. */
  lemma PlacementOnAxis(cfg: Config, elems: seq<Element>, cmap: ConstraintMap, width: real, height: real, i: nat)
    requires i < |elems|
    requires SharesDefined(elems, cmap, MetricsOf(elems, cmap).totalWeight)
    ensures Placement(cfg, elems, cmap, width, height, i).Some? <==> elems[i].visible
    ensures elems[i].visible ==>
      var r := Placement(cfg, elems, cmap, width, height, i).value;
      var m := MetricsOf(elems, cmap);
      var on := cfg.orientation.On();
      var c := GetConstraint(cmap, elems[i]);
      && (!c.stretch ==> r.Len(on) == Pref(elems[i], on))
      && (c.stretch ==> r.Len(on) == Portion(StretchExtent(cfg, m, Along(on, width, height)), c.weight, m.totalWeight))
  {
  }

  /** A visible element's off-axis length follows the policy, EQUALIZE
      giving the largest visible preferred length, and its off-axis position
      follows the off-axis alignment. */
  lemma PlacementOffAxis(cfg: Config, elems: seq<Element>, cmap: ConstraintMap, width: real, height: real, i: nat)
    requires i < |elems| && elems[i].visible
    requires SharesDefined(elems, cmap, MetricsOf(elems, cmap).totalWeight)
    ensures var r := Placement(cfg, elems, cmap, width, height, i).value;
      var off := cfg.orientation.Off();
      && (cfg.offPolicy == Default ==> r.Len(off) == Pref(elems[i], off))
      && (cfg.offPolicy == Stretch ==> r.Len(off) == Along(off, width, height))
      && (cfg.offPolicy == Equalize ==> r.Len(off) == MaxOf(VisibleOf(elems), off))
      && r.Pos(off) == cfg.alignOff.ComputeOffset(r.Len(off), Along(off, width, height))
  {
    MetricsOverVisible(elems, cmap);
  }

  /** The first visible element starts at 0 when some element is stretched,
      and otherwise where the on-axis alignment puts the whole group. */
  lemma FirstPlacement(cfg: Config, elems: seq<Element>, cmap: ConstraintMap, width: real, height: real, i: nat)
    requires i < |elems|
    requires SharesDefined(elems, cmap, MetricsOf(elems, cmap).totalWeight)
    requires elems[i].visible && forall k :: 0 <= k < i ==> !elems[k].visible
    ensures var m := MetricsOf(elems, cmap);
      var on := cfg.orientation.On();
      Placement(cfg, elems, cmap, width, height, i).value.Pos(on)
        == if m.stretchCount > 0 then 0.0
           else cfg.alignOn.ComputeOffset(Sum(VisibleOf(elems), on), Along(on, width, height))
  {
    var m := MetricsOf(elems, cmap);
    AdvanceSkipsInvisible(cfg, m, StretchExtent(cfg, m, Along(cfg.orientation.On(), width, height)), cmap, elems, 0, i);
    MetricsOverVisible(elems, cmap);
  }

  /** Each later visible element starts one gap after the end of the
      previous visible one. */
  lemma NextPlacement(cfg: Config, elems: seq<Element>, cmap: ConstraintMap, width: real, height: real, i: nat, j: nat)
    requires i < j < |elems|
    requires SharesDefined(elems, cmap, MetricsOf(elems, cmap).totalWeight)
    requires elems[i].visible && elems[j].visible
    requires forall k :: i < k < j ==> !elems[k].visible
    ensures var on := cfg.orientation.On();
      var a, b := Placement(cfg, elems, cmap, width, height, i).value, Placement(cfg, elems, cmap, width, height, j).value;
      b.Pos(on) == a.Pos(on) + a.Len(on) + cfg.gap as real
  {
    var m := MetricsOf(elems, cmap);
    var se := StretchExtent(cfg, m, Along(cfg.orientation.On(), width, height));
    AdvanceSkipsInvisible(cfg, m, se, cmap, elems, i + 1, j);
    SharesDefinedPrefix(elems, cmap, m.totalWeight, i + 1);
    assert elems[..i + 1][..i] == elems[..i];
  }

  /** With no stretched element every visible element gets its preferred
      on-axis length and the positions are prefix sums: the aligned start,
      plus the preferred lengths and one gap for each visible element before it. */
  lemma UnstretchedPlacement(cfg: Config, elems: seq<Element>, cmap: ConstraintMap, width: real, height: real, i: nat)
    requires i < |elems| && elems[i].visible
    requires MetricsOf(elems, cmap).stretchCount == 0
    ensures SharesDefined(elems, cmap, MetricsOf(elems, cmap).totalWeight)
    ensures var on := cfg.orientation.On();
      var r := Placement(cfg, elems, cmap, width, height, i).value;
      var before := VisibleOf(elems[..i]);
      && r.Len(on) == Pref(elems[i], on)
      && r.Pos(on) == cfg.alignOn.ComputeOffset(Sum(VisibleOf(elems), on), Along(on, width, height))
                      + Sum(before, on) + (cfg.gap * |before|) as real
  {
    var m := MetricsOf(elems, cmap);
    var se := StretchExtent(cfg, m, Along(cfg.orientation.On(), width, height));
    MetricsOverStretched(elems, cmap);
    MetricsOverVisible(elems, cmap);
    NoStretched(cfg, m, se, cmap, elems);
    NoStretchedPrefix(elems, cmap, i);
    NoStretched(cfg, m, se, cmap, elems[..i]);
    AdvanceDecomposed(cfg, m, se, cmap, elems[..i]);
    FilterMembers(elems, cmap);
    assert elems[i] in elems;
  }

  /** With some element stretched, the stretched elements' on-axis lengths
      add up to exactly the stretch extent. */
  lemma StretchedSharesFill(cfg: Config, elems: seq<Element>, cmap: ConstraintMap, width: real, height: real)
    requires SharesDefined(elems, cmap, MetricsOf(elems, cmap).totalWeight)
    requires MetricsOf(elems, cmap).stretchCount > 0
    ensures var m := MetricsOf(elems, cmap);
      var se := StretchExtent(cfg, m, Along(cfg.orientation.On(), width, height));
      StretchShare(cfg, m, se, cmap, elems) == se
  {
    var m := MetricsOf(elems, cmap);
    var se := StretchExtent(cfg, m, Along(cfg.orientation.On(), width, height));
    MetricsOverStretched(elems, cmap);
    FilterMembers(elems, cmap);
    var st := StretchedOf(elems, cmap);
    assert st[0] in elems;
    var k :| 0 <= k < |elems| && elems[k] == st[0];
    assert IsStretched(cmap, elems[k]);
    StretchShareProportional(cfg, m, se, cmap, elems);
    PortionBounds(se, m.totalWeight);
  }

  /** With no stretched element the group ends where the aligned start plus
      the preferred on-axis size (as `computeSize` reports it) puts it; the
      cursor is one gap further. */
  lemma UnstretchedGroupEnd(cfg: Config, elems: seq<Element>, cmap: ConstraintMap, width: real, height: real)
    requires MetricsOf(elems, cmap).stretchCount == 0
    ensures SharesDefined(elems, cmap, MetricsOf(elems, cmap).totalWeight)
    ensures var on := cfg.orientation.On();
      var span := Sum(VisibleOf(elems), on) + GapSpan(cfg.gap, |VisibleOf(elems)|);
      FinalCursor(cfg, elems, cmap, width, height)
        == cfg.alignOn.ComputeOffset(Sum(VisibleOf(elems), on), Along(on, width, height)) + span + cfg.gap as real
  {
    var m := MetricsOf(elems, cmap);
    var se := StretchExtent(cfg, m, Along(cfg.orientation.On(), width, height));
    MetricsOverStretched(elems, cmap);
    MetricsOverVisible(elems, cmap);
    NoStretched(cfg, m, se, cmap, elems);
    AdvanceDecomposed(cfg, m, se, cmap, elems);
    var n := |VisibleOf(elems)|;
    assert (cfg.gap * n) as real == GapSpan(cfg.gap, n) + cfg.gap as real;
  }

  /** With some element stretched and room for every fixed element and gap,
      the group fills the on-axis extent exactly; the cursor is one gap further. */
  lemma StretchedGroupEnd(cfg: Config, elems: seq<Element>, cmap: ConstraintMap, width: real, height: real)
    requires SharesDefined(elems, cmap, MetricsOf(elems, cmap).totalWeight)
    requires var m := MetricsOf(elems, cmap);
      m.stretchCount > 0
      && Along(cfg.orientation.On(), width, height) >= GapSpan(cfg.gap, m.count) + m.Fix(cfg.orientation.On())
    ensures FinalCursor(cfg, elems, cmap, width, height) == Along(cfg.orientation.On(), width, height) + cfg.gap as real
  {
    var m := MetricsOf(elems, cmap);
    var se := StretchExtent(cfg, m, Along(cfg.orientation.On(), width, height));
    StretchedSharesFill(cfg, elems, cmap, width, height);
    AdvanceDecomposed(cfg, m, se, cmap, elems);
    MetricsOverVisible(elems, cmap);
    MetricsOverFixed(elems, cmap);
    var n := |VisibleOf(elems)|;
    assert (cfg.gap * n) as real == GapSpan(cfg.gap, n) + cfg.gap as real;
  }

  // ---------------------------------------------------------------------
  // The size a layout reports

  /** What `computeSize` reports: on the axis, the preferred lengths of the
      visible elements plus a gap between each two; off the axis, the largest
      visible preferred length. */
  function PreferredSize(cfg: Config, elems: seq<Element>, cmap: ConstraintMap): (d: Dimension)
    ensures var vis := VisibleOf(elems);
      && d.Along(cfg.orientation.On()) == Sum(vis, cfg.orientation.On()) + GapSpan(cfg.gap, |vis|)
      && d.Along(cfg.orientation.Off()) == MaxOf(vis, cfg.orientation.Off())
  {
    MetricsOverVisible(elems, cmap);
    var m := MetricsOf(elems, cmap);
    if cfg.orientation == Vertical then Dimension(m.maxWidth, m.totalHeight + GapSpan(cfg.gap, m.count))
    else Dimension(m.totalWidth + GapSpan(cfg.gap, m.count), m.maxHeight)
  }

  /** Invisible elements change neither the reported size nor any metric. */
  lemma InvisibleIgnored(cfg: Config, elems: seq<Element>, cmap: ConstraintMap, e: Element)
    requires !e.visible
    ensures MetricsOf(elems + [e], cmap) == MetricsOf(elems, cmap)
    ensures PreferredSize(cfg, elems + [e], cmap) == PreferredSize(cfg, elems, cmap)
  {
    assert (elems + [e])[..|elems|] == elems;
  }

  /** With no visible element the on-axis size is `-gap`: the source does not
      clamp `gap * (count - 1)`. */
  lemma EmptyGroupSize(cfg: Config, elems: seq<Element>, cmap: ConstraintMap)
    requires forall k :: 0 <= k < |elems| ==> !elems[k].visible
    ensures PreferredSize(cfg, elems, cmap).Along(cfg.orientation.On()) == -(cfg.gap as real)
    ensures PreferredSize(cfg, elems, cmap).Along(cfg.orientation.Off()) == 0.0
  {
    NoneVisible(elems);
  }

  lemma {:induction false} NoneVisible(s: seq<Element>)
    requires forall k :: 0 <= k < |s| ==> !s[k].visible
    ensures VisibleOf(s) == []
  {
    if s != [] {
      NoneVisible(s[..|s| - 1]);
    }
  }

  // ---------------------------------------------------------------------
  // The layout object

  /** An axis layout (`AxisLayout.Vertical` or `AxisLayout.Horizontal`) with
      its fluent configuration. */
  class AxisLayout {
    const orientation: Orientation
    var alignOn: Align
    var alignOff: Align
    var gap: int
    var offPolicy: Policy

    /** The current configuration as a value. */
    function Settings(): Config
      reads this
    {
      Config(orientation, alignOn, alignOff, gap, offPolicy)
    }

    /** `AxisLayout.vertical()`. */
    constructor Vertical()
      ensures orientation == Orientation.Vertical
      ensures alignOn == Center && alignOff == Center && gap == 5 && offPolicy == Default
    {
      orientation := Orientation.Vertical;
      alignOn, alignOff := Center, Center;
      gap := 5;
      offPolicy := Default;
    }

    /** `AxisLayout.horizontal()`. */
    constructor Horizontal()
      ensures orientation == Orientation.Horizontal
      ensures alignOn == Center && alignOff == Center && gap == 5 && offPolicy == Default
    {
      orientation := Orientation.Horizontal;
      alignOn, alignOff := Center, Center;
      gap := 5;
      offPolicy := Default;
    }

    method AlignOn(align: Align)
      modifies this
      ensures alignOn == align
      ensures alignOff == old(alignOff) && gap == old(gap) && offPolicy == old(offPolicy)
    {
      alignOn := align;
    }

    method AlignOff(align: Align)
      modifies this
      ensures alignOff == align
      ensures alignOn == old(alignOn) && gap == old(gap) && offPolicy == old(offPolicy)
    {
      alignOff := align;
    }

    method OffPolicy(policy: Policy)
      modifies this
      ensures offPolicy == policy
      ensures alignOn == old(alignOn) && alignOff == old(alignOff) && gap == old(gap)
    {
      offPolicy := policy;
    }

    method OffStretch()
      modifies this
      ensures offPolicy == Stretch
      ensures alignOn == old(alignOn) && alignOff == old(alignOff) && gap == old(gap)
    {
      OffPolicy(Stretch);
    }

    method OffEqualize()
      modifies this
      ensures offPolicy == Equalize
      ensures alignOn == old(alignOn) && alignOff == old(alignOff) && gap == old(gap)
    {
      OffPolicy(Equalize);
    }

    method Gap(gap: int)
      modifies this
      ensures this.gap == gap
      ensures alignOn == old(alignOn) && alignOff == old(alignOff) && offPolicy == old(offPolicy)
    {
      this.gap := gap;
    }

    /** Top: the start of the height, on the axis of a vertical layout and
        off the axis of a horizontal one. */
    method AlignTop()
      modifies this
      ensures orientation == Orientation.Vertical ==> alignOn == Start && alignOff == old(alignOff)
      ensures orientation == Orientation.Horizontal ==> alignOff == Start && alignOn == old(alignOn)
      ensures gap == old(gap) && offPolicy == old(offPolicy)
    {
      if orientation == Orientation.Vertical { AlignOn(Start); } else { AlignOff(Start); }
    }

    /** Bottom: the end of the height. */
    method AlignBottom()
      modifies this
      ensures orientation == Orientation.Vertical ==> alignOn == End && alignOff == old(alignOff)
      ensures orientation == Orientation.Horizontal ==> alignOff == End && alignOn == old(alignOn)
      ensures gap == old(gap) && offPolicy == old(offPolicy)
    {
      if orientation == Orientation.Vertical { AlignOn(End); } else { AlignOff(End); }
    }

    /** Left: the start of the width, off the axis of a vertical layout and
        on the axis of a horizontal one. */
    method AlignLeft()
      modifies this
      ensures orientation == Orientation.Vertical ==> alignOff == Start && alignOn == old(alignOn)
      ensures orientation == Orientation.Horizontal ==> alignOn == Start && alignOff == old(alignOff)
      ensures gap == old(gap) && offPolicy == old(offPolicy)
    {
      if orientation == Orientation.Vertical { AlignOff(Start); } else { AlignOn(Start); }
    }

    /** Right: the end of the width. */
    method AlignRight()
      modifies this
      ensures orientation == Orientation.Vertical ==> alignOff == End && alignOn == old(alignOn)
      ensures orientation == Orientation.Horizontal ==> alignOn == End && alignOff == old(alignOff)
      ensures gap == old(gap) && offPolicy == old(offPolicy)
    {
      if orientation == Orientation.Vertical { AlignOff(End); } else { AlignOn(End); }
    }

    /** Pass one: one walk over the elements, skipping the invisible ones. */
    method ComputeMetrics(elems: seq<Element>, cmap: ConstraintMap) returns (m: Metrics)
      ensures m == MetricsOf(elems, cmap)
    {
      m := NoMetrics;
      for i := 0 to |elems|
        invariant m == MetricsOf(elems[..i], cmap)
      {
        assert elems[..i + 1][..i] == elems[..i];
        var e := elems[i];
        if e.visible {
          m := m.(count := m.count + 1);
          m := m.(totalWidth := m.totalWidth + e.prefWidth, totalHeight := m.totalHeight + e.prefHeight);
          m := m.(maxWidth := Max(m.maxWidth, e.prefWidth), maxHeight := Max(m.maxHeight, e.prefHeight));
          var c := GetConstraint(cmap, e);
          if c.stretch {
            m := m.(stretchCount := m.stretchCount + 1, totalWeight := m.totalWeight + c.weight);
          } else {
            m := m.(fixWidth := m.fixWidth + e.prefWidth, fixHeight := m.fixHeight + e.prefHeight);
          }
        }
      }
      assert elems[..|elems|] == elems;
    }

    /** `computeSize`: the preferred size of the group. */
    method ComputeSize(elems: seq<Element>, cmap: ConstraintMap) returns (d: Dimension)
      ensures d == PreferredSize(Settings(), elems, cmap)
    {
      var m := ComputeMetrics(elems, cmap);
      if orientation == Orientation.Vertical {
        d := Dimension(m.maxWidth, m.totalHeight + GapSpan(gap, m.count));
      } else {
        d := Dimension(m.totalWidth + GapSpan(gap, m.count), m.maxHeight);
      }
    }

    /** `layout`: pass two, giving each element the bounds `Placement`
        describes (`None` for an invisible element, which is left alone). */
    method Layout(elems: seq<Element>, cmap: ConstraintMap, width: real, height: real)
      returns (placed: seq<Option<Rect>>)
      requires SharesDefined(elems, cmap, MetricsOf(elems, cmap).totalWeight)
      ensures |placed| == |elems|
      ensures forall i :: 0 <= i < |elems| ==> placed[i] == Placement(Settings(), elems, cmap, width, height, i)
      ensures forall i :: 0 <= i < |elems| ==> (placed[i].None? <==> !elems[i].visible)
    {
      var m := ComputeMetrics(elems, cmap);
      var on, off := orientation.On(), orientation.Off();
      var extOn, extOff := Along(on, width, height), Along(off, width, height);
      var stretchExtent := Max(0.0, extOn - GapSpan(gap, m.count) - m.Fix(on));
      var cursor := if m.stretchCount > 0 then 0.0 else alignOn.ComputeOffset(m.Total(on), extOn);
      ghost var cfg := Settings();
      assert stretchExtent == StretchExtent(cfg, m, extOn);
      placed := [];
      for i := 0 to |elems|
        invariant |placed| == i
        invariant placed == Placements(cfg, elems, cmap, width, height, i)
        invariant SharesDefined(elems[..i], cmap, m.totalWeight)
        invariant cursor == StartCursor(cfg, m, extOn) + Advance(cfg, m, stretchExtent, cmap, elems[..i])
      {
        AdvanceStep(cfg, m, stretchExtent, cmap, elems, i);
        var e := elems[i];
        if !e.visible {
          placed := placed + [None];
        } else {
          var c := GetConstraint(cmap, e);
          var offLen := offPolicy.ComputeSize(Pref(e, off), m.Largest(off), extOff);
          var onLen := c.ComputeSize(Pref(e, on), m.totalWeight, stretchExtent);
          var r := Arrange(orientation, cursor, onLen, alignOff.ComputeOffset(offLen, extOff), offLen);
          PlacementAt(cfg, elems, cmap, width, height, i);
          placed := placed + [Some(r)];
          cursor := cursor + (onLen + gap as real);
        }
      }
      PlacementsIndexed(cfg, elems, cmap, width, height, |elems|);
    }
  }

  // ---------------------------------------------------------------------
  // Worked examples

  /** Three visible elements with preferred widths 10, 15 and 5, all 20 high. */
  const ExampleRow := [Element(0, true, 10.0, 20.0), Element(1, true, 15.0, 20.0), Element(2, true, 5.0, 20.0)]

  /** The default horizontal configuration. */
  const HorizontalDefaults := Config(Orientation.Horizontal, Center, Center, 5, Default)

  lemma ExampleRowMetrics()
    ensures MetricsOf(ExampleRow, None) == Metrics(3, 30.0, 60.0, 15.0, 20.0, 30.0, 60.0, 0, 0.0)
    ensures MetricsOf(ExampleRow[..1], None) == Metrics(1, 10.0, 20.0, 10.0, 20.0, 10.0, 20.0, 0, 0.0)
    ensures MetricsOf(ExampleRow[..2], None) == Metrics(2, 25.0, 40.0, 15.0, 20.0, 25.0, 40.0, 0, 0.0)
  {
    var elems := ExampleRow;
    assert elems[..1][..0] == [] && elems[..2][..1] == elems[..1] && elems[..3] == elems;
    assert MetricsOf(elems[..1], None) == Metrics(1, 10.0, 20.0, 10.0, 20.0, 10.0, 20.0, 0, 0.0);
    assert MetricsOf(elems[..2], None) == Metrics(2, 25.0, 40.0, 15.0, 20.0, 25.0, 40.0, 0, 0.0);
  }

  /** The row in a 100 x 20 container: the group start centres the preferred
      widths alone (30 of 100, so 35), and the two gaps come after it. */
  lemma ExampleRowPlacements()
    ensures SharesDefined(ExampleRow, None, MetricsOf(ExampleRow, None).totalWeight)
    ensures PreferredSize(HorizontalDefaults, ExampleRow, None) == Dimension(40.0, 20.0)
    ensures Placement(HorizontalDefaults, ExampleRow, None, 100.0, 20.0, 0) == Some(Rect(35.0, 0.0, 10.0, 20.0))
    ensures Placement(HorizontalDefaults, ExampleRow, None, 100.0, 20.0, 1) == Some(Rect(50.0, 0.0, 15.0, 20.0))
    ensures Placement(HorizontalDefaults, ExampleRow, None, 100.0, 20.0, 2) == Some(Rect(70.0, 0.0, 5.0, 20.0))
  {
    ExampleRowMetrics();
    var elems, m := ExampleRow, MetricsOf(ExampleRow, None);
    assert elems[..0] == [] && elems[..1][..0] == [] && elems[..2][..1] == elems[..1];
    assert Advance(HorizontalDefaults, m, 0.0, None, elems[..1]) == 15.0;
    assert Advance(HorizontalDefaults, m, 0.0, None, elems[..2]) == 35.0;
  }

  /** `horizontal()` then `computeSize` and `layout` on the example row. */
  method HorizontalExample() returns (size: Dimension, placed: seq<Option<Rect>>)
    ensures size == Dimension(40.0, 20.0)
    ensures placed == [Some(Rect(35.0, 0.0, 10.0, 20.0)), Some(Rect(50.0, 0.0, 15.0, 20.0)), Some(Rect(70.0, 0.0, 5.0, 20.0))]
  {
    var l := new AxisLayout.Horizontal();
    ExampleRowPlacements();
    size := l.ComputeSize(ExampleRow, None);
    placed := l.Layout(ExampleRow, None, 100.0, 20.0);
  }

  /** A single stretched element of weight 1 takes the whole on-axis extent,
      whatever its preferred length. */
  method StretchedExample() returns (placed: seq<Option<Rect>>)
    ensures |placed| == 1 && placed[0].Some? && placed[0].value.h == 50.0
  {
    var l := new AxisLayout.Vertical();
    var elems := [Element(0, true, 7.0, 3.0)];
    assert elems[..0] == [];
    assert MetricsOf(elems, Some(map[0 := UniformStretched])) == Metrics(1, 7.0, 3.0, 7.0, 3.0, 0.0, 0.0, 1, 1.0);
    placed := l.Layout(elems, Some(map[0 := UniformStretched]), 30.0, 50.0);
  }
}
