/** LightingEngine: fixture counts, the DMX patch, fixture positions and the
    power estimate for a stage. */
module Lighting {
  import opened Numerics
  import opened EventModel

  datatype FixtureKind = Beam | Wash | Spot

  datatype Color = Blue | Green | Orange

  /** A fixture's label: its kind's letter and its 1-based number within the
      kind (B1, W3, S2, ...). */
  datatype FixtureId = FixtureId(kind: FixtureKind, number: int)

  /** One patch-sheet row: the fixture (Beam 350W, LED Wash, Ellipsoidal), its
      DMX start address, channel count and wattage. */
  datatype Patch = Patch(id: FixtureId, fixture: FixtureKind, addr: int, ch: int, watt: int)

  /** A fixture on the lighting plot, relative to the stage centre. */
  datatype Position = Position(kind: FixtureKind, x: real, y: real, color: Color)

  // Per-kind constants of the patch sheet.

  function Channels(k: FixtureKind): int
  {
    match k
    case Beam => 16
    case Wash => 8
    case Spot => 1
  }

  function Watts(k: FixtureKind): int
  {
    match k
    case Beam => 350
    case Wash => 180
    case Spot => 750
  }

  /** The address step from one fixture of the kind to the next. */
  function Stride(k: FixtureKind): int
  {
    match k
    case Beam => 18
    case Wash => 10
    case Spot => 1
  }

  function Rank(k: FixtureKind): int
  {
    match k
    case Beam => 0
    case Wash => 1
    case Spot => 2
  }

  // Fixture counts.

  /** Beam spacing along the stage front: denser for performances. */
  function BeamInterval(isPerf: bool): real
  {
    if isPerf then 1.5 else 3.0
  }

  /** The fewest beams that cover the width at the beam interval. */
  function NumBeams(w: real, isPerf: bool): (n: int)
    ensures n as real * BeamInterval(isPerf) >= w
    ensures (n - 1) as real * BeamInterval(isPerf) < w
    ensures w >= 0.0 ==> n >= 0
  {
    CoverCount(w, BeamInterval(isPerf))
  }

  /** The fewest washes that cover the width at 2 m spacing. */
  function NumWash(w: real): (n: int)
    ensures n as real * 2.0 >= w && (n - 1) as real * 2.0 < w
    ensures w >= 0.0 ==> n >= 0
  {
    CoverCount(w, 2.0)
  }

  /** The fewest spots that cover the width at 3 m spacing, rounded up to an
      even number so that front spots come in symmetric pairs: the least
      even n with 3n >= w. */
  function NumSpots(w: real): (n: int)
    ensures n % 2 == 0
    ensures n as real * 3.0 >= w && (n - 2) as real * 3.0 < w
    ensures w >= 0.0 ==> n >= 0
  {
    var c := CoverCount(w, 3.0);
    if c % 2 != 0 then c + 1 else c
  }

  /** math.ceil(w / gap), characterised as the fewest fixtures gap apart that
      cover w. */
  function CoverCount(w: real, gap: real): (n: int)
    requires gap > 0.0
    ensures n as real * gap >= w && (n - 1) as real * gap < w
    ensures w >= 0.0 ==> n >= 0
  {
    var q := w / gap;
    var n := Ceil(q);
    MulMono(q, n as real, gap);
    assert (n - 1) as real < q;
    MulMono((n - 1) as real, q, gap);
    assert q * gap == w;
    assert (n - 1) as real * gap < w;
    n
  }

  // The patch sheet, entry by entry.

  /** Entry k of the patch for nb beams followed by nw washes and then the
      spots: every kind is numbered from 1 and addressed from 1 with the
      strides of the kinds before it. */
  function PlanEntry(nb: nat, nw: nat, k: nat): Patch
  {
    if k < nb then
      Patch(FixtureId(Beam, k + 1), Beam, 1 + 18 * k, 16, 350)
    else if k < nb + nw then
      Patch(FixtureId(Wash, k - nb + 1), Wash, 1 + 18 * nb + 10 * (k - nb), 8, 180)
    else
      Patch(FixtureId(Spot, k - nb - nw + 1), Spot, 1 + 18 * nb + 10 * nw + (k - nb - nw), 1, 750)
  }

  function PatchPlan(nb: nat, nw: nat, ns: nat): (p: seq<Patch>)
    ensures |p| == nb + nw + ns
    ensures forall k :: 0 <= k < |p| ==> p[k] == PlanEntry(nb, nw, k)
  {
    seq(nb + nw + ns, (k: int) requires 0 <= k => PlanEntry(nb, nw, k))
  }

  /** The x coordinate of fixture i of n spread evenly across width w centred
      on 0. */
  function SpreadX(w: real, n: nat, i: int): real
  {
    -(w / 2.0) + (i + 1) as real * (w / (n + 1) as real)
  }

  /** The loop's running start-plus-steps form equals SpreadX. */
  lemma SpreadIncrement(w: real, n: nat, i: int, step: real, x: real)
    requires step == w / (n + 1) as real
    requires x == -(w / 2.0) + step + i as real * step
    ensures x == SpreadX(w, n, i)
  {
    assert (i + 1) as real * step == i as real * step + step;
  }

  /** The offset of front spot i of ns, 2.5 m apart about the centre line. */
  function SpotOffset(ns: nat, i: int): real
  {
    (i as real - ns as real / 2.0 + 0.5) * 2.5
  }

  /** Entry k of the lighting plot for the same order as PlanEntry: beams on
      the upstage line, washes just in front of it, spots 3 m beyond the
      downstage edge. */
  function LayoutEntry(w: real, d: real, nb: nat, nw: nat, ns: nat, k: nat): Position
  {
    if k < nb then
      Position(Beam, SpreadX(w, nb, k), d / 2.0 - 0.5, Blue)
    else if k < nb + nw then
      Position(Wash, SpreadX(w, nw, k - nb), d / 2.0 - 0.8, Green)
    else
      Position(Spot, SpotOffset(ns, k - nb - nw), -(d / 2.0) - 3.0, Orange)
  }

  function LayoutPlan(w: real, d: real, nb: nat, nw: nat, ns: nat): (l: seq<Position>)
    ensures |l| == nb + nw + ns
    ensures forall k :: 0 <= k < |l| ==> l[k] == LayoutEntry(w, d, nb, nw, ns, k)
  {
    seq(nb + nw + ns, (k: int) requires 0 <= k => LayoutEntry(w, d, nb, nw, ns, k))
  }

  /** sum(p['watt'] for p in patch_list). */
  function SumWatts(ps: seq<Patch>): (total: int)
    ensures (forall k :: 0 <= k < |ps| ==> ps[k].watt >= 0) ==> total >= 0
    ensures (forall k :: 0 <= k < |ps| ==> ps[k].watt % 10 == 0) ==> total % 10 == 0
  {
    if ps == [] then 0 else SumWatts(ps[..|ps| - 1]) + ps[|ps| - 1].watt
  }

  /** The power estimate in kW: raw wattage plus 20%, rounded to 2 decimals. */
  function PowerKw(totalWatts: int): (kw: real)
    ensures (kw * 100.0).Floor as real == kw * 100.0
    ensures -0.005 < kw - totalWatts as real * 1.2 / 1000.0 <= 0.005
  {
    Round2(totalWatts as real * 1.2 / 1000.0)
  }

  /** The first n patch rows and the first n plot entries are those of the
      plan for nb beams, nw washes and ns spots. */
  ghost predicate MatchesPlan(patchList: seq<Patch>, layout: seq<Position>,
                              w: real, d: real, nb: nat, nw: nat, ns: nat, n: nat)
  {
    && |patchList| == n && |layout| == n
    && (forall k :: 0 <= k < n ==> patchList[k] == PlanEntry(nb, nw, k))
    && (forall k :: 0 <= k < n ==> layout[k] == LayoutEntry(w, d, nb, nw, ns, k))
  }

  /** The beam loop of get_patch_data: nb beams from address 1, 18 apart,
      spread across the upstage line. */
  method PatchBeams(w: real, d: real, nb: nat, nw: nat, ns: nat)
    returns (patchList: seq<Patch>, layout: seq<Position>, addr: int)
    ensures MatchesPlan(patchList, layout, w, d, nb, nw, ns, nb)
    ensures addr == 1 + 18 * nb
  {
    patchList, layout, addr := [], [], 1;
    var step := w / (nb + 1) as real;
    var startX := -(w / 2.0) + step;
    for i := 0 to nb
      invariant addr == 1 + 18 * i
      invariant MatchesPlan(patchList, layout, w, d, nb, nw, ns, i)
    {
      var x := startX + i as real * step;
      SpreadIncrement(w, nb, i, step, x);
      var pos := Position(Beam, x, d / 2.0 - 0.5, Blue);
      assert pos == LayoutEntry(w, d, nb, nw, ns, i);
      patchList := patchList + [Patch(FixtureId(Beam, i + 1), Beam, addr, 16, 350)];
      layout := layout + [pos];
      addr := addr + 18;
    }
  }

  /** The wash loop: nw washes after the beams, 10 addresses apart. */
  method PatchWashes(w: real, d: real, nb: nat, nw: nat, ns: nat,
                     patchIn: seq<Patch>, layoutIn: seq<Position>, addrIn: int)
    returns (patchList: seq<Patch>, layout: seq<Position>, addr: int)
    requires MatchesPlan(patchIn, layoutIn, w, d, nb, nw, ns, nb)
    requires addrIn == 1 + 18 * nb
    ensures MatchesPlan(patchList, layout, w, d, nb, nw, ns, nb + nw)
    ensures addr == 1 + 18 * nb + 10 * nw
  {
    patchList, layout, addr := patchIn, layoutIn, addrIn;
    var step := w / (nw + 1) as real;
    var startX := -(w / 2.0) + step;
    for i := 0 to nw
      invariant addr == 1 + 18 * nb + 10 * i
      invariant MatchesPlan(patchList, layout, w, d, nb, nw, ns, nb + i)
    {
      var x := startX + i as real * step;
      SpreadIncrement(w, nw, i, step, x);
      var pos := Position(Wash, x, d / 2.0 - 0.8, Green);
      assert pos == LayoutEntry(w, d, nb, nw, ns, nb + i);
      patchList := patchList + [Patch(FixtureId(Wash, i + 1), Wash, addr, 8, 180)];
      layout := layout + [pos];
      addr := addr + 10;
    }
  }

  /** The front-spot loop: ns spots after the washes, one address each,
      2.5 m apart about the centre line. */
  method PatchSpots(w: real, d: real, nb: nat, nw: nat, ns: nat,
                    patchIn: seq<Patch>, layoutIn: seq<Position>, addrIn: int)
    returns (patchList: seq<Patch>, layout: seq<Position>, addr: int)
    requires MatchesPlan(patchIn, layoutIn, w, d, nb, nw, ns, nb + nw)
    requires addrIn == 1 + 18 * nb + 10 * nw
    ensures MatchesPlan(patchList, layout, w, d, nb, nw, ns, nb + nw + ns)
    ensures addr == 1 + 18 * nb + 10 * nw + ns
  {
    patchList, layout, addr := patchIn, layoutIn, addrIn;
    for i := 0 to ns
      invariant addr == 1 + 18 * nb + 10 * nw + i
      invariant MatchesPlan(patchList, layout, w, d, nb, nw, ns, nb + nw + i)
    {
      var offset := (i as real - ns as real / 2.0 + 0.5) * 2.5;
      var pos := Position(Spot, offset, -(d / 2.0) - 3.0, Orange);
      assert pos == LayoutEntry(w, d, nb, nw, ns, nb + nw + i);
      patchList := patchList + [Patch(FixtureId(Spot, i + 1), Spot, addr, 1, 750)];
      layout := layout + [pos];
      addr := addr + 1;
    }
  }

  class LightingEngine {
    var w: real
    var d: real
    var isPerf: bool

    constructor (e: Event)
      ensures w == e.stageWidth && d == e.stageDepth
      ensures isPerf == IsPerformance(e.eventType)
    {
      w := e.stageWidth;
      d := e.stageDepth;
      isPerf := IsPerformance(e.eventType);
    }

    /** The patch sheet, the power estimate and the lighting plot, built in
        Beam, Wash, Spot order with a running DMX address. */
    method GetPatchData() returns (patchList: seq<Patch>, power: real, layout: seq<Position>)
      requires w >= 0.0
      ensures NumBeams(w, isPerf) >= 0 && NumWash(w) >= 0 && NumSpots(w) >= 0
      ensures patchList == PatchPlan(NumBeams(w, isPerf), NumWash(w), NumSpots(w))
      ensures layout == LayoutPlan(w, d, NumBeams(w, isPerf), NumWash(w), NumSpots(w))
      ensures power == PowerKw(SumWatts(patchList))
    {
      var nb := NumBeams(w, isPerf);
      var nw := NumWash(w);
      var ns := NumSpots(w);
      var addr;
      patchList, layout, addr := PatchBeams(w, d, nb, nw, ns);
      patchList, layout, addr := PatchWashes(w, d, nb, nw, ns, patchList, layout, addr);
      patchList, layout, addr := PatchSpots(w, d, nb, nw, ns, patchList, layout, addr);
      var totalWatts := SumWatts(patchList);
      power := PowerKw(totalWatts);
    }
  }
}
