/** Properties of the lighting plan that GetPatchData returns: DMX addressing,
    patch order and labels, wattage and power, and fixture positions. */
module LightingProps {
  import opened Numerics
  import opened Lighting

  /** Every fixture starts at address 1 or later, has its kind's channel
      count and wattage, and its channel range [addr, addr + ch) ends at or
      before the start of every later fixture, so addresses strictly increase
      and no two ranges overlap; the last range ends by 18nb + 10nw + ns. */
  lemma PlanAddresses(nb: nat, nw: nat, ns: nat)
    ensures var p := PatchPlan(nb, nw, ns);
            && (forall k :: 0 <= k < |p| ==>
                  && p[k].addr >= 1
                  && p[k].ch == Channels(p[k].fixture)
                  && p[k].watt == Watts(p[k].fixture)
                  && p[k].addr + p[k].ch <= 1 + 18 * nb + 10 * nw + ns)
            && (forall i, j :: 0 <= i < j < |p| ==>
                  p[i].addr < p[i].addr + p[i].ch <= p[j].addr)
  {
    var p := PatchPlan(nb, nw, ns);
    forall i, j | 0 <= i < j < |p|
      ensures p[i].addr < p[i].addr + p[i].ch <= p[j].addr
    {
      assert p[i] == PlanEntry(nb, nw, i) && p[j] == PlanEntry(nb, nw, j);
    }
  }

  /** Consecutive fixtures are exactly their kind's stride apart. */
  lemma PlanStrides(nb: nat, nw: nat, ns: nat)
    ensures var p := PatchPlan(nb, nw, ns);
            forall k :: 0 <= k < |p| - 1 ==> p[k + 1].addr == p[k].addr + Stride(p[k].fixture)
  {
    var p := PatchPlan(nb, nw, ns);
    forall k | 0 <= k < |p| - 1
      ensures p[k + 1].addr == p[k].addr + Stride(p[k].fixture)
    {
      assert p[k] == PlanEntry(nb, nw, k) && p[k + 1] == PlanEntry(nb, nw, k + 1);
    }
  }

  /** The patch holds nb beams, then nw washes, then ns spots; each fixture's
      label carries its kind and its 1-based number within the kind, so no
      two fixtures share a label. */
  lemma PlanOrderAndLabels(nb: nat, nw: nat, ns: nat)
    ensures var p := PatchPlan(nb, nw, ns);
            && (forall k :: 0 <= k < |p| ==>
                  && (p[k].fixture == Beam <==> k < nb)
                  && (p[k].fixture == Spot <==> nb + nw <= k)
                  && p[k].id.kind == p[k].fixture
                  && 1 <= p[k].id.number
                  && p[k].id.number == k + 1 - (if k < nb then 0 else if k < nb + nw then nb else nb + nw))
            && (forall i, j :: 0 <= i < j < |p| ==> Rank(p[i].fixture) <= Rank(p[j].fixture))
            && (forall i, j :: 0 <= i < j < |p| ==> p[i].id != p[j].id)
  {
    var p := PatchPlan(nb, nw, ns);
    forall i, j | 0 <= i < j < |p|
      ensures Rank(p[i].fixture) <= Rank(p[j].fixture) && p[i].id != p[j].id
    {
      assert p[i] == PlanEntry(nb, nw, i) && p[j] == PlanEntry(nb, nw, j);
    }
  }

  /** The patch's raw wattage over its first k rows. */
  lemma {:induction false} PrefixWatts(nb: nat, nw: nat, ns: nat, k: nat)
    requires k <= nb + nw + ns
    ensures SumWatts(PatchPlan(nb, nw, ns)[..k])
              == 350 * (if k < nb then k else nb)
               + 180 * (if k <= nb then 0 else if k < nb + nw then k - nb else nw)
               + 750 * (if k <= nb + nw then 0 else k - nb - nw)
  {
    var p := PatchPlan(nb, nw, ns);
    if k > 0 {
      PrefixWatts(nb, nw, ns, k - 1);
      assert p[..k][..k - 1] == p[..k - 1];
      assert p[..k][k - 1] == PlanEntry(nb, nw, k - 1);
    }
  }

  /** The total wattage is 350 W per beam, 180 W per wash and 750 W per spot. */
  lemma PlanWatts(nb: nat, nw: nat, ns: nat)
    ensures SumWatts(PatchPlan(nb, nw, ns)) == 350 * nb + 180 * nw + 750 * ns
  {
    var p := PatchPlan(nb, nw, ns);
    PrefixWatts(nb, nw, ns, |p|);
    assert p[..|p|] == p;
  }

  /** A wattage that is a whole number of 10 W never lands exactly halfway
      between two hundredths of a kW after the 20% uplift, so Python's
      round-half-to-even and the half-up rounding of Round2 agree on it. */
  lemma NoRoundingTie(tens: int)
    ensures !IsHundredthTie((10 * tens) as real * 1.2 / 1000.0)
  {
    var x := (10 * tens) as real * 1.2 / 1000.0;
    assert x * 100.0 + 0.5 == (12 * tens + 5) as real / 10.0;
    NotTenthOfOdd((x * 100.0 + 0.5).Floor, 12 * tens + 5);
  }

  /** No integer is an odd number of tenths. */
  lemma NotTenthOfOdd(j: int, n: int)
    requires n % 2 == 1
    ensures j as real != n as real / 10.0
  {
    var h := n / 2;
    assert n == 2 * h + 1;
    assert 10 * j != 2 * h + 1;
    assert (10 * j) as real != n as real;
  }

  /** Every plan's wattage is a whole number of 10 W, so its power figure
      is that of 350 W per beam, 180 W per wash and 750 W per spot, and is
      never computed from a rounding tie. */
  lemma PlanPower(nb: nat, nw: nat, ns: nat)
    ensures var total := 350 * nb + 180 * nw + 750 * ns;
            && PowerKw(SumWatts(PatchPlan(nb, nw, ns))) == PowerKw(total)
            && !IsHundredthTie(total as real * 1.2 / 1000.0)
  {
    PlanWatts(nb, nw, ns);
    var tens := 35 * nb + 18 * nw + 75 * ns;
    assert 10 * tens == 350 * nb + 180 * nw + 750 * ns;
    NoRoundingTie(tens);
  }

  /** The plot lists the fixtures in the patch's order, kind for kind. */
  lemma LayoutParallelsPatch(w: real, d: real, nb: nat, nw: nat, ns: nat)
    ensures var p := PatchPlan(nb, nw, ns);
            var l := LayoutPlan(w, d, nb, nw, ns);
            |l| == |p| && forall k :: 0 <= k < |l| ==> l[k].kind == p[k].fixture
  {
  }

  /** Fixture i of n spread across a stage of positive width lies strictly
      inside the stage, one w / (n + 1) step right of fixture i - 1. */
  lemma SpreadInside(w: real, n: nat, i: nat)
    requires w > 0.0 && i < n
    ensures -(w / 2.0) < SpreadX(w, n, i) < w / 2.0
    ensures i > 0 ==> SpreadX(w, n, i) - SpreadX(w, n, i - 1) == w / (n + 1) as real
  {
    var step := w / (n + 1) as real;
    var y := (i + 1) as real * step;
    assert SpreadX(w, n, i) == -(w / 2.0) + y;
    assert step > 0.0;
    assert (n + 1) as real * step == w;
    MulMono(1.0, (i + 1) as real, step);
    assert step <= y;
    MulMono((i + 1) as real, n as real, step);
    MulMono(n as real, (n + 1) as real, step);
    assert y < w;
    if i > 0 {
      assert SpreadX(w, n, i - 1) == -(w / 2.0) + i as real * step;
      assert y == i as real * step + step;
    }
  }

  /** Beams and washes sit on their upstage lines strictly between the stage
      edges; spots sit 3 m beyond the downstage edge. */
  lemma LayoutRows(w: real, d: real, nb: nat, nw: nat, ns: nat)
    requires w > 0.0
    ensures var l := LayoutPlan(w, d, nb, nw, ns);
            forall k :: 0 <= k < |l| ==>
              && (l[k].kind != Spot ==> -(w / 2.0) < l[k].x < w / 2.0)
              && l[k].y == (match l[k].kind
                            case Beam => d / 2.0 - 0.5
                            case Wash => d / 2.0 - 0.8
                            case Spot => -(d / 2.0) - 3.0)
  {
    var l := LayoutPlan(w, d, nb, nw, ns);
    forall k | 0 <= k < |l|
      ensures l[k].kind != Spot ==> -(w / 2.0) < l[k].x < w / 2.0
    {
      if k < nb {
        SpreadInside(w, nb, k);
      } else if k < nb + nw {
        SpreadInside(w, nw, k - nb);
      }
    }
  }

  /** Front spots are placed in mirror pairs: spot k and spot ns - 1 - k are
      equally far either side of the centre line, 2.5 m apart in sequence. */
  lemma SpotsSymmetric(w: real, d: real, nb: nat, nw: nat, ns: nat, k: nat)
    requires k < ns
    ensures var l := LayoutPlan(w, d, nb, nw, ns);
            && l[nb + nw + k].x == -l[nb + nw + (ns - 1 - k)].x
            && (k > 0 ==> l[nb + nw + k].x - l[nb + nw + k - 1].x == 2.5)
  {
  }

  /** On a negative stage width a beam or wash count of -1 makes the spacing
      `w / (n + 1)` divide by zero; that happens exactly for -4 < w <= -1.5 on
      performances and -6 < w <= -2 otherwise. Every other negative width
      gives counts of at most 0, so every loop is empty. */
  lemma NegativeWidthCounts(w: real, isPerf: bool)
    requires w < 0.0
    ensures (NumBeams(w, isPerf) == -1 || NumWash(w) == -1)
              <==> (if isPerf then -4.0 < w <= -1.5 else -6.0 < w <= -2.0)
    ensures NumBeams(w, isPerf) <= 0 && NumWash(w) <= 0 && NumSpots(w) <= 0
  {
    var nb := NumBeams(w, isPerf);
    var nw := NumWash(w);
    if isPerf {
      assert nb == -1 <==> -3.0 < w <= -1.5;
    } else {
      assert nb == -1 <==> -6.0 < w <= -3.0;
    }
    assert nw == -1 <==> -4.0 < w <= -2.0;
  }

  /** The patch of the default 14.4 m stage for a non-performance event:
      5 beams, 8 washes and 6 spots, 7690 W, reported as 9.23 kW. */
  lemma DefaultStagePlan()
    ensures NumBeams(14.4, false) == 5 && NumWash(14.4) == 8 && NumSpots(14.4) == 6
    ensures SumWatts(PatchPlan(5, 8, 6)) == 7690
    ensures PowerKw(7690) == 9.23
  {
    assert CoverCount(14.4, 3.0) == 5;
    PlanWatts(5, 8, 6);
    assert (7690.0 * 1.2 / 1000.0 * 100.0 + 0.5).Floor == 923;
  }
}
