/** calculate_space: side clearance notes and the banquet-table grid. */
module Space {
  import opened Numerics
  import opened EventModel

  /** Which side-clearance note is made and the clearance it reports; the
      wording of the note is not modelled. */
  datatype Note = ScreenFits(clearance: real) | SidesTight(clearance: real)

  datatype SpaceReport = SpaceReport(
    warnings: seq<Note>,
    infos: seq<Note>,
    tableCount: int,
    pax: int)

  /** Free width on each side of the stage: the stage and two equal side
      strips fill the venue width. */
  function ScreenSpace(e: Event): (side: real)
    ensures e.stageWidth + 2.0 * side == e.venueWidth
  {
    (e.venueWidth - e.stageWidth) / 2.0
  }

  /** Width left for tables once 3 m of side margins are taken. */
  function AvailWidth(e: Event): (aw: real)
    ensures aw + 3.0 == e.venueWidth
  {
    e.venueWidth - 3.0
  }

  /** Depth left for tables between the stage walkway and the FOH booth
      (or the rear walkway when there is no booth): the stage, a 4 m walkway,
      the table area and a 4 m booth or 2 m walkway fill the venue depth. */
  function AvailDepth(e: Event): (ad: real)
    ensures e.stageDepth + 4.0 + ad + (if e.hasFoh then 4.0 else 2.0) == e.venueDepth
  {
    (e.venueDepth - e.stageDepth - 4.0) - (if e.hasFoh then 4.0 else 2.0)
  }

  /** Seats per banquet table. */
  const SeatsPerTable := 8

  function CalculateSpace(e: Event): (r: SpaceReport)
    requires e.tableGap > 0.0
    ensures r.tableCount >= 0 && r.pax == SeatsPerTable * r.tableCount
    ensures |r.infos| <= 1 && |r.warnings| <= 1
    ensures |r.infos| == 1 <==> ScreenSpace(e) >= 2.5
    ensures |r.warnings| == 1 <==> ScreenSpace(e) < 1.0
    ensures forall n :: n in r.infos ==> n == ScreenFits(ScreenSpace(e))
    ensures forall n :: n in r.warnings ==> n == SidesTight(ScreenSpace(e))
  {
    var s := ScreenSpace(e);
    var infos := if s >= 2.5 then [ScreenFits(s)] else [];
    var warnings := if s >= 2.5 then [] else if s < 1.0 then [SidesTight(s)] else [];
    var cols := FloorDiv(AvailWidth(e), e.tableGap);
    var rows := FloorDiv(AvailDepth(e), e.tableGap);
    var raw := cols * rows - (if e.hasVirginRoad then rows else 0);
    var tableCount := Max(0, raw);
    SpaceReport(warnings, infos, tableCount, tableCount * SeatsPerTable)
  }

  /** The table count is the grid of `cols` columns by `rows` rows that fit at
      the table gap, less one table per row for a virgin road, and never
      negative; `cols` and `rows` are the floors of the available width and
      depth over the gap. */
  lemma TableGrid(e: Event, cols: int, rows: int)
    requires e.tableGap > 0.0
    requires cols as real * e.tableGap <= AvailWidth(e) < (cols + 1) as real * e.tableGap
    requires rows as real * e.tableGap <= AvailDepth(e) < (rows + 1) as real * e.tableGap
    ensures CalculateSpace(e).tableCount
              == Max(0, if e.hasVirginRoad then (cols - 1) * rows else cols * rows)
    ensures CalculateSpace(e).pax == SeatsPerTable * CalculateSpace(e).tableCount
  {
    FloorDivUnique(AvailWidth(e), e.tableGap, cols);
    FloorDivUnique(AvailDepth(e), e.tableGap, rows);
  }

  /** The default event (20 x 40 venue, 14.4 x 4.8 stage, gap 3.0, FOH, no
      virgin road): 5 columns by 9 rows, 45 tables and 360 guests, with the
      2.8 m side clearance noted as fitting a screen. */
  lemma DefaultEventLayout(date: int)
    ensures CalculateSpace(DefaultEvent(date))
              == SpaceReport([], [ScreenFits(2.8)], 45, 360)
  {
    var e := DefaultEvent(date);
    TableGrid(e, 5, 9);
  }

  // The grid as written multiplies two floors that may both be negative.

  /** A 2 x 5 venue leaves no room for a single table (both the available
      width and depth are negative), yet -1 columns times -2 rows yields two
      tables and sixteen guests. */
  lemma DegenerateVenueSeatsTables()
    ensures var e := Event(0, General, 2.0, 5.0, 1.0, 1.0, 3.0, false, true);
            AvailWidth(e) < 0.0 && AvailDepth(e) < 0.0
            && CalculateSpace(e).tableCount == 2 && CalculateSpace(e).pax == 16
  {
    var e := Event(0, General, 2.0, 5.0, 1.0, 1.0, 3.0, false, true);
    TableGrid(e, -1, -2);
  }

  /** The grid with negative column and row counts clamped to zero; otherwise
      agrees with CalculateSpace. */
  function CalculateSpaceClamped(e: Event): (r: SpaceReport)
    requires e.tableGap > 0.0
    ensures r.tableCount >= 0 && r.pax == SeatsPerTable * r.tableCount
    ensures AvailWidth(e) < 0.0 || AvailDepth(e) < 0.0 ==> r.tableCount == 0
    ensures AvailWidth(e) >= 0.0 && AvailDepth(e) >= 0.0 ==> r == CalculateSpace(e)
  {
    var r := CalculateSpace(e);
    var cols := Max(0, FloorDiv(AvailWidth(e), e.tableGap));
    var rows := Max(0, FloorDiv(AvailDepth(e), e.tableGap));
    var raw := cols * rows - (if e.hasVirginRoad then rows else 0);
    var tableCount := Max(0, raw);
    SpaceReport(r.warnings, r.infos, tableCount, tableCount * SeatsPerTable)
  }
}
