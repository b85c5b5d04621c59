/** The numeric and categorical fields of an event that the calculators and the
    default-task rule read. Dates are day numbers. */
module EventModel {

  datatype EventType = General | Conference | Concert | Exhibition | Festival

  datatype Event = Event(
    date: int,
    eventType: EventType,
    venueWidth: real,
    venueDepth: real,
    stageWidth: real,
    stageDepth: real,
    tableGap: real,
    hasVirginRoad: bool,
    hasFoh: bool)

  /** The concert/festival test that the audio planner, the lighting engine
      and the default-task rule each repeat: general events, conferences and
      exhibitions are not performances. */
  predicate IsPerformance(t: EventType): (b: bool)
    ensures b <==> !(t in {General, Conference, Exhibition})
  {
    t == Concert || t == Festival
  }

  /** A freshly created event with every field at its declared default; the
      event date has no default and is given. The default stage fits inside
      the default venue, the table gap is positive, and there is an FOH booth
      but no virgin road. */
  function DefaultEvent(date: int): (e: Event)
    ensures e.date == date && e.eventType == General
    ensures 0.0 < e.stageWidth < e.venueWidth && 0.0 < e.stageDepth < e.venueDepth
    ensures e.venueWidth == 20.0 && e.venueDepth == 40.0
    ensures e.stageWidth == 14.4 && e.stageDepth == 4.8
    ensures e.tableGap == 3.0 && e.hasFoh && !e.hasVirginRoad
  {
    Event(date, General, 20.0, 40.0, 14.4, 4.8, 3.0, false, true)
  }
}
