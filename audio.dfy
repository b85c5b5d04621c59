/** calculate_audio: main system choice, delay speaker and subwoofers. */
module Audio {
  import opened Numerics
  import opened EventModel

  datatype SystemType = LineArraySystem | PointSourceSystem

  /** The main speakers: `modules` compact line-array cabinets per side, or a
      fixed pair of 12-15 inch point sources. */
  datatype MainSpeaker = CompactLineArray(modules: int) | PointSource

  datatype MainType = ArrayType | PointType

  /** Subwoofers: the performance dual-sub stack with its cabinet count, or
      the fixed single/dual pair for other events. */
  datatype Subwoofer = DualSub(cabinets: int) | SingleDualSub

  /** The delay-line timing; absent when no delay speaker is needed. */
  datatype DelaySetting = NoDelaySetting | DelayMillis(ms: real)

  datatype AudioSpec = AudioSpec(
    systemType: SystemType,
    main: MainSpeaker,
    mainType: MainType,
    hasDelay: bool,
    delayPos: real,
    delaySetting: DelaySetting,
    sub: Subwoofer)

  /** Speed of sound, metres per second. */
  const SpeedOfSound := 340.0
  /** Extra delay beyond propagation so the delay speaker reinforces, in ms. */
  const DelayOffsetMs := 15.0

  /** A line array is chosen exactly for performance events deeper than
      25 m, and the three descriptions of the main system agree. A delay
      speaker is placed exactly when the venue is at least 20 m deep, at 55%
      of the depth, timed to the sound's travel there plus the 15 ms offset;
      without one its position is 0. Performance events get a dual-sub stack
      of four cabinets in venues wider than 20 m and two otherwise. */
  function CalculateAudio(e: Event): (r: AudioSpec)
    ensures r.mainType == ArrayType <==> e.venueDepth > 25.0 && IsPerformance(e.eventType)
    ensures r.systemType == LineArraySystem <==> r.mainType == ArrayType
    ensures r.main.CompactLineArray? <==> r.mainType == ArrayType
    ensures r.hasDelay <==> e.venueDepth >= 20.0
    ensures r.hasDelay <==> r.delaySetting.DelayMillis?
    ensures !r.hasDelay ==> r.delayPos == 0.0
    ensures r.hasDelay ==> r.delayPos == 0.55 * e.venueDepth
    ensures r.hasDelay ==>
              && r.delaySetting.ms > DelayOffsetMs
              && (r.delaySetting.ms - DelayOffsetMs) / 1000.0 * SpeedOfSound == r.delayPos
    ensures r.sub.DualSub? <==> IsPerformance(e.eventType)
    ensures r.sub.DualSub? ==> (r.sub.cabinets == 4 <==> e.venueWidth > 20.0)
    ensures r.sub.DualSub? ==> r.sub.cabinets == 2 || r.sub.cabinets == 4
  {
    var depth := e.venueDepth;
    var perf := IsPerformance(e.eventType);
    var (systemType, main, mainType) :=
      if depth > 25.0 && perf
      then (LineArraySystem, CompactLineArray(Max(4, Trunc(depth / 5.0))), ArrayType)
      else (PointSourceSystem, PointSource, PointType);
    var (hasDelay, delayPos, setting) :=
      if depth >= 20.0
      then (true, depth * 0.55, DelayMillis(depth * 0.55 / SpeedOfSound * 1000.0 + DelayOffsetMs))
      else (false, 0.0, NoDelaySetting);
    var sub := if perf then DualSub(if e.venueWidth > 20.0 then 4 else 2) else SingleDualSub;
    AudioSpec(systemType, main, mainType, hasDelay, delayPos, setting, sub)
  }

  /** The line array has one cabinet per full 5 m of depth. Since the depth
      exceeds 25 m there are always at least five, so the floor of four in
      max(4, int(depth / 5)) never takes effect. */
  lemma LineArrayModules(e: Event)
    requires e.venueDepth > 25.0 && IsPerformance(e.eventType)
    ensures var m := CalculateAudio(e).main;
            && m.CompactLineArray?
            && m.modules >= 5
            && m.modules as real * 5.0 <= e.venueDepth < (m.modules + 1) as real * 5.0
  {
    var t := Trunc(e.venueDepth / 5.0);
    assert t as real <= e.venueDepth / 5.0 < t as real + 1.0;
    assert t as real * 5.0 <= e.venueDepth;
    assert e.venueDepth < (t + 1) as real * 5.0;
  }

  /** At exactly 20 m the delay sits at 11 m and is set to about 47.35 ms;
      at 19.9 m there is none. */
  lemma DelayThreshold(e: Event)
    ensures e.venueDepth == 20.0 ==>
              var r := CalculateAudio(e);
              r.hasDelay && r.delayPos == 11.0
              && 47.35 < r.delaySetting.ms < 47.36
    ensures e.venueDepth == 19.9 ==> !CalculateAudio(e).hasDelay
  {
  }

  /** A 30 m concert gets six line-array cabinets per side. */
  lemma ConcertThirtyMetres(e: Event)
    requires e.eventType == Concert && e.venueDepth == 30.0
    ensures CalculateAudio(e).main == CompactLineArray(6)
  {
  }
}
