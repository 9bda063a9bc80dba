/** The server-streaming water-quality forecast: a 2-second interval timer that
    writes one synthetic reading per tick, five in all, and ends the stream on
    the tick after the fifth. Time is modelled as a sequence of timer ticks. */
module WaterForecast {
  import opened Quality

  /** How many readings one forecast stream carries. */
  const ForecastCount: nat := 5

  /** One message of the forecast stream. */
  datatype Reading = Reading(pHLevel: int, temperature: int, dissolvedOxygen: int, waterQuality: string)

  /** The three `Math.random()` values one tick consumes, in call order. */
  datatype ForecastDraws = ForecastDraws(pH: real, temperature: real, dissolvedOxygen: real)

  predicate ValidForecastDraws(d: ForecastDraws)
  {
    IsUnitDraw(d.pH) && IsUnitDraw(d.temperature) && IsUnitDraw(d.dissolvedOxygen)
  }

  /** What every forecast reading satisfies: its figures lie in the generated
      ranges and its label is the one the pH classifier gives. */
  predicate InForecastRange(r: Reading)
  {
    6 <= r.pHLevel <= 8 && 10 <= r.temperature <= 20 && 5 <= r.dissolvedOxygen <= 10 &&
    r.waterQuality == DetermineWaterQuality(r.pHLevel as real)
  }

  /** The reading one tick writes. */
  function NewReading(d: ForecastDraws): (r: Reading)
    requires ValidForecastDraws(d)
    ensures InForecastRange(r)
    ensures r.waterQuality in WaterLabels
  {
    var pHLevel := GetRandomNumber(6, 8, d.pH);
    Reading(pHLevel, GetRandomNumber(10, 20, d.temperature), GetRandomNumber(5, 10, d.dissolvedOxygen),
            DetermineWaterQuality(pHLevel as real))
  }

  /** The readings a sequence of ticks writes, one per tick, in order. */
  function Readings(ds: seq<ForecastDraws>): (rs: seq<Reading>)
    requires forall i :: 0 <= i < |ds| ==> ValidForecastDraws(ds[i])
    ensures |rs| == |ds|
    ensures forall i :: 0 <= i < |rs| ==> InForecastRange(rs[i])
  {
    if ds == [] then [] else [NewReading(ds[0])] + Readings(ds[1..])
  }

  lemma {:induction false} ReadingsAppend(ds: seq<ForecastDraws>, d: ForecastDraws)
    requires forall i :: 0 <= i < |ds| ==> ValidForecastDraws(ds[i])
    requires ValidForecastDraws(d)
    ensures Readings(ds + [d]) == Readings(ds) + [NewReading(d)]
  {
    if ds != [] {
      assert (ds + [d])[1..] == ds[1..] + [d];
      ReadingsAppend(ds[1..], d);
    }
  }

  /** The session of one `getWaterQualityForecast` call: the tick counter,
      whether the interval timer is still set, the readings written so far and
      whether the server has ended the stream. */
  class ForecastSession {
    var counter: nat
    var intervalActive: bool
    var writes: seq<Reading>
    var ended: bool

    /** The counter never passes five, it counts the writes, every write is a
        well-formed reading, and an ended stream has all five and no timer. */
    ghost predicate Valid()
      reads this
    {
      counter <= ForecastCount && |writes| == counter &&
      (ended ==> !intervalActive && counter == ForecastCount) &&
      forall i :: 0 <= i < |writes| ==> InForecastRange(writes[i])
    }

    /** The handler starts with a zero counter and sets the interval timer. */
    constructor ()
      ensures Valid()
      ensures counter == 0 && intervalActive && writes == [] && !ended
    {
      counter, intervalActive, writes, ended := 0, true, [], false;
    }

    /** One firing of the interval. A cleared interval does not fire; once five
        readings are out the callback clears the interval and ends the stream
        instead of writing. */
    method Tick(d: ForecastDraws)
      requires Valid() && ValidForecastDraws(d)
      modifies this
      ensures Valid()
      ensures !old(intervalActive) ==>
        counter == old(counter) && writes == old(writes) && ended == old(ended) && !intervalActive
      ensures old(intervalActive) && old(counter) >= ForecastCount ==>
        counter == old(counter) && writes == old(writes) && ended && !intervalActive
      ensures old(intervalActive) && old(counter) < ForecastCount ==>
        counter == old(counter) + 1 && writes == old(writes) + [NewReading(d)] &&
        !ended && intervalActive
    {
      if !intervalActive {
        return;
      }
      if counter >= ForecastCount {
        intervalActive := false;
        ended := true;
        return;
      }
      writes := writes + [NewReading(d)];
      counter := counter + 1;
    }

    /** The client's 'end' event clears the interval; nothing else changes. */
    method ClientEnd()
      requires Valid()
      modifies this
      ensures Valid()
      ensures !intervalActive
      ensures counter == old(counter) && writes == old(writes) && ended == old(ended)
    {
      intervalActive := false;
    }
  }

  /** What can happen to a forecast stream: the timer fires (consuming three
      random draws when it writes) or the client ends the call. */
  datatype ForecastEvent = TimerFires(draws: ForecastDraws) | CallEnds

  predicate ValidEvents(events: seq<ForecastEvent>)
  {
    forall i :: 0 <= i < |events| && events[i].TimerFires? ==> ValidForecastDraws(events[i].draws)
  }

  /** The draws of the timer firings that come before the client ends the call. */
  function FiredBeforeEnd(events: seq<ForecastEvent>): (ds: seq<ForecastDraws>)
    ensures |ds| <= |events|
    ensures ValidEvents(events) ==> forall i :: 0 <= i < |ds| ==> ValidForecastDraws(ds[i])
  {
    if events == [] then []
    else match events[0]
      case CallEnds => []
      case TimerFires(d) => [d] + FiredBeforeEnd(events[1..])
  }

  lemma {:induction false} FiredBeforeEndSnoc(events: seq<ForecastEvent>, e: ForecastEvent)
    ensures FiredBeforeEnd(events + [e]) ==
      if CallEnds in events then FiredBeforeEnd(events)
      else if e.TimerFires? then FiredBeforeEnd(events) + [e.draws]
      else FiredBeforeEnd(events)
  {
    if events != [] {
      assert (events + [e])[0] == events[0];
      assert (events + [e])[1..] == events[1..] + [e];
      FiredBeforeEndSnoc(events[1..], e);
      assert CallEnds in events <==> events[0] == CallEnds || CallEnds in events[1..];
    }
  }

  function Min(a: nat, b: nat): nat { if a <= b then a else b }

  /** The session is in the state that the events so far lead to: the readings
      of the first five firings before the client's end are out, the server has
      ended the stream when a sixth came first, and the timer is still set
      when neither end has happened. */
  ghost predicate Reflects(session: ForecastSession, events: seq<ForecastEvent>)
    reads session
  {
    var fired := FiredBeforeEnd(events);
    ValidEvents(events) && session.Valid() &&
    session.counter == Min(|fired|, ForecastCount) &&
    session.writes == Readings(fired[..session.counter]) &&
    (session.ended <==> |fired| > ForecastCount) &&
    (session.intervalActive <==> CallEnds !in events && |fired| <= ForecastCount)
  }

  /** Hands one event to the session: a firing to the interval callback, the
      client's end to the 'end' handler. */
  method Dispatch(session: ForecastSession, e: ForecastEvent, ghost before: seq<ForecastEvent>)
    requires Reflects(session, before)
    requires ValidEvents([e])
    modifies session
    ensures Reflects(session, before + [e])
  {
    FiredBeforeEndSnoc(before, e);
    ghost var fired := FiredBeforeEnd(before);
    assert ValidEvents(before + [e]) by {
      forall i | 0 <= i < |before + [e]| && (before + [e])[i].TimerFires?
        ensures ValidForecastDraws((before + [e])[i].draws)
      {
        if i == |before| { assert [e][0] == (before + [e])[i]; }
        else { assert (before + [e])[i] == before[i]; }
      }
    }
    match e {
      case TimerFires(d) =>
        assert ValidForecastDraws([e][0].draws);
        if CallEnds !in before {
          if |fired| < ForecastCount {
            assert fired[..session.counter] == fired;
            assert (fired + [d])[..session.counter + 1] == fired + [d];
            ReadingsAppend(fired, d);
          } else {
            assert (fired + [d])[..ForecastCount] == fired[..ForecastCount];
          }
        }
        session.Tick(d);
      case CallEnds =>
        session.ClientEnd();
    }
  }

  /** One forecast call from start to finish, driven by `events`. The stream
      carries the readings of the first five firings before the client ends
      the call, and the server ends it exactly when a sixth firing comes
      first. */
  method GetWaterQualityForecast(events: seq<ForecastEvent>) returns (writes: seq<Reading>, ended: bool)
    requires ValidEvents(events)
    ensures |writes| == Min(|FiredBeforeEnd(events)|, ForecastCount)
    ensures writes == Readings(FiredBeforeEnd(events)[..|writes|])
    ensures ended <==> |FiredBeforeEnd(events)| > ForecastCount
    ensures forall i :: 0 <= i < |writes| ==> InForecastRange(writes[i])
  {
    var session := new ForecastSession();
    var i := 0;
    while i < |events|
      invariant 0 <= i <= |events|
      invariant Reflects(session, events[..i])
    {
      assert ValidEvents([events[i]]);
      Dispatch(session, events[i], events[..i]);
      assert events[..i + 1] == events[..i] + [events[i]];
      i := i + 1;
    }
    assert events[..i] == events;
    writes, ended := session.writes, session.ended;
  }

  /** While the client keeps the call open every firing counts, so a call
      that sees six firings gets all five readings and is then ended by the
      server. */
  lemma {:induction false} UncancelledCallCountsEveryFiring(events: seq<ForecastEvent>)
    requires CallEnds !in events
    ensures |FiredBeforeEnd(events)| == |events|
    ensures |events| > ForecastCount ==> Min(|FiredBeforeEnd(events)|, ForecastCount) == ForecastCount
  {
    if events != [] {
      assert events[0] != CallEnds;
      assert forall e :: e in events[1..] ==> e in events;
      UncancelledCallCountsEveryFiring(events[1..]);
    }
  }

  /** A client that ends the call after the second reading never sees a third
      and the server never ends the stream itself. */
  lemma CancelAfterSecondReading(d1: ForecastDraws, d2: ForecastDraws, rest: seq<ForecastEvent>)
    ensures FiredBeforeEnd([TimerFires(d1), TimerFires(d2), CallEnds] + rest) == [d1, d2]
  {
    var events := [TimerFires(d1), TimerFires(d2), CallEnds] + rest;
    assert events[1..] == [TimerFires(d2), CallEnds] + rest;
    assert events[1..][1..] == [CallEnds] + rest;
    assert FiredBeforeEnd(events[1..][1..]) == [];
    assert FiredBeforeEnd(events[1..]) == [d2];
  }
}
