/** The forecast assembler and its day-picking rule: walk the time-ordered
    3-hour samples, keep a sample when its date has not been kept yet and its
    hour is 12 or 15, stop after five days. */
module Forecast {
  import opened Upstream
  import CurrentWeather

  /** One day of the forecast as reported. */
  datatype ForecastEntry = ForecastEntry(
    date: string,
    temperature: real,
    tempUnit: string,
    condition: string,
    humidity: int,
    windSpeed: real)

  /** The forecast for a resolved place. */
  datatype ForecastReport = ForecastReport(city: string, country: string, entries: seq<ForecastEntry>)

  /** The most days a forecast reports. */
  const MaxDays: nat := 5

  /** Python's `s[i:j]` for 0 <= i <= j: indexes past the end are clipped. */
  function Slice(s: string, i: nat, j: nat): (r: string)
    requires i <= j
    ensures |r| <= j - i
    ensures j <= |s| ==> r == s[i..j]
  {
    var hi := if j <= |s| then j else |s|;
    var lo := if i <= hi then i else hi;
    s[lo..hi]
  }

  /** The date part `dt_txt[:10]` of a sample. */
  function DateOf(x: ForecastSample): string {
    Slice(x.dtTxt, 0, 10)
  }

  /** The hour part `dt_txt[11:13]` of a sample. */
  function HourOf(x: ForecastSample): string {
    Slice(x.dtTxt, 11, 13)
  }

  /** A sample taken at 12:00 or 15:00. */
  predicate IsMidday(x: ForecastSample) {
    HourOf(x) == "12" || HourOf(x) == "15"
  }

  /** The indexes of the samples picked from position `i` on, when the dates
      in `seen` are already taken and `room` more days may be picked. */
  function PicksFrom(s: seq<ForecastSample>, i: nat, seen: set<string>, room: nat): seq<nat>
    decreases |s| - i
  {
    if i >= |s| || room == 0 then []
    else if DateOf(s[i]) !in seen && IsMidday(s[i]) then
      [i] + PicksFrom(s, i + 1, seen + {DateOf(s[i])}, room - 1)
    else
      PicksFrom(s, i + 1, seen, room)
  }

  /** The indexes of the samples a forecast reports, in upstream order. */
  function DailyPicks(s: seq<ForecastSample>): seq<nat> {
    PicksFrom(s, 0, {}, MaxDays)
  }

  /** `p` lists increasing indexes in `[i, n)`. */
  ghost predicate IncreasingWithin(p: seq<nat>, i: nat, n: nat) {
    && (forall k :: 0 <= k < |p| ==> i <= p[k] < n)
    && (forall k, l :: 0 <= k < l < |p| ==> p[k] < p[l])
  }

  /** Every index of `p` is a midday sample of `s` whose date is not in `seen`. */
  ghost predicate MiddayWithFreshDates(s: seq<ForecastSample>, p: seq<nat>, seen: set<string>) {
    forall k :: 0 <= k < |p| ==> p[k] < |s| && IsMidday(s[p[k]]) && DateOf(s[p[k]]) !in seen
  }

  /** No two indexes of `p` are samples of the same date. */
  ghost predicate DistinctDates(s: seq<ForecastSample>, p: seq<nat>) {
    forall k, l :: 0 <= k < l < |p| && p[k] < |s| && p[l] < |s| ==> DateOf(s[p[k]]) != DateOf(s[p[l]])
  }

  /** Each index of `p` is the first midday sample of its date from `i` on. */
  ghost predicate FirstOfItsDate(s: seq<ForecastSample>, p: seq<nat>, i: nat) {
    forall k, j :: 0 <= k < |p| && i <= j < p[k] && p[k] < |s| && IsMidday(s[j]) ==>
      DateOf(s[j]) != DateOf(s[p[k]])
  }

  /** Each midday sample from `i` on that `p` leaves out has its date in
      `seen` or among earlier picks, or comes after the picks filled `room`. */
  ghost predicate NonePassedOver(s: seq<ForecastSample>, p: seq<nat>, i: nat, seen: set<string>, room: nat) {
    forall j :: i <= j < |s| && IsMidday(s[j]) && j !in p ==>
      || DateOf(s[j]) in seen
      || (exists k :: 0 <= k < |p| && p[k] < j && DateOf(s[p[k]]) == DateOf(s[j]))
      || room == 0
      || (|p| == room && p[room - 1] < j)
  }

  /** Picks are increasing indexes into `s`, from `i` on, at most `room` of them. */
  lemma {:induction false} PicksOrdered(s: seq<ForecastSample>, i: nat, seen: set<string>, room: nat)
    ensures |PicksFrom(s, i, seen, room)| <= room
    ensures IncreasingWithin(PicksFrom(s, i, seen, room), i, |s|)
    decreases |s| - i
  {
    if i >= |s| || room == 0 {
    } else if DateOf(s[i]) !in seen && IsMidday(s[i]) {
      PicksOrdered(s, i + 1, seen + {DateOf(s[i])}, room - 1);
    } else {
      PicksOrdered(s, i + 1, seen, room);
    }
  }

  /** Every pick is a midday sample with a date not in `seen`, and no two
      picks share a date. */
  lemma {:induction false} PicksFreshDates(s: seq<ForecastSample>, i: nat, seen: set<string>, room: nat)
    ensures MiddayWithFreshDates(s, PicksFrom(s, i, seen, room), seen)
    ensures DistinctDates(s, PicksFrom(s, i, seen, room))
    decreases |s| - i
  {
    var p := PicksFrom(s, i, seen, room);
    if i >= |s| || room == 0 {
    } else if DateOf(s[i]) !in seen && IsMidday(s[i]) {
      var seen' := seen + {DateOf(s[i])};
      var rest := PicksFrom(s, i + 1, seen', room - 1);
      PicksFreshDates(s, i + 1, seen', room - 1);
      assert p == [i] + rest;
      forall k, l | 0 <= k < l < |p| && p[k] < |s| && p[l] < |s|
        ensures DateOf(s[p[k]]) != DateOf(s[p[l]])
      {
        assert p[l] == rest[l - 1];
        if k > 0 { assert p[k] == rest[k - 1]; }
      }
    } else {
      PicksFreshDates(s, i + 1, seen, room);
    }
  }

  /** One step of `PicksFirstOfDate`, after a fresh pick at `i` whose date
      is in `seen`: the later picks, first of their dates from `i + 1` on
      and with dates outside `seen`, are first of their dates from `i` on. */
  lemma FirstOfDateAfterPick(s: seq<ForecastSample>, i: nat, seen: set<string>, rest: seq<nat>, p: seq<nat>)
    requires i < |s| && DateOf(s[i]) in seen && p == [i] + rest
    requires MiddayWithFreshDates(s, rest, seen)
    requires FirstOfItsDate(s, rest, i + 1)
    ensures FirstOfItsDate(s, p, i)
  {
    forall k, j | 0 <= k < |p| && i <= j < p[k] && p[k] < |s| && IsMidday(s[j])
      ensures DateOf(s[j]) != DateOf(s[p[k]])
    {
      assert k > 0 && p[k] == rest[k - 1];
    }
  }

  /** One step of `PicksFirstOfDate`, after the sample at `i` is skipped. */
  lemma FirstOfDateAfterSkip(s: seq<ForecastSample>, i: nat, seen: set<string>, p: seq<nat>)
    requires i < |s| && (DateOf(s[i]) in seen || !IsMidday(s[i]))
    requires MiddayWithFreshDates(s, p, seen)
    requires FirstOfItsDate(s, p, i + 1)
    ensures FirstOfItsDate(s, p, i)
  {
  }

  /** A pick is the first midday sample of its date: no midday sample between
      `i` and the pick has the same date. */
  lemma {:induction false} PicksFirstOfDate(s: seq<ForecastSample>, i: nat, seen: set<string>, room: nat)
    ensures FirstOfItsDate(s, PicksFrom(s, i, seen, room), i)
    decreases |s| - i
  {
    if i >= |s| || room == 0 {
    } else if DateOf(s[i]) !in seen && IsMidday(s[i]) {
      var seen' := seen + {DateOf(s[i])};
      PicksFirstOfDate(s, i + 1, seen', room - 1);
      PicksFreshDates(s, i + 1, seen', room - 1);
      FirstOfDateAfterPick(s, i, seen', PicksFrom(s, i + 1, seen', room - 1), PicksFrom(s, i, seen, room));
    } else {
      PicksFirstOfDate(s, i + 1, seen, room);
      PicksFreshDates(s, i + 1, seen, room);
      FirstOfDateAfterSkip(s, i, seen, PicksFrom(s, i, seen, room));
    }
  }

  /** One step of `PicksComplete`: a midday sample after a fresh pick at `i`
      that the later picks `rest` leave out is also left out rightly by
      `[i] + rest`. */
  lemma PassedOverAfterPick(s: seq<ForecastSample>, i: nat, seen: set<string>, room: nat,
                            rest: seq<nat>, p: seq<nat>, j: nat)
    requires i < j < |s| && room > 0 && p == [i] + rest
    requires rest == PicksFrom(s, i + 1, seen + {DateOf(s[i])}, room - 1)
    requires DateOf(s[i]) !in seen && IsMidday(s[j]) && j !in rest
    requires NonePassedOver(s, rest, i + 1, seen + {DateOf(s[i])}, room - 1)
    ensures || DateOf(s[j]) in seen
            || (exists k :: 0 <= k < |p| && p[k] < j && DateOf(s[p[k]]) == DateOf(s[j]))
            || (|p| == room && p[room - 1] < j)
  {
    if DateOf(s[j]) == DateOf(s[i]) {
      assert p[0] < j && DateOf(s[p[0]]) == DateOf(s[j]);
    } else if DateOf(s[j]) in seen {
    } else if room - 1 == 0 {
      assert |p| == room && p[room - 1] == i;
    } else if exists k :: 0 <= k < |rest| && rest[k] < j && DateOf(s[rest[k]]) == DateOf(s[j]) {
      var k :| 0 <= k < |rest| && rest[k] < j && DateOf(s[rest[k]]) == DateOf(s[j]);
      assert p[k + 1] == rest[k];
    } else {
      assert |rest| == room - 1 && rest[room - 2] < j;
      assert p[room - 1] == rest[room - 2];
    }
  }

  /** One step of `PicksComplete`, after the sample at `i` is skipped. */
  lemma PassedOverAfterSkip(s: seq<ForecastSample>, i: nat, seen: set<string>, room: nat, p: seq<nat>)
    requires i < |s| && (DateOf(s[i]) in seen || !IsMidday(s[i]))
    requires NonePassedOver(s, p, i + 1, seen, room)
    ensures NonePassedOver(s, p, i, seen, room)
  {
  }

  /** Nothing qualifying is passed over by the picks. */
  lemma {:induction false} PicksComplete(s: seq<ForecastSample>, i: nat, seen: set<string>, room: nat)
    ensures NonePassedOver(s, PicksFrom(s, i, seen, room), i, seen, room)
    decreases |s| - i
  {
    var p := PicksFrom(s, i, seen, room);
    if i >= |s| || room == 0 {
    } else if DateOf(s[i]) !in seen && IsMidday(s[i]) {
      var seen' := seen + {DateOf(s[i])};
      var rest := PicksFrom(s, i + 1, seen', room - 1);
      PicksComplete(s, i + 1, seen', room - 1);
      assert p == [i] + rest;
      forall j | i <= j < |s| && IsMidday(s[j]) && j !in p
        ensures || DateOf(s[j]) in seen
                || (exists k :: 0 <= k < |p| && p[k] < j && DateOf(s[p[k]]) == DateOf(s[j]))
                || (|p| == room && p[room - 1] < j)
      {
        assert j != i && j !in rest;
        PassedOverAfterPick(s, i, seen, room, rest, p, j);
      }
    } else {
      PicksComplete(s, i + 1, seen, room);
      PassedOverAfterSkip(s, i, seen, room, p);
    }
  }

  /** What the day-picking rule promises for the whole sample list: at most
      five days, in upstream order, each a midday sample, no date twice, each
      the first midday sample of its date, and every midday sample left out
      either repeats a reported date or comes after the fifth day. */
  lemma DailyPicksSpec(s: seq<ForecastSample>)
    ensures |DailyPicks(s)| <= MaxDays
    ensures IncreasingWithin(DailyPicks(s), 0, |s|)
    ensures MiddayWithFreshDates(s, DailyPicks(s), {})
    ensures DistinctDates(s, DailyPicks(s))
    ensures FirstOfItsDate(s, DailyPicks(s), 0)
    ensures NonePassedOver(s, DailyPicks(s), 0, {}, MaxDays)
  {
    PicksOrdered(s, 0, {}, MaxDays);
    PicksFreshDates(s, 0, {}, MaxDays);
    PicksFirstOfDate(s, 0, {}, MaxDays);
    PicksComplete(s, 0, {}, MaxDays);
  }

  /** The entry reported for a picked sample with its formatted date. */
  function EntryOf(x: ForecastSample, day: string, units: string): ForecastEntry {
    ForecastEntry(day, x.temp, CurrentWeather.TempUnit(units), x.description, x.humidity, x.windSpeed.GetOr(0.0))
  }

  /** The entries of a forecast reply: one per picked sample, in order, or
      nothing at all when the date of some picked sample cannot be formatted. */
  function DailyEntries(s: seq<ForecastSample>, units: string, lt: LocalTime): (r: Option<seq<ForecastEntry>>)
    ensures r.Some? ==> |r.value| <= MaxDays
  {
    var p := DailyPicks(s);
    PicksOrdered(s, 0, {}, MaxDays);
    if forall k :: 0 <= k < |p| ==> lt.dayLabel(DateOf(s[p[k]])).Some? then
      Some(seq(|p|, k requires 0 <= k < |p| => EntryOf(s[p[k]], lt.dayLabel(DateOf(s[p[k]])).value, units)))
    else
      None
  }

  /** `entries` are the entries of the samples at `picked`, all of whose
      dates could be formatted. */
  ghost predicate EntriesOfIndexes(s: seq<ForecastSample>, picked: seq<nat>, entries: seq<ForecastEntry>,
                                   units: string, lt: LocalTime) {
    && |entries| == |picked|
    && (forall k :: 0 <= k < |picked| ==> picked[k] < |s|)
    && (forall k :: 0 <= k < |picked| ==> lt.dayLabel(DateOf(s[picked[k]])).Some?)
    && (forall k :: 0 <= k < |picked| ==>
          entries[k] == EntryOf(s[picked[k]], lt.dayLabel(DateOf(s[picked[k]])).value, units))
  }

  /** Appending one formatted pick keeps `EntriesOfIndexes`. */
  lemma EntriesOfIndexesAppend(s: seq<ForecastSample>, picked: seq<nat>, entries: seq<ForecastEntry>,
                               units: string, lt: LocalTime, i: nat)
    requires EntriesOfIndexes(s, picked, entries, units, lt)
    requires i < |s| && lt.dayLabel(DateOf(s[i])).Some?
    ensures EntriesOfIndexes(s, picked + [i], entries + [EntryOf(s[i], lt.dayLabel(DateOf(s[i])).value, units)], units, lt)
  {
  }

  /** The entries of the picks, once every picked date has been formatted. */
  lemma EntriesOfPicks(s: seq<ForecastSample>, units: string, lt: LocalTime, entries: seq<ForecastEntry>)
    requires EntriesOfIndexes(s, DailyPicks(s), entries, units, lt)
    ensures DailyEntries(s, units, lt) == Some(entries)
  {
    var p := DailyPicks(s);
    PicksOrdered(s, 0, {}, MaxDays);
    var built := seq(|p|, k requires 0 <= k < |p| => EntryOf(s[p[k]], lt.dayLabel(DateOf(s[p[k]])).value, units));
    assert built == entries;
  }

  /** No entries at all when the date of one pick cannot be formatted. */
  lemma NoEntriesWhenUnformattable(s: seq<ForecastSample>, units: string, lt: LocalTime, k: nat)
    requires k < |DailyPicks(s)| && DailyPicks(s)[k] < |s|
    requires lt.dayLabel(DateOf(s[DailyPicks(s)[k]])).None?
    ensures DailyEntries(s, units, lt).None?
  {
  }

  /** The loop's view of the picks, after a sample is picked at `i`. */
  lemma PickStep(s: seq<ForecastSample>, i: nat, seen: set<string>, picked: seq<nat>)
    requires i < |s| && |picked| < MaxDays
    requires DateOf(s[i]) !in seen && IsMidday(s[i])
    requires DailyPicks(s) == picked + PicksFrom(s, i, seen, MaxDays - |picked|)
    ensures DailyPicks(s) == (picked + [i]) + PicksFrom(s, i + 1, seen + {DateOf(s[i])}, MaxDays - |picked + [i]|)
    ensures |picked| < |DailyPicks(s)| && DailyPicks(s)[|picked|] == i
  {
    var rest := PicksFrom(s, i + 1, seen + {DateOf(s[i])}, MaxDays - |picked| - 1);
    assert PicksFrom(s, i, seen, MaxDays - |picked|) == [i] + rest;
    assert picked + ([i] + rest) == (picked + [i]) + rest;
  }

  /** The loop's view of the picks, after the sample at `i` is skipped. */
  lemma SkipStep(s: seq<ForecastSample>, i: nat, seen: set<string>, picked: seq<nat>)
    requires i < |s| && |picked| < MaxDays
    requires !(DateOf(s[i]) !in seen && IsMidday(s[i]))
    requires DailyPicks(s) == picked + PicksFrom(s, i, seen, MaxDays - |picked|)
    ensures DailyPicks(s) == picked + PicksFrom(s, i + 1, seen, MaxDays - |picked|)
  {
  }

  /** The selection loop of get_forecast_data, over the samples of one reply. */
  method SelectDailyForecasts(s: seq<ForecastSample>, units: string, lt: LocalTime)
    returns (r: Option<seq<ForecastEntry>>)
    ensures r == DailyEntries(s, units, lt)
  {
    var dailyForecasts: seq<ForecastEntry> := [];
    var seenDates: set<string> := {};
    ghost var picked: seq<nat> := [];
    for i := 0 to |s|
      invariant |picked| < MaxDays
      invariant DailyPicks(s) == picked + PicksFrom(s, i, seenDates, MaxDays - |picked|)
      invariant EntriesOfIndexes(s, picked, dailyForecasts, units, lt)
    {
      var dateStr := DateOf(s[i]);
      if dateStr !in seenDates && IsMidday(s[i]) {
        PickStep(s, i, seenDates, picked);
        seenDates := seenDates + {dateStr};
        var formatted := lt.dayLabel(dateStr);
        if formatted.None? {
          NoEntriesWhenUnformattable(s, units, lt, |picked|);
          return None;
        }
        EntriesOfIndexesAppend(s, picked, dailyForecasts, units, lt, i);
        dailyForecasts := dailyForecasts + [EntryOf(s[i], formatted.value, units)];
        picked := picked + [i];
        if |dailyForecasts| >= MaxDays {
          assert DailyPicks(s) == picked;
          break;
        }
      } else {
        SkipStep(s, i, seenDates, picked);
      }
    }
    assert DailyPicks(s) == picked;
    EntriesOfPicks(s, units, lt, dailyForecasts);
    return Some(dailyForecasts);
  }

  /** get_forecast_data, as a specification: resolve the city first (the
      forecast endpoint takes coordinates only), then pick the days of a
      successful forecast reply. */
  function ForecastFor(up: Upstream, lt: LocalTime, city: string, units: string): (t: Traced<Option<ForecastReport>>)
    ensures |t.calls| >= 1 && t.calls[0] == Geocode(city, ResolveLimit)
    ensures CoordinatesFrom(up.geocode(city, ResolveLimit)).None? <==> t.calls == [Geocode(city, ResolveLimit)]
    ensures CoordinatesFrom(up.geocode(city, ResolveLimit)).None? ==> t == Traced(None, [Geocode(city, ResolveLimit)])
    ensures var co := CoordinatesFrom(up.geocode(city, ResolveLimit));
      co.Some? ==> t.calls == [Geocode(city, ResolveLimit), ForecastByCoords(co.value.lat, co.value.lon, units)]
    ensures var co := CoordinatesFrom(up.geocode(city, ResolveLimit));
      t.value.Some? <==>
        && co.Some?
        && up.forecast(co.value.lat, co.value.lon, units).Ok?
        && DailyEntries(up.forecast(co.value.lat, co.value.lon, units).body, units, lt).Some?
    ensures t.value.Some? ==>
      var co := CoordinatesFrom(up.geocode(city, ResolveLimit));
      && co.Some?
      && t.calls == [Geocode(city, ResolveLimit), ForecastByCoords(co.value.lat, co.value.lon, units)]
      && up.forecast(co.value.lat, co.value.lon, units).Ok?
      && t.value.value.city == co.value.name
      && t.value.value.country == co.value.country
      && Some(t.value.value.entries) == DailyEntries(up.forecast(co.value.lat, co.value.lon, units).body, units, lt)
      && |t.value.value.entries| <= MaxDays
  {
    var geo := Geocode(city, ResolveLimit);
    var co := CoordinatesFrom(up.geocode(city, ResolveLimit));
    if co.None? then Traced(None, [geo])
    else
      var calls := [geo, ForecastByCoords(co.value.lat, co.value.lon, units)];
      match up.forecast(co.value.lat, co.value.lon, units)
      case Ok(samples) =>
        var entries := DailyEntries(samples, units, lt);
        if entries.None? then Traced(None, calls)
        else Traced(Some(ForecastReport(co.value.name, co.value.country, entries.value)), calls)
      case _ => Traced(None, calls)
  }

  /** get_forecast_data. */
  method GetForecastData(up: Upstream, lt: LocalTime, city: string, units: string)
    returns (r: Option<ForecastReport>, calls: seq<Call>)
    ensures Traced(r, calls) == ForecastFor(up, lt, city, units)
  {
    var coordinates := CoordinatesFrom(up.geocode(city, ResolveLimit));
    calls := [Geocode(city, ResolveLimit)];
    if coordinates.None? {
      return None, calls;
    }
    var co := coordinates.value;
    calls := calls + [ForecastByCoords(co.lat, co.lon, units)];
    var reply := up.forecast(co.lat, co.lon, units);
    if reply.Ok? {
      var forecasts := SelectDailyForecasts(reply.body, units, lt);
      if forecasts.None? {
        return None, calls;
      }
      return Some(ForecastReport(co.name, co.country, forecasts.value)), calls;
    }
    return None, calls;
  }
}
