/**
 The three request handlers, with the framework, the network, the clock and
 the database taken out: a handler receives the request fields, the
 upstream document (or the fetch failure), the current instant and the
 timezone table, and returns its response (and, for `set_timezone`, the
 new table).
 */
module Api {

  import opened Common
  import opened TimezoneStore
  import opened Schedule
  import opened Ranking

  const ServerIdRequired: string := "server_id is required"
  const ScheduleFetchFailed: string := "Failed to fetch race schedule from Jolpica API"
  const NoUpcomingRaces: string := "No upcoming races found"
  const ResultsFetchFailed: string := "Failed to fetch race results from Jolpica API"
  const NoRaceResults: string := "No race results found"
  const FieldsRequired: string := "server_id and timezone are required"
  const InvalidTimezone: string := "Invalid timezone"

  // ---------------------------------------------------------------------
  // GET /next-race
  // ---------------------------------------------------------------------

  /** `get_next_race`. A missing or empty `server_id` is refused before the
      schedule is looked at; a failed fetch is a 500; a season with no race
      still to start is a 404; otherwise the answer describes the first
      upcoming race in the server's stored zone (UTC when none is stored). */
  function NextRace(store: Store, serverId: Option<string>, schedule: Fetch<seq<Race>>, now: int,
                    parse: (string, string) -> int, fmt: (int, string) -> LocalTime): (r: Response<Object>)
    ensures Blank(serverId) ==> r == Error(400, ServerIdRequired)
    ensures !Blank(serverId) && schedule.FetchFailed? ==> r == Error(500, ScheduleFetchFailed)
    ensures !Blank(serverId) && schedule.Fetched? ==>
      (r.Ok? <==> exists j :: 0 <= j < |schedule.value| && Upcoming(schedule.value[j], now, parse))
    ensures !Blank(serverId) && schedule.Fetched? && !r.Ok? ==> r == Error(404, NoUpcomingRaces)
    ensures r.Ok? ==> && !Blank(serverId) && schedule.Fetched?
                      && exists i :: && IsFirstUpcoming(schedule.value, now, parse, i)
                                     && DescribesRace(r.body, schedule.value[i], Get(store, serverId.value), parse, fmt)
  {
    if Blank(serverId) then Error(400, ServerIdRequired)
    else match schedule
      case FetchFailed => Error(500, ScheduleFetchFailed)
      case Fetched(races) =>
        match FirstUpcoming(races, now, parse)
        case None => Error(404, NoUpcomingRaces)
        case Some(i) => Ok(RaceInfo(races[i], Get(store, serverId.value), parse, fmt))
  }

  // ---------------------------------------------------------------------
  // GET /latest-result
  // ---------------------------------------------------------------------

  /** `get_latest_result`. A failed fetch is a 500; an empty race list (the
      `IndexError` on `Races[0]`) is a 404; otherwise the ranking of the
      first race's results, record for record. */
  function LatestResult(upstream: Fetch<seq<RaceResults>>): (r: Response<seq<Place>>)
    ensures upstream.FetchFailed? ==> r == Error(500, ResultsFetchFailed)
    ensures upstream.Fetched? && |upstream.value| == 0 ==> r == Error(404, NoRaceResults)
    ensures upstream.Fetched? && |upstream.value| > 0 ==>
      && r.Ok?
      && |r.body| == |upstream.value[0].results|
      && forall i :: 0 <= i < |r.body| ==>
           var f := upstream.value[0].results[i];
           r.body[i] == Place(f.position, f.givenName + " " + f.familyName)
  {
    match upstream
    case FetchFailed => Error(500, ResultsFetchFailed)
    case Fetched(races) =>
      if |races| == 0 then Error(404, NoRaceResults)
      else Ok(Project(races[0].results))
  }

  // ---------------------------------------------------------------------
  // POST /set-timezone
  // ---------------------------------------------------------------------

  /** What `set_timezone` answers, and the table it leaves behind. */
  datatype SetOutcome = SetOutcome(response: Response<string>, store: Store)

  /** `set_timezone`. Both fields must be present and non-empty and the zone
      must be one `knownZone` (standing for `pytz.timezone`) accepts; a
      refused request leaves the table as it was, an accepted one upserts
      the row for the server. */
  function SetTimezone(store: Store, serverId: Option<string>, timezone: Option<string>,
                       knownZone: string -> bool): (o: SetOutcome)
    ensures Blank(serverId) || Blank(timezone) ==> o == SetOutcome(Error(400, FieldsRequired), store)
    ensures !Blank(serverId) && !Blank(timezone) && !knownZone(timezone.value) ==>
      o == SetOutcome(Error(400, InvalidTimezone), store)
    ensures o.response.Ok? <==> !Blank(serverId) && !Blank(timezone) && knownZone(timezone.value)
    ensures o.response.Ok? ==>
      && o.response.body == "Timezone set to " + timezone.value + " for server " + serverId.value
      && Get(o.store, serverId.value) == timezone.value
      && (forall k :: k != serverId.value ==> Get(o.store, k) == Get(store, k))
      && o.store.Keys == store.Keys + {serverId.value}
  {
    if Blank(serverId) || Blank(timezone) then SetOutcome(Error(400, FieldsRequired), store)
    else if !knownZone(timezone.value) then SetOutcome(Error(400, InvalidTimezone), store)
    else
      var id, tz := serverId.value, timezone.value;
      GetAfterUpsert(store, id, tz);
      SetOutcome(Ok("Timezone set to " + tz + " for server " + id), Upsert(store, id, tz))
  }

  /** Every zone in the table is one `knownZone` accepts. */
  predicate ZonesKnown(store: Store, knownZone: string -> bool) {
    forall k :: k in store ==> knownZone(store[k])
  }

  /** Zones are checked when they are written, so a table that holds only
      known zones still does after any `set_timezone` request, accepted or
      refused. */
  lemma SetTimezoneKeepsZonesKnown(store: Store, serverId: Option<string>, timezone: Option<string>,
                                   knownZone: string -> bool)
    requires ZonesKnown(store, knownZone)
    ensures ZonesKnown(SetTimezone(store, serverId, timezone, knownZone).store, knownZone)
  {
  }

  /** In a table of known zones, with UTC itself known, the zone read for any
      server is known, so the `pytz.timezone` lookup before formatting
      cannot fail. */
  lemma StoredZoneIsKnown(store: Store, knownZone: string -> bool, serverId: string)
    requires ZonesKnown(store, knownZone)
    requires knownZone(DefaultZone)
    ensures knownZone(Get(store, serverId))
  {
  }

  /** Sending the same request twice leaves the table as the first one left
      it, and both are answered alike. */
  lemma SetTimezoneIdempotent(store: Store, serverId: Option<string>, timezone: Option<string>,
                              knownZone: string -> bool)
    ensures var once := SetTimezone(store, serverId, timezone, knownZone);
      SetTimezone(once.store, serverId, timezone, knownZone) == once
  {
  }

  /** A refused request never changes the zone any server reads. */
  lemma RefusedSetKeepsZones(store: Store, serverId: Option<string>, timezone: Option<string>,
                             knownZone: string -> bool, id: string)
    requires SetTimezone(store, serverId, timezone, knownZone).response.Error?
    ensures SetTimezone(store, serverId, timezone, knownZone).response.Status() == 400
    ensures Get(SetTimezone(store, serverId, timezone, knownZone).store, id) == Get(store, id)
  {
  }

  /** After an accepted `set_timezone`, `next-race` for that server answers
      in the zone just stored. */
  lemma NextRaceAfterSetTimezone(store: Store, serverId: string, tz: string, knownZone: string -> bool,
                                 schedule: Fetch<seq<Race>>, now: int,
                                 parse: (string, string) -> int, fmt: (int, string) -> LocalTime)
    requires SetTimezone(store, Some(serverId), Some(tz), knownZone).response.Ok?
    ensures var r := NextRace(SetTimezone(store, Some(serverId), Some(tz), knownZone).store,
                              Some(serverId), schedule, now, parse, fmt);
      r.Ok? ==> exists i :: && IsFirstUpcoming(schedule.value, now, parse, i)
                            && DescribesRace(r.body, schedule.value[i], tz, parse, fmt)
  {
  }

  /** A server that never stored a zone is answered in UTC. */
  lemma NextRaceDefaultsToUtc(store: Store, serverId: string, schedule: Fetch<seq<Race>>, now: int,
                              parse: (string, string) -> int, fmt: (int, string) -> LocalTime)
    requires serverId !in store
    ensures var r := NextRace(store, Some(serverId), schedule, now, parse, fmt);
      r.Ok? ==> exists i :: && IsFirstUpcoming(schedule.value, now, parse, i)
                            && DescribesRace(r.body, schedule.value[i], "UTC", parse, fmt)
  {
  }
}
