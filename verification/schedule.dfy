/**
 The schedule side of `get_next_race`: choosing the next race from the
 season's schedule, formatting its sessions in a server's timezone, and
 dropping the sessions the race weekend does not hold.

 Dates are abstracted: `parse(date, time)` stands for `dateutil`'s parse of
 "date time" and yields an instant (an integer, later is larger), and
 `fmt(instant, tz)` stands for `astimezone(tz)` followed by the two
 `strftime` calls.
 */
module Schedule {

  import opened Common

  /** The date and time strings of one session block of a race weekend, as
      read with `.get('date')` and `.get('time')`. A block the upstream
      record does not carry reads as `Session(None, None)`. */
  datatype Session = Session(date: Option<string>, time: Option<string>)

  /** One race of the season's schedule. The race's own date and time are
      read with `race['date']` and `race['time']`, so they are always there. */
  datatype Race = Race(
    name: string,
    date: string,
    time: string,
    fp1: Session,
    fp2: Session,
    fp3: Session,
    qualifying: Session)

  /** A session as shown to a server: `%Y-%m-%d` and `%H:%M:%S %Z` in its zone. */
  datatype LocalTime = LocalTime(date: string, time: string)

  /** The values the race-info dictionary can hold. */
  datatype Value = Null | Text(text: string) | When(at: LocalTime)

  /** A JSON object as an ordered list of key/value entries. */
  type Object = seq<(string, Value)>

  // ---------------------------------------------------------------------
  // Choosing the next race
  // ---------------------------------------------------------------------

  /** The instant the race starts. */
  function Start(race: Race, parse: (string, string) -> int): int {
    parse(race.date, race.time)
  }

  /** A race is upcoming when it starts strictly after `now`. */
  predicate Upcoming(race: Race, now: int, parse: (string, string) -> int) {
    Start(race, parse) > now
  }

  /** Index `i` is the first upcoming race of `races` in list order. */
  predicate IsFirstUpcoming(races: seq<Race>, now: int, parse: (string, string) -> int, i: int) {
    && 0 <= i < |races|
    && Upcoming(races[i], now, parse)
    && forall j :: 0 <= j < i ==> !Upcoming(races[j], now, parse)
  }

  /** The scan loop from position `from` on: the first upcoming race at or
      after `from`, or None when every remaining race has started. */
  function FirstUpcomingFrom(races: seq<Race>, now: int, parse: (string, string) -> int, from: nat): (r: Option<nat>)
    requires from <= |races|
    ensures r.Some? ==> from <= r.value < |races| && Upcoming(races[r.value], now, parse)
    ensures r.Some? ==> forall j :: from <= j < r.value ==> !Upcoming(races[j], now, parse)
    ensures r.None? ==> forall j :: from <= j < |races| ==> !Upcoming(races[j], now, parse)
    decreases |races| - from
  {
    if from == |races| then None
    else if Upcoming(races[from], now, parse) then Some(from)
    else FirstUpcomingFrom(races, now, parse, from + 1)
  }

  /** The `for race in races: ... break` scan: the first race in list order
      that starts after `now`; None exactly when no race does (in
      particular for an empty schedule). */
  function FirstUpcoming(races: seq<Race>, now: int, parse: (string, string) -> int): (r: Option<nat>)
    ensures r.Some? ==> IsFirstUpcoming(races, now, parse, r.value)
    ensures r.None? <==> forall j :: 0 <= j < |races| ==> !Upcoming(races[j], now, parse)
  {
    FirstUpcomingFrom(races, now, parse, 0)
  }

  /** The scan picks index `i` if and only if `i` is the first upcoming race. */
  lemma FirstUpcomingExactly(races: seq<Race>, now: int, parse: (string, string) -> int, i: int)
    ensures FirstUpcoming(races, now, parse) == Some(i) <==> IsFirstUpcoming(races, now, parse, i)
  {
  }

  /** The schedule is in chronological order. */
  predicate Chronological(races: seq<Race>, parse: (string, string) -> int) {
    forall i, j :: 0 <= i <= j < |races| ==> Start(races[i], parse) <= Start(races[j], parse)
  }

  /** On a chronological schedule the scan splits the season in two: every
      race before the chosen one has started and every race from it on is
      still to come, so the chosen race is the earliest upcoming one. */
  lemma ChronologicalSplit(races: seq<Race>, now: int, parse: (string, string) -> int)
    requires Chronological(races, parse)
    requires FirstUpcoming(races, now, parse).Some?
    ensures var i := FirstUpcoming(races, now, parse).value;
      && (forall j :: 0 <= j < i ==> !Upcoming(races[j], now, parse))
      && (forall j :: i <= j < |races| ==> Upcoming(races[j], now, parse))
      && (forall j :: 0 <= j < |races| && Upcoming(races[j], now, parse) ==> Start(races[i], parse) <= Start(races[j], parse))
  {
  }

  // ---------------------------------------------------------------------
  // Objects as ordered key/value lists
  // ---------------------------------------------------------------------

  /** The keys of an object. */
  function ObjectKeys(obj: Object): set<string>
    decreases |obj|
  {
    if |obj| == 0 then {} else {obj[0].0} + ObjectKeys(obj[1..])
  }

  /** No key occurs twice, as in a Python dictionary. */
  predicate DistinctKeys(obj: Object)
    decreases |obj|
  {
    |obj| == 0 || (obj[0].0 !in ObjectKeys(obj[1..]) && DistinctKeys(obj[1..]))
  }

  /** No entry holds None. */
  predicate NoNulls(obj: Object) {
    forall i :: 0 <= i < |obj| ==> obj[i].1 != Null
  }

  /** `obj.get(key)`: the value stored under `key`, None when the key is absent. */
  function Lookup(obj: Object, key: string): (r: Option<Value>)
    ensures r.Some? <==> key in ObjectKeys(obj)
    ensures r.Some? ==> (key, r.value) in obj
    decreases |obj|
  {
    if |obj| == 0 then None
    else if obj[0].0 == key then Some(obj[0].1)
    else Lookup(obj[1..], key)
  }

  /** In an object with distinct keys, the key of entry `i` reads as that
      entry's value. */
  lemma {:induction false} LookupEntry(obj: Object, i: nat)
    requires DistinctKeys(obj)
    requires i < |obj|
    ensures Lookup(obj, obj[i].0) == Some(obj[i].1)
    decreases i
  {
    if i > 0 {
      assert obj[1..][i - 1] == obj[i];
      LookupEntry(obj[1..], i - 1);
    }
  }

  /** The dictionary filter that removes every entry holding None and keeps
      the remaining entries in their original order. */
  function DropNulls(obj: Object): (r: Object)
    ensures NoNulls(r)
    ensures forall e :: e in r <==> e in obj && e.1 != Null
    ensures ObjectKeys(r) <= ObjectKeys(obj)
    ensures |r| <= |obj|
    decreases |obj|
  {
    if |obj| == 0 then []
    else if obj[0].1 == Null then DropNulls(obj[1..])
    else [obj[0]] + DropNulls(obj[1..])
  }

  /** Dropping entries keeps the keys distinct. */
  lemma {:induction false} DropNullsKeepsDistinct(obj: Object)
    requires DistinctKeys(obj)
    ensures DistinctKeys(DropNulls(obj))
    decreases |obj|
  {
    if |obj| > 0 {
      DropNullsKeepsDistinct(obj[1..]);
      if obj[0].1 != Null {
        assert DropNulls(obj)[1..] == DropNulls(obj[1..]);
      }
    }
  }

  /** After the filter a key reads as before, except that a key that held
      None is gone. */
  lemma {:induction false} LookupDropNulls(obj: Object, key: string)
    requires DistinctKeys(obj)
    ensures Lookup(DropNulls(obj), key) == if Lookup(obj, key) == Some(Null) then None else Lookup(obj, key)
    decreases |obj|
  {
    if |obj| > 0 {
      LookupDropNulls(obj[1..], key);
      if obj[0].1 != Null {
        assert DropNulls(obj)[0] == obj[0];
        assert DropNulls(obj)[1..] == DropNulls(obj[1..]);
      } else if obj[0].0 == key {
        assert key !in ObjectKeys(obj[1..]);
      }
    }
  }

  /** The filter works entry by entry: filtering a concatenation is the
      concatenation of the filtered parts, so the order is preserved. */
  lemma {:induction false} DropNullsAppend(a: Object, b: Object)
    ensures DropNulls(a + b) == DropNulls(a) + DropNulls(b)
    decreases |a|
  {
    if |a| > 0 {
      assert (a + b)[0] == a[0];
      assert (a + b)[1..] == a[1..] + b;
      DropNullsAppend(a[1..], b);
    } else {
      assert a + b == b;
    }
  }

  /** An object without None values passes the filter unchanged, so the
      filter is idempotent. */
  lemma {:induction false} DropNullsKeepsClean(obj: Object)
    requires NoNulls(obj)
    ensures DropNulls(obj) == obj
    decreases |obj|
  {
    if |obj| > 0 {
      assert obj[0].1 != Null;
      DropNullsKeepsClean(obj[1..]);
    }
  }

  // ---------------------------------------------------------------------
  // Formatting a race weekend
  // ---------------------------------------------------------------------

  /** A session is held when both its date and its time are non-empty. */
  predicate Held(s: Session) {
    !Blank(s.date) && !Blank(s.time)
  }

  /** The race itself as a session block. */
  function RaceSession(race: Race): Session {
    Session(Some(race.date), Some(race.time))
  }

  /** `format_datetime`: None when the date or the time is missing or empty;
      otherwise the session's instant shown in zone `tz`. */
  function FormatDateTime(date: Option<string>, time: Option<string>, tz: string,
                          parse: (string, string) -> int, fmt: (int, string) -> LocalTime): (r: Option<LocalTime>)
    ensures r.None? <==> Blank(date) || Blank(time)
    ensures r.Some? ==> r.value == fmt(parse(date.value, time.value), tz)
  {
    if Blank(date) || Blank(time) then None
    else Some(fmt(parse(date.value, time.value), tz))
  }

  /** The dictionary value of a formatted session: None stays None. */
  function SessionValue(s: Session, tz: string, parse: (string, string) -> int, fmt: (int, string) -> LocalTime): Value {
    match FormatDateTime(s.date, s.time, tz, parse, fmt)
    case None => Null
    case Some(t) => When(t)
  }

  /** The six keys of the race-info dictionary. */
  const InfoKeys: set<string> := {"race_name", "race", "fp1", "fp2", "fp3", "qualifying"}

  /** The `race_info` dictionary before the None values are removed. */
  function RawRaceInfo(race: Race, tz: string, parse: (string, string) -> int, fmt: (int, string) -> LocalTime): Object {
    [ ("race_name", Text(race.name)),
      ("race", SessionValue(RaceSession(race), tz, parse, fmt)),
      ("fp1", SessionValue(race.fp1, tz, parse, fmt)),
      ("fp2", SessionValue(race.fp2, tz, parse, fmt)),
      ("fp3", SessionValue(race.fp3, tz, parse, fmt)),
      ("qualifying", SessionValue(race.qualifying, tz, parse, fmt)) ]
  }

  /** `obj` shows session `s` under `key` exactly as the server should see
      it: the key is present if and only if the session is held, and then
      holds the session's instant formatted in `tz`. */
  predicate Shows(obj: Object, key: string, s: Session, tz: string,
                  parse: (string, string) -> int, fmt: (int, string) -> LocalTime) {
    && (key in ObjectKeys(obj) <==> Held(s))
    && (Held(s) ==> Lookup(obj, key) == Some(When(fmt(parse(s.date.value, s.time.value), tz))))
  }

  /** `obj` is the answer for `race` in zone `tz`: distinct keys drawn from
      the race-info keys, no None value, the race name always present, and
      each of the five sessions shown as `Shows` says. */
  predicate DescribesRace(obj: Object, race: Race, tz: string,
                          parse: (string, string) -> int, fmt: (int, string) -> LocalTime) {
    && DistinctKeys(obj)
    && NoNulls(obj)
    && ObjectKeys(obj) <= InfoKeys
    && Lookup(obj, "race_name") == Some(Text(race.name))
    && Shows(obj, "race", RaceSession(race), tz, parse, fmt)
    && Shows(obj, "fp1", race.fp1, tz, parse, fmt)
    && Shows(obj, "fp2", race.fp2, tz, parse, fmt)
    && Shows(obj, "fp3", race.fp3, tz, parse, fmt)
    && Shows(obj, "qualifying", race.qualifying, tz, parse, fmt)
  }

  /** The raw dictionary's keys are the six race-info keys, each once. */
  lemma RawRaceInfoShape(race: Race, tz: string, parse: (string, string) -> int, fmt: (int, string) -> LocalTime)
    ensures DistinctKeys(RawRaceInfo(race, tz, parse, fmt))
    ensures ObjectKeys(RawRaceInfo(race, tz, parse, fmt)) == InfoKeys
  {
    var raw := RawRaceInfo(race, tz, parse, fmt);
    assert ObjectKeys(raw[6..]) == {};
    assert ObjectKeys(raw[5..]) == {"qualifying"} by { assert raw[5..][1..] == raw[6..]; }
    assert ObjectKeys(raw[4..]) == {"fp3", "qualifying"} by { assert raw[4..][1..] == raw[5..]; }
    assert ObjectKeys(raw[3..]) == {"fp2", "fp3", "qualifying"} by { assert raw[3..][1..] == raw[4..]; }
    assert ObjectKeys(raw[2..]) == {"fp1", "fp2", "fp3", "qualifying"} by { assert raw[2..][1..] == raw[3..]; }
    assert ObjectKeys(raw[1..]) == {"race", "fp1", "fp2", "fp3", "qualifying"} by { assert raw[1..][1..] == raw[2..]; }
    assert raw[0..][1..] == raw[1..];
    assert DistinctKeys(raw[5..]) by { assert raw[5..][1..] == raw[6..]; }
    assert DistinctKeys(raw[4..]) by { assert raw[4..][1..] == raw[5..]; }
    assert DistinctKeys(raw[3..]) by { assert raw[3..][1..] == raw[4..]; }
    assert DistinctKeys(raw[2..]) by { assert raw[2..][1..] == raw[3..]; }
    assert DistinctKeys(raw[1..]) by { assert raw[1..][1..] == raw[2..]; }
  }

  /** A session keeps its key through the filter exactly when it is held. */
  lemma SessionSurvivesFilter(race: Race, key: string, s: Session, tz: string,
                              parse: (string, string) -> int, fmt: (int, string) -> LocalTime)
    requires Lookup(RawRaceInfo(race, tz, parse, fmt), key) == Some(SessionValue(s, tz, parse, fmt))
    requires DistinctKeys(RawRaceInfo(race, tz, parse, fmt))
    ensures Shows(DropNulls(RawRaceInfo(race, tz, parse, fmt)), key, s, tz, parse, fmt)
  {
    LookupDropNulls(RawRaceInfo(race, tz, parse, fmt), key);
  }

  /** The body of `get_next_race` after the scan: build the dictionary in
      zone `tz` and drop the sessions that are not held. */
  function RaceInfo(race: Race, tz: string, parse: (string, string) -> int, fmt: (int, string) -> LocalTime): (obj: Object)
    ensures DescribesRace(obj, race, tz, parse, fmt)
  {
    var raw := RawRaceInfo(race, tz, parse, fmt);
    RawRaceInfoShape(race, tz, parse, fmt);
    DropNullsKeepsDistinct(raw);
    LookupEntry(raw, 0);
    LookupDropNulls(raw, "race_name");
    LookupEntry(raw, 1);
    SessionSurvivesFilter(race, "race", RaceSession(race), tz, parse, fmt);
    LookupEntry(raw, 2);
    SessionSurvivesFilter(race, "fp1", race.fp1, tz, parse, fmt);
    LookupEntry(raw, 3);
    SessionSurvivesFilter(race, "fp2", race.fp2, tz, parse, fmt);
    LookupEntry(raw, 4);
    SessionSurvivesFilter(race, "fp3", race.fp3, tz, parse, fmt);
    LookupEntry(raw, 5);
    SessionSurvivesFilter(race, "qualifying", race.qualifying, tz, parse, fmt);
    DropNulls(raw)
  }
}
