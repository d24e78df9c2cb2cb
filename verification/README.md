# Formula 1 schedule service — a Dafny model

The service answers three HTTP requests. It returns the next race of the current
season, shown in a server's timezone. It returns the ranking of the latest
race. It stores a timezone per server. The model keeps the pure logic under the
Flask, `requests`, sqlite, `pytz` and `dateutil` glue. That logic has four parts:

- **Timezone store** (`timezone_store.dfy`). The `server_timezones` table is a
  `map<string, string>`. `Get` falls back to `"UTC"`. `Upsert` is
  `INSERT OR REPLACE`.
- **Schedule** (`schedule.dfy`). This part holds the next-race scan, which picks
  the first race in list order that starts strictly after `now`. It also holds
  `format_datetime` and the dictionary filter that drops sessions the weekend
  does not hold. Instants are integers. `parse(date, time)` stands for the
  `dateutil` parse. `fmt(instant, tz)` stands for `astimezone` followed by the
  two `strftime` calls. Both are parameters about which nothing is assumed.
- **Ranking** (`ranking.dfy`). The `{position, driver}` projection of the last
  race's results.
- **Handlers** (`api.dfy`). `NextRace` and `LatestResult` return a `Response`:
  either a 200 body or an error status with the source's message. `SetTimezone`
  returns such a response together with the new table.
  The upstream document arrives as a `Fetch` value. A failed fetch, meaning a
  `RequestException`, is the `FetchFailed` case. `pytz.timezone`'s verdict on a
  zone name is the `knownZone` parameter. `datetime.now` is the `now` parameter.

A JSON object is an ordered list of key/value entries. A missing field is `None`.
Python's `not x` on a string-or-None is `Blank`. An absent session block, which
`.get('FirstPractice', {})` turns into `{}`, is `Session(None, None)`.

The source answers a failed upstream fetch with status 500 (app.py:48, 113), and
the model follows the code.

## Model

| member | source | states |
|---|---|---|
| TimezoneStore.Get | app.py:26-32 | the stored zone for a server that has a row, `"UTC"` for one that has none |
| TimezoneStore.Upsert | app.py:144-149 | after `INSERT OR REPLACE` the key set gains the server. Its row holds the new zone. Every other row is unchanged. |
| TimezoneStore.GetAfterUpsert | app.py:146-147 | reading back a write gives the written zone. Every other server reads what it read before. |
| TimezoneStore.UpsertIdempotent | app.py:146-147 | writing the same row twice equals writing it once |
| TimezoneStore.UpsertLastWriteWins | app.py:146-147 | a second write for the same server replaces the first |
| TimezoneStore.UpsertStoredValueIsNoOp | app.py:146-147 | rewriting a row with its current value leaves the table equal to what it was |
| Schedule.FirstUpcomingFrom | app.py:53-57 | the scan from a position returns a race that starts after `now`, and every race it skipped has started. None means no remaining race is upcoming. |
| Schedule.FirstUpcoming | app.py:51-60 | the result is the first upcoming race in list order. None exactly when no race is upcoming, including the empty schedule. |
| Schedule.FirstUpcomingExactly | app.py:52-57 | the scan returns index `i` if and only if `i` is the first upcoming race (both directions) |
| Schedule.ChronologicalSplit | app.py:50-57 | on a chronological schedule every race before the chosen one has started and every race from it on is upcoming, so the chosen race is the earliest upcoming one |
| Schedule.DropNulls | app.py:98-99 | the filtered dictionary holds no None. An entry survives exactly when it was in the input with a non-None value. No key is added. |
| Schedule.DropNullsKeepsDistinct | app.py:99 | the filter keeps keys distinct |
| Schedule.LookupDropNulls | app.py:99 | after the filter every key reads as before, except that a key that held None is absent |
| Schedule.DropNullsAppend | app.py:99 | the filter preserves order: filtering a concatenation concatenates the filtered parts |
| Schedule.DropNullsKeepsClean | app.py:99 | an object without None passes unchanged, so the filter is idempotent |
| Schedule.LookupEntry | app.py:77-96 | in a dictionary with distinct keys, each entry's key reads as that entry's value |
| Schedule.FormatDateTime | app.py:66-74 | None exactly when the date or the time is missing or empty. Otherwise the parsed instant formatted in the server's zone. |
| Schedule.RawRaceInfoShape | app.py:77-96 | the unfiltered dictionary has the six keys `race_name`, `race`, `fp1`, `fp2`, `fp3`, `qualifying`, each once |
| Schedule.SessionSurvivesFilter | app.py:77-99 | after the filter a session's key is present if and only if the session is held, and then holds its formatted instant |
| Schedule.RaceInfo | app.py:76-99 | the answer always has `race_name`, has a session key if and only if that session has a date and a time, shows it in the server's zone, and never holds None |
| Ranking.FullName | app.py:121 | the driver name is the given name, one space, then the family name, and splits back into them |
| Ranking.Project | app.py:118-124 | the ranking has one record per result in the same order. Record `i` has result `i`'s position and `given + " " + family`. |
| Ranking.ProjectAppend | app.py:118-124 | projecting a concatenation concatenates the projections, so order is preserved |
| Api.NextRace | app.py:36-101 | a missing or empty `server_id` gives 400 whatever the schedule. A failed fetch gives 500. Once the fetch succeeds, the answer is 200 exactly when some race is upcoming, and it is otherwise 404 "No upcoming races found". A 200 body describes the first upcoming race in the server's stored zone. |
| Api.LatestResult | app.py:105-125 | a failed fetch gives 500. An empty race list gives 404 "No race results found". Otherwise the body is the first race's ranking, of equal length, record for record. |
| Api.SetTimezone | app.py:129-151 | a missing or empty field gives 400 and a zone `pytz` rejects gives 400, both with the table unchanged. Success happens exactly otherwise, with the confirmation message. On success the server reads the new zone and every other server reads what it read before. |
| Api.SetTimezoneKeepsZonesKnown | app.py:137-147 | since every zone is checked before it is written, a table that holds only known zones keeps doing so after any request |
| Api.StoredZoneIsKnown | app.py:62-63 | in such a table, with UTC known, the zone read for any server is known, so the lookup at app.py:63 does not fail |
| Api.SetTimezoneIdempotent | app.py:134-151 | repeating a request leaves the table and the answer as the first request left them |
| Api.RefusedSetKeepsZones | app.py:134-141 | a refused request answers 400 and every server reads the zone it read before |
| Api.NextRaceAfterSetTimezone | app.py:62-74 | after an accepted `set_timezone`, `next-race` for that server shows its sessions in the zone just stored |
| Api.NextRaceDefaultsToUtc | app.py:62-63 | a server with no stored zone sees its sessions in UTC |

## Left out

- HTTP plumbing: Flask routing, `request.args`, `request.get_json` and `jsonify` are framework I/O. Handlers take the request fields and return a `Response`, with `SetTimezone` also returning the new table. A body that is not JSON, and a field that is JSON but not a string, are not modelled.
- Network access (app.py:42-48, 107-115): `requests.get`, `raise_for_status` and `response.json()` become the `Fetch` value. A `KeyError` on a malformed envelope is not caught by the source, and the model does not cover it.
- Missing `date`, `time` or `raceName` keys on a race record: the source indexes them directly and fails uncaught. The model's `Race` always carries them.
- A `raceName` of JSON `null`: the source's filter would drop it. The model's race name is always a string.
- A session block of JSON `null` (for example `"FirstPractice": null`): `.get('FirstPractice', {})` returns `None`, and the following `.get('date')` raises an uncaught `AttributeError` (app.py:81-94). `Session` cannot represent this case.
- Date parsing: `dateutil.parser.parse` becomes the `parse` parameter. An unparsable date, which fails the request uncaught in the source, is not modelled.
- Naive times: `parse` always yields an absolute instant. For an upstream time with no zone suffix, `parser.parse` returns a naive datetime. The comparison with the aware `now` (app.py:55) then raises an uncaught `TypeError`, and `astimezone` (app.py:70) would read such a time in the host's local zone. Neither behaviour is modelled.
- Malformed result records (app.py:120-121): a record without `position`, `Driver`, `givenName` or `familyName` raises an uncaught `KeyError`. A JSON `null` in `givenName` or `familyName` prints as "None". A `null` `position` is passed through as JSON `null`. A `null` `Driver` raises an uncaught `TypeError` (app.py:120-121). `Finisher` always carries strings, so none of these cases is modelled.
- Timezone conversion: `astimezone` and `strftime` become the `fmt` parameter. `pytz.timezone` becomes the `knownZone` parameter.
- Re-validation of the stored zone (app.py:63): every zone is checked when it is written. `Api.SetTimezoneKeepsZonesKnown` and `Api.StoredZoneIsKnown` prove that the lookup cannot fail on a table built only through `SetTimezone`, so it is not repeated. `NextRace` itself accepts any table. For a zone that `knownZone` rejects, the source would raise an uncaught `UnknownTimeZoneError`, and the model does not represent that.
- Storage: sqlite, `init_db`, commit and close are disk I/O. The table is an in-memory map. A storage failure is not modelled.
- The clock: `datetime.now(pytz.UTC)` is the `now` parameter.
- The `__main__` block that reads the port from the environment.
