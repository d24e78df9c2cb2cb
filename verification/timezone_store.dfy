/**
 The per-server timezone table (`server_timezones`, keyed by `server_id`),
 held as a map from server id to timezone name instead of a sqlite file.
 */
module TimezoneStore {

  type Store = map<string, string>

  /** The zone used for a server that never stored a preference. */
  const DefaultZone: string := "UTC"

  /** `get_server_timezone`: the stored zone of `serverId`, or UTC when the
      table has no row for it. */
  function Get(store: Store, serverId: string): (tz: string)
    ensures serverId in store ==> tz == store[serverId]
    ensures serverId !in store ==> tz == DefaultZone
  {
    if serverId in store then store[serverId] else DefaultZone
  }

  /** `INSERT OR REPLACE`: the row for `serverId` now holds `tz`; a row that
      was there before is replaced, and no other row is touched. */
  function Upsert(store: Store, serverId: string, tz: string): (store': Store)
    ensures store'.Keys == store.Keys + {serverId}
    ensures serverId in store' && store'[serverId] == tz
    ensures forall k :: k in store && k != serverId ==> k in store' && store'[k] == store[k]
  {
    store[serverId := tz]
  }

  /** Reading back a written row gives what was written; every other server
      reads what it read before (its stored zone or the UTC default). */
  lemma GetAfterUpsert(store: Store, serverId: string, tz: string)
    ensures Get(Upsert(store, serverId, tz), serverId) == tz
    ensures forall other :: other != serverId ==> Get(Upsert(store, serverId, tz), other) == Get(store, other)
  {
  }

  /** Writing the same row twice leaves the table as the first write left it. */
  lemma UpsertIdempotent(store: Store, serverId: string, tz: string)
    ensures Upsert(Upsert(store, serverId, tz), serverId, tz) == Upsert(store, serverId, tz)
  {
  }

  /** A later write for the same server wins over an earlier one. */
  lemma UpsertLastWriteWins(store: Store, serverId: string, first: string, second: string)
    ensures Upsert(Upsert(store, serverId, first), serverId, second) == Upsert(store, serverId, second)
  {
  }

  /** Rewriting a row with the value it already holds changes nothing. */
  lemma UpsertStoredValueIsNoOp(store: Store, serverId: string)
    requires serverId in store
    ensures Upsert(store, serverId, Get(store, serverId)) == store
  {
  }
}
