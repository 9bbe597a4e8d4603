// Idempotency keys (src/persistence/idempotency.ts): one row per (tenant, key), owned by the request
// that inserted it until it completes or abandons it.

module Idempotency {
  import opened Base

  /** Tenant and client key. */
  type Slot = (nat, nat)

  datatype Response = Response(status: nat, body: nat)

  datatype Row = Row(hash: nat, response: Option<Response>, expiresAt: nat)

  datatype Claimed = Owner | Cached(response: Response) | Conflict | InProgress

  const LIFETIME: nat := 86_400_000

  /** Expired rows of the slot are deleted before the insert is tried. */
  function Unexpired(rows: map<Slot, Row>, k: Slot, now: nat): map<Slot, Row> {
    if k in rows && rows[k].expiresAt <= now then rows - {k} else rows
  }

  function Claim(rows: map<Slot, Row>, k: Slot, hash: nat, now: nat): (map<Slot, Row>, Claimed) {
    var live := Unexpired(rows, k, now);
    if k !in live then (live[k := Row(hash, None, now + LIFETIME)], Owner)
    else if live[k].hash != hash then (live, Conflict)
    else if live[k].response.None? then (live, InProgress)
    else (live, Cached(live[k].response.value))
  }

  /** UPDATE ... WHERE request_hash = ? AND status_code IS NULL. */
  function Complete(rows: map<Slot, Row>, k: Slot, hash: nat, response: Response): map<Slot, Row> {
    if k in rows && rows[k].hash == hash && rows[k].response.None?
    then rows[k := rows[k].(response := Some(response))] else rows
  }

  /** DELETE ... WHERE request_hash = ? AND status_code IS NULL. */
  function Abandon(rows: map<Slot, Row>, k: Slot, hash: nat): map<Slot, Row> {
    if k in rows && rows[k].hash == hash && rows[k].response.None? then rows - {k} else rows
  }

  class IdempotencyTable {
    var keys: map<Slot, Row>

    constructor ()
      ensures keys == map[]
    {
      keys := map[];
    }

    method ClaimKey(k: Slot, hash: nat, now: nat) returns (c: Claimed)
      modifies this
      ensures (keys, c) == Claim(old(keys), k, hash, now)
    {
      if k in keys && keys[k].expiresAt <= now {
        keys := keys - {k};
      }
      if k !in keys {
        keys := keys[k := Row(hash, None, now + LIFETIME)];
        return Owner;
      }
      var row := keys[k];
      if row.hash != hash {
        return Conflict;
      }
      if row.response.None? {
        return InProgress;
      }
      return Cached(row.response.value);
    }

    method CompleteKey(k: Slot, hash: nat, response: Response)
      modifies this
      ensures keys == Complete(old(keys), k, hash, response)
    {
      if k in keys && keys[k].hash == hash && keys[k].response.None? {
        keys := keys[k := keys[k].(response := Some(response))];
      }
    }

    method AbandonKey(k: Slot, hash: nat)
      modifies this
      ensures keys == Abandon(old(keys), k, hash)
    {
      if k in keys && keys[k].hash == hash && keys[k].response.None? {
        keys := keys - {k};
      }
    }
  }

  /** Past its lifetime a key can have two owners at once, and the late one completes the other's row. */
  lemma ExpiredKeyTwoOwners(k: Slot, hash: nat, first: Response)
    ensures var (rows, a) := Claim(map[], k, hash, 0);
            var (again, b) := Claim(rows, k, hash, LIFETIME);
            && a == Owner && b == Owner
            && again[k].response == None
            && Complete(again, k, hash, first)[k].response == Some(first)
  {
  }
}
