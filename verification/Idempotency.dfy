/** Idempotency keys of API requests. The request hash is an uninterpreted integer. */
module Idempotency {
  import opened Tables
  import opened Sessions

  const TTL_SECONDS := 24 * 60 * 60

  predicate Expired(row: KeyRow, now: int) {
    row.expiresAt <= now
  }

  /** The key may be (re)reserved. */
  predicate Free(db: Db, key: string, now: int) {
    key in db.keys ==> Expired(db.keys[key], now)
  }

  function WithKey(db: Db, key: string, hash: int, now: int): Db {
    db.(keys := db.keys[key := KeyRow(hash, now + TTL_SECONDS, None)])
  }

  datatype Start = Reserved | Conflict | InProgress | Stored(response: OrderRead)

  function StartOutcome(db: Db, key: string, hash: int, now: int): Start {
    if Free(db, key, now) then Reserved
    else if db.keys[key].hash != hash then Conflict
    else if db.keys[key].response.None? then InProgress
    else Stored(db.keys[key].response.value)
  }

  function WithResponse(db: Db, key: string, response: OrderRead): Db
    requires key in db.keys
  {
    db.(keys := db.keys[key := db.keys[key].(response := Some(response))])
  }

  class IdempotencyService {
    const session: Session

    constructor (session: Session)
      ensures this.session == session
    {
      this.session := session;
    }

    method StartRequest(key: string, hash: int, now: int) returns (start: Start)
      modifies session`db
      ensures start == StartOutcome(old(session.db), key, hash, now)
      ensures session.db == if start.Reserved? then WithKey(old(session.db), key, hash, now) else old(session.db)
    {
      var existing := key in session.db.keys;
      if !existing || Expired(session.db.keys[key], now) {
        if existing {
          session.db := session.db.(keys := session.db.keys - {key});
        }
        session.db := session.db.(keys := session.db.keys[key := KeyRow(hash, now + TTL_SECONDS, None)]);
        assert session.db.keys == old(session.db).keys[key := KeyRow(hash, now + TTL_SECONDS, None)];
        return Reserved;
      }
      if session.db.keys[key].hash != hash {
        return Conflict;
      }
      if session.db.keys[key].response.None? {
        return InProgress;
      }
      return Stored(session.db.keys[key].response.value);
    }

    method StoreResponse(key: string, response: OrderRead) returns (found: bool)
      modifies session`db
      ensures found <==> key in old(session.db).keys
      ensures session.db == if found then WithResponse(old(session.db), key, response) else old(session.db)
    {
      if key !in session.db.keys {
        return false;
      }
      var row := session.db.keys[key];
      session.db := session.db.(keys := session.db.keys[key := row.(response := Some(response))]);
      return true;
    }
  }
}
