/**
 * The refresh-token store behind the `Repository` interface
 * (internal/app/repository/postgresql/repo.go): one row per user holding the
 * hash of the current refresh secret and the client address it was issued to.
 * The table is modelled as a map keyed by user; a failure of the database
 * connection is an input of each call.
 */
module Repository {
  import opened Wrappers
  import opened Models

  /** A row of refresh_tokens without its key. */
  datatype Record = Record(tokenHash: string, clientIP: string)

  type Table = map<string, Record>

  /** INSERT ... ON CONFLICT (user_id) DO UPDATE: insert-or-replace keyed by user. */
  function Upsert(t: Table, userID: string, rec: Record): (r: Table)
    ensures r.Keys == t.Keys + {userID}
    ensures r[userID] == rec
    ensures forall u :: u in t && u != userID ==> r[u] == t[u]
  {
    t[userID := rec]
  }

  /** SELECT token_hash ... WHERE user_id = $1, followed by Scan. */
  function Lookup(t: Table, userID: string, fault: Option<Error>): Result<string, Error>
  {
    match fault
    case Some(e) => Err(e)
    case None => if userID in t then Ok(t[userID].tokenHash) else Err(NoRows)
  }

  /** Saving never adds a second row for a user: the table grows only for a new user. */
  lemma UpsertRowCount(t: Table, userID: string, rec: Record)
    ensures |Upsert(t, userID, rec)| == if userID in t then |t| else |t| + 1
  {
    var r := Upsert(t, userID, rec);
    if userID in t {
      assert r.Keys == t.Keys;
    } else {
      assert r.Keys == t.Keys + {userID} && userID !in t.Keys;
    }
  }

  /** A second save for the same user replaces the first entirely. */
  lemma UpsertReplaces(t: Table, userID: string, first: Record, second: Record)
    ensures Upsert(Upsert(t, userID, first), userID, second) == Upsert(t, userID, second)
  {
  }

  /** A lookup after a save returns the saved hash. */
  lemma LookupAfterUpsert(t: Table, userID: string, tokenHash: string, clientIP: string)
    ensures Lookup(Upsert(t, userID, Record(tokenHash, clientIP)), userID, None) == Ok(tokenHash)
  {
  }

  /** Saving for one user does not change what a lookup of any other user returns. */
  lemma UpsertIsolation(t: Table, userID: string, rec: Record, other: string, fault: Option<Error>)
    requires other != userID
    ensures Lookup(Upsert(t, userID, rec), other, fault) == Lookup(t, other, fault)
  {
  }

  /** The PostgreSQL-backed repository, with its table held in memory. */
  class Repo {
    var records: Table

    /** A repository over a table that may already hold rows. */
    constructor (rows: Table)
      ensures records == rows
    {
      records := rows;
    }

    /** Upserts (userID, tokenHash, clientIP); a database failure leaves the table as it was. */
    method SaveRefreshToken(userID: string, tokenHash: string, clientIP: string, fault: Option<Error>)
      returns (err: Option<Error>)
      modifies this
      ensures err == fault
      ensures records == if fault.None? then Upsert(old(records), userID, Record(tokenHash, clientIP)) else old(records)
    {
      if fault.Some? {
        return fault;
      }
      records := records[userID := Record(tokenHash, clientIP)];
      return None;
    }

    /** The stored hash for a user; `""` and an error when there is none or the database fails. */
    method GetRefreshToken(userID: string, fault: Option<Error>) returns (tokenHash: string, err: Option<Error>)
      ensures err.None? <==> fault.None? && userID in records
      ensures err.None? ==> tokenHash == records[userID].tokenHash
      ensures err.Some? ==> tokenHash == "" && err == Some(if fault.Some? then fault.value else NoRows)
      ensures Lookup(records, userID, fault) == if err.None? then Ok(tokenHash) else Err(err.value)
    {
      if fault.Some? {
        return "", fault;
      }
      if userID !in records {
        return "", Some(NoRows);
      }
      return records[userID].tokenHash, None;
    }
  }
}
