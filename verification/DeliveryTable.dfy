/** The webhook_deliveries table: one function per SQL statement, and the store
    object whose methods run those statements. */
module DeliveryTable {
  type Id = string
  type Hook = string

  /** The columns an upsert never rewrites. */
  datatype Origin = Origin(hook: Hook, account: string, eventType: string, payload: string, createdSec: int)

  datatype Row = Row(origin: Origin, attempts: nat, dueSec: int, lastError: string, dead: bool)

  type Rows = map<Id, Row>

  /** INSERT ... ON CONFLICT(id) DO UPDATE of attempts, next_attempt_at, last_error and dead. */
  function Saved(rows: Rows, id: Id, row: Row): Rows {
    rows[id := if id in rows then row.(origin := rows[id].origin) else row]
  }

  /** UPDATE ... SET dead = 0, next_attempt_at = leaseSec WHERE id = ? AND dead = 1. */
  function Revived(rows: Rows, id: Id, leaseSec: int): Rows {
    if id in rows && rows[id].dead
    then rows[id := rows[id].(dead := false, dueSec := leaseSec)]
    else rows
  }

  predicate Purgeable(row: Row, nowSec: int, cutoffSec: int, policy: map<Hook, int>) {
    && row.dead
    && (|| row.origin.createdSec < cutoffSec
        || (&& row.origin.hook in policy
            && policy[row.origin.hook] > 0
            && nowSec - row.origin.createdSec > policy[row.origin.hook]))
  }

  /** DELETE ... WHERE dead = 1 AND (older than the global window or the owner's own policy). */
  function Purged(rows: Rows, nowSec: int, cutoffSec: int, policy: map<Hook, int>): Rows {
    map id | id in rows && !Purgeable(rows[id], nowSec, cutoffSec, policy) :: rows[id]
  }

  /** ON DELETE CASCADE from webhooks. */
  function WithoutHook(rows: Rows, h: Hook): Rows {
    map id | id in rows && rows[id].origin.hook != h :: rows[id]
  }

  predicate IsDue(rows: Rows, paused: set<Hook>, nowSec: int, id: Id) {
    && id in rows
    && !rows[id].dead
    && rows[id].dueSec <= nowSec
    && rows[id].origin.hook !in paused
  }

  /** What ORDER BY next_attempt_at LIMIT ? may answer: distinct due rows, oldest
      first, and a row is left out only when the page is full of rows no younger. */
  ghost predicate IsDueList(rows: Rows, paused: set<Hook>, nowSec: int, limit: nat, out: seq<Id>) {
    && |out| <= limit
    && (forall i | 0 <= i < |out| :: IsDue(rows, paused, nowSec, out[i]))
    && (forall i, j | 0 <= i < j < |out| :: out[i] != out[j] && rows[out[i]].dueSec <= rows[out[j]].dueSec)
    && (forall id | IsDue(rows, paused, nowSec, id) && id !in out ::
          |out| == limit && forall i | 0 <= i < |out| :: rows[out[i]].dueSec <= rows[id].dueSec)
  }

  method Oldest(rows: Rows, ids: set<Id>) returns (m: Id)
    requires ids != {} && ids <= rows.Keys
    ensures m in ids && forall x | x in ids :: rows[m].dueSec <= rows[x].dueSec
  {
    m :| m in ids;
    var left := ids - {m};
    while left != {}
      invariant m in ids && left <= ids
      invariant forall x | x in ids && x !in left :: rows[m].dueSec <= rows[x].dueSec
      decreases left
    {
      var x :| x in left;
      if rows[x].dueSec < rows[m].dueSec {
        m := x;
      }
      left := left - {x};
    }
  }

  class DeliveryStore {
    var rows: Rows

    constructor ()
      ensures rows == map[]
    {
      rows := map[];
    }

    method SaveDelivery(id: Id, row: Row)
      modifies this
      ensures rows == Saved(old(rows), id, row)
      ensures rows.Keys == old(rows).Keys + {id}
      ensures rows[id].origin == if id in old(rows) then old(rows)[id].origin else row.origin
      ensures rows[id].attempts == row.attempts && rows[id].dueSec == row.dueSec
      ensures rows[id].lastError == row.lastError && rows[id].dead == row.dead
      ensures forall x | x in old(rows) && x != id :: rows[x] == old(rows)[x]
    {
      if id in rows {
        rows := rows[id := row.(origin := rows[id].origin)];
      } else {
        rows := rows[id := row];
      }
    }

    method DueDeliveries(paused: set<Hook>, nowSec: int, limit: nat) returns (out: seq<Id>)
      ensures IsDueList(rows, paused, nowSec, limit, out)
      ensures |out| <= limit
      ensures forall i, j | 0 <= i < j < |out| ::
        out[i] != out[j] && out[i] in rows && out[j] in rows && rows[out[i]].dueSec <= rows[out[j]].dueSec
      ensures forall id | id in out ::
        id in rows && !rows[id].dead && rows[id].dueSec <= nowSec && rows[id].origin.hook !in paused
      ensures forall id | id in rows && id !in out ::
        rows[id].dead || rows[id].dueSec > nowSec || rows[id].origin.hook in paused ||
        (|out| == limit && forall x | x in out :: rows[x].dueSec <= rows[id].dueSec)
    {
      var left := set id | id in rows.Keys && IsDue(rows, paused, nowSec, id);
      out := [];
      while |out| < limit && left != {}
        invariant |out| <= limit
        invariant forall id | IsDue(rows, paused, nowSec, id) :: id in left || id in out
        invariant forall id | id in left :: IsDue(rows, paused, nowSec, id) && id !in out
        invariant forall i | 0 <= i < |out| :: IsDue(rows, paused, nowSec, out[i])
        invariant forall i, j | 0 <= i < j < |out| :: out[i] != out[j] && rows[out[i]].dueSec <= rows[out[j]].dueSec
        invariant forall i, id | 0 <= i < |out| && id in left :: rows[out[i]].dueSec <= rows[id].dueSec
        decreases left
      {
        var m := Oldest(rows, left);
        out := out + [m];
        left := left - {m};
      }
    }

    /** One conditional write: true exactly when this call found the row dead. */
    method ClaimDeadDelivery(id: Id, leaseSec: int) returns (claimed: bool)
      modifies this
      ensures rows == Revived(old(rows), id, leaseSec)
      ensures claimed <==> id in old(rows) && old(rows)[id].dead
      ensures claimed ==> rows == old(rows)[id := rows[id]] && !rows[id].dead && rows[id].dueSec == leaseSec
      ensures claimed ==> rows[id].origin == old(rows)[id].origin && rows[id].attempts == old(rows)[id].attempts
      ensures claimed ==> rows[id].lastError == old(rows)[id].lastError
      ensures !claimed ==> rows == old(rows)
    {
      claimed := id in rows && rows[id].dead;
      if claimed {
        rows := rows[id := rows[id].(dead := false, dueSec := leaseSec)];
      }
    }

    method DeleteDelivery(id: Id)
      modifies this
      ensures rows == old(rows) - {id}
    {
      rows := rows - {id};
    }

    method PurgeDeadDeliveries(nowSec: int, cutoffSec: int, policy: map<Hook, int>) returns (n: nat)
      modifies this
      ensures rows == Purged(old(rows), nowSec, cutoffSec, policy)
      ensures n == |old(rows)| - |rows|
      ensures forall id | id in rows :: id in old(rows) && rows[id] == old(rows)[id]
      // A row goes when it is dead and created before the cutoff or longer ago than its hook's owner keeps things.
      ensures forall id | id in old(rows) :: id !in rows <==>
        (var r := old(rows)[id];
         r.dead && (r.origin.createdSec < cutoffSec ||
                    (r.origin.hook in policy && policy[r.origin.hook] > 0 &&
                     nowSec - r.origin.createdSec > policy[r.origin.hook])))
    {
      var before := rows;
      rows := map id | id in before && !Purgeable(before[id], nowSec, cutoffSec, policy) :: before[id];
      assert rows.Keys <= before.Keys;
      SubsetCard(rows.Keys, before.Keys);
      n := |before| - |rows|;
    }
  }

  lemma {:induction false} SubsetCard(a: set<Id>, b: set<Id>)
    requires a <= b
    ensures |a| <= |b|
  {
    assert b == a + (b - a);
  }
}
