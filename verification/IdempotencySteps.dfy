/** What each step of the Idempotency-Key protocol does to a key's row and to a request, and what
    a second request with the same key is told. */
module IdempotencySteps {
  import opened Clock
  import opened Idempotency
  import opened Options

  // -------------------------------------------------------------- the key's row

  /** Step i concludes an operation that succeeded with a response that can be encoded. */
  predicate ConcludesWell(s: State, a: Action) {
    && a.Conclude? && a.r in s.requests && s.requests[a.r].phase.Ran?
    && s.requests[a.r].phase.encodes && 200 <= s.requests[a.r].phase.status <= 299
  }

  /** A row comes with a reservation or with a stored response. */
  lemma RowsCome(states: seq<State>, actions: seq<Action>, i: nat, k: Slot)
    requires Run(states, actions) && i < |actions| && k !in states[i].table
    ensures var s, a, s' := states[i], actions[i], states[i + 1];
      k in s'.table <==> || (a.Reserve? && a.slot == k && a.stored)
                         || (a.Put? && s.requests[a.r].slot == k && a.stored)
  {
  }

  /** It goes when its operation failed, or its response could not be encoded, and the release went
      through; or when an operation succeeded and the row is more than a day old by then. */
  lemma RowsGo(states: seq<State>, actions: seq<Action>, i: nat, k: Slot)
    requires Run(states, actions) && i < |actions| && k in states[i].table
    ensures var s, a, s' := states[i], actions[i], states[i + 1];
      k !in s'.table <==>
        || (a.Conclude? && !ConcludesWell(s, a) && s.requests[a.r].slot == k && a.stored)
        || (ConcludesWell(s, a) && s.table[k].createdSec < s.now / 1000000000 - 86400)
  {
    assert Unix(states[i].now - DAY) == states[i].now / 1000000000 - 86400;
  }

  /** A new row is empty and of this second; one that is written holds the operation's hash,
      status and body; every other is as it was. */
  lemma RowsHold(states: seq<State>, actions: seq<Action>, i: nat, k: Slot)
    requires Run(states, actions) && i < |actions| && k in states[i + 1].table
    ensures var s, a, row := states[i], actions[i], states[i + 1].table[k];
      if a.Put? && a.stored && s.requests[a.r].slot == k then
        var q := s.requests[a.r];
        && row.response == Some(Record(q.hash, q.phase.status, q.phase.body))
        && row.createdSec == s.now / 1000000000
      else if k in s.table then row == s.table[k]
      else row.response == None && row.createdSec == s.now / 1000000000
  {
  }

  // ---------------------------------------------------------------- the request

  /** Only its own steps change a request, and only time passing moves the clock. */
  lemma OthersStay(s: State, a: Action, r: Id)
    requires Enabled(s, a)
    ensures a.Advance? || a.r != r ==>
      (r in Do(s, a).requests <==> r in s.requests) && (r in s.requests ==> Do(s, a).requests[r] == s.requests[r])
    ensures Do(s, a).now == s.now + if a.Advance? then a.dt else 0
  {
  }

  /** A reservation is won by the request that finds no row, and by it alone; it fails when the
      statement does. */
  lemma Reserves(s: State, a: Action)
    requires Enabled(s, a) && a.Reserve?
    ensures a.r in Do(s, a).requests
    ensures var q := Do(s, a).requests[a.r];
      && q.slot == a.slot && q.hash == a.hash && q.since == s.now
      && (q.phase.Holding? <==> a.stored && a.slot !in s.table)
      && (q.phase.Lost? <==> a.stored && a.slot in s.table)
      && (!a.stored ==> q.phase == Answered(Failed))
  {
  }

  /** After its own step a request has its key and its hash, and is one phase on: the operation's
      own answer goes to the caller whether or not it could be stored. */
  lemma GoesOn(s: State, a: Action)
    requires Enabled(s, a) && !a.Advance? && !a.Reserve? && !a.Vanish?
    ensures a.r in s.requests && a.r in Do(s, a).requests
    ensures var q, q' := s.requests[a.r], Do(s, a).requests[a.r];
      && q'.slot == q.slot && q'.hash == q.hash && q'.since == q.since
      && (q.phase.Lost? <==> a.Look?) && (a.Look? ==> q'.phase.Answered?)
      && (q.phase.Holding? <==> a.Operate?) && (a.Operate? ==> q'.phase == Ran(a.status, a.body, a.encodes))
      && (q.phase.Ran? <==> a.Conclude?)
      && (q.phase.Ran? ==>
            q'.phase == (if !q.phase.encodes then Answered(Failed)
                         else if 200 <= q.phase.status <= 299 then Storing(q.phase.status, q.phase.body)
                         else Answered(Own(q.phase.status, q.phase.body))))
      && (q.phase.Storing? <==> a.Put?)
      && (q.phase.Storing? ==> q'.phase == Answered(Own(q.phase.status, q.phase.body)))
  {
  }

  /** A request can die while it has its reservation, and its row stays behind. */
  lemma Vanishes(s: State, r: Id)
    ensures Enabled(s, Vanish(r)) <==>
      r in s.requests && (s.requests[r].phase.Holding? || s.requests[r].phase.Ran? || s.requests[r].phase.Storing?)
    ensures Enabled(s, Vanish(r)) ==>
      Do(s, Vanish(r)).requests == s.requests - {r} && Do(s, Vanish(r)).table == s.table
  {
  }

  /** What the loser of a reservation is told: the response its row holds, when the row can be read
      and holds one to the same operation, and that there is a conflict otherwise. */
  lemma LooksUp(states: seq<State>, actions: seq<Action>, i: nat, k: Slot)
    requires PromptRun(states, actions, k) && i < |actions|
    requires actions[i].Look? && states[i].requests[actions[i].r].slot == k
    ensures var s, a := states[i], actions[i];
      && a.r in states[i + 1].requests
      && states[i + 1].requests[a.r].phase == Answered(
           if a.readable && k in s.table && s.table[k].response.Some?
              && s.table[k].response.value.hash == s.requests[a.r].hash
           then Replay(s.table[k].response.value.status, s.table[k].response.value.body)
           else Conflict)
  {
    InvHolds(states, actions, i, k);
  }

  // -------------------------------------------------------- the response, replayed

  /** Time goes on, and a response younger than a day stays. */
  predicate KeepsResponse(s: State, s': State, k: Slot) {
    && s.now <= s'.now
    && (k in s.table && s.table[k].response.Some? && s.now / 1000000000 - 86400 <= s.table[k].createdSec ==>
          k in s'.table && s'.table[k] == s.table[k])
  }

  lemma ResponseStep(states: seq<State>, actions: seq<Action>, i: nat, k: Slot)
    requires PromptRun(states, actions, k) && i < |actions|
    ensures KeepsResponse(states[i], states[i + 1], k)
  {
    InvHolds(states, actions, i, k);
    var s, a := states[i], actions[i];
    if !a.Advance? && !a.Reserve? {
      if s.requests[a.r].slot == k { assert RequestOk(s, a.r); }
    }
  }

  lemma {:induction false} ResponseKept(states: seq<State>, i: nat, j: nat, k: Slot)
    requires i <= j < |states| && forall p | i <= p < j :: KeepsResponse(states[p], states[p + 1], k)
    requires k in states[i].table && states[i].table[k].response.Some?
    requires states[j].now / 1000000000 - 86400 <= states[i].table[k].createdSec
    ensures k in states[j].table && states[j].table[k] == states[i].table[k]
  {
    if i < j {
      assert KeepsResponse(states[j - 1], states[(j - 1) + 1], k);
      ResponseKept(states, i, j - 1, k);
    }
  }

  /** A stored response stays for a day. */
  lemma ResponseStays(states: seq<State>, actions: seq<Action>, i: nat, j: nat, k: Slot)
    requires PromptRun(states, actions, k) && i <= j < |states|
    requires k in states[i].table && states[i].table[k].response.Some?
    requires states[j].now / 1000000000 - 86400 <= states[i].table[k].createdSec
    ensures k in states[j].table && states[j].table[k] == states[i].table[k]
  {
    forall p | i <= p < j
      ensures KeepsResponse(states[p], states[p + 1], k)
    {
      ResponseStep(states, actions, p, k);
    }
    ResponseKept(states, i, j, k);
  }

  /** Once a winner has stored its response, every request with its key that reads the row within
      a day gets that very status and body when it asks for the same operation, and a conflict
      when it asks for another. */
  lemma StoredIsReplayed(states: seq<State>, actions: seq<Action>, i: nat, j: nat, k: Slot)
    requires PromptRun(states, actions, k) && i < j < |actions|
    requires actions[i].Put? && actions[i].stored && states[i].requests[actions[i].r].slot == k
    requires actions[j].Look? && actions[j].readable && states[j].requests[actions[j].r].slot == k
    requires states[j].now / 1000000000 - 86400 <= states[i].now / 1000000000
    ensures var winner, loser := states[i].requests[actions[i].r], states[j].requests[actions[j].r];
      && actions[j].r in states[j + 1].requests
      && states[j + 1].requests[actions[j].r].phase == Answered(
           if loser.hash == winner.hash then Replay(winner.phase.status, winner.phase.body) else Conflict)
  {
    RowsHold(states, actions, i, k);
    ResponseStays(states, actions, i + 1, j, k);
    LooksUp(states, actions, j, k);
  }

  // ---------------------------------------------- two successes, a purge between

  /** Step i runs an operation of key k that succeeds with a response that can be encoded. */
  predicate SucceedsAt(s: State, a: Action, k: Slot) {
    && a.Operate? && a.r in s.requests && s.requests[a.r].slot == k
    && 200 <= a.status <= 299 && a.encodes
  }

  /** Step i purges the key's row, more than a day old. */
  predicate PurgesRow(s: State, s': State, k: Slot) {
    k in s.table && k !in s'.table && s.table[k].createdSec < s.now / 1000000000 - 86400
  }

  /** The key's present life has a success. */
  predicate Won(s: State, k: Slot) {
    Wins(s, k, Life(s, k)) != []
  }

  lemma WinComes(s: State, a: Action, k: Slot)
    requires Inv(s, k) && Enabled(s, a) && SucceedsAt(s, a, k)
    ensures Won(Do(s, a), k)
  {
    assert RequestOk(s, a.r);
  }

  lemma WinStep(s: State, a: Action, k: Slot)
    requires Enabled(s, a) && !PurgesRow(s, Do(s, a), k) && Won(s, k)
    ensures Won(Do(s, a), k)
  {
    if a.Operate? {
      WinsAdded(s, a.r, a.status, a.body, a.encodes);
    } else {
      WinsSame(s, Do(s, a));
      assert Life(Do(s, a), k) == Life(s, k);
    }
  }

  lemma {:induction false} WinKept(states: seq<State>, i: nat, j: nat, k: Slot)
    requires i <= j < |states| && Won(states[i], k)
    requires forall p | i <= p < j :: Won(states[p], k) ==> Won(states[p + 1], k)
    ensures Won(states[j], k)
  {
    if i < j { WinKept(states, i, j - 1, k); assert Won(states[(j - 1) + 1], k); }
  }

  lemma WinStays(states: seq<State>, actions: seq<Action>, i: nat, j: nat, k: Slot)
    requires PromptRun(states, actions, k) && i < j < |states| && SucceedsAt(states[i], actions[i], k)
    requires forall p | i < p < j :: !PurgesRow(states[p], states[p + 1], k)
    ensures Won(states[j], k)
  {
    InvHolds(states, actions, i, k);
    WinComes(states[i], actions[i], k);
    forall p | i + 1 <= p < j
      ensures Won(states[p], k) ==> Won(states[p + 1], k)
    {
      assert !PurgesRow(states[p], states[p + 1], k);
      if Won(states[p], k) { WinStep(states[p], actions[p], k); }
    }
    WinKept(states, i + 1, j, k);
  }

  /** Told of the operations alone: of two that succeed under one key, the second runs only after
      the key's row was purged for its age. */
  lemma SucceedsAgainOnlyAfterAPurge(states: seq<State>, actions: seq<Action>, i: nat, j: nat, k: Slot)
    requires PromptRun(states, actions, k) && i < j < |actions|
    requires SucceedsAt(states[i], actions[i], k) && SucceedsAt(states[j], actions[j], k)
    ensures exists p | i < p < j :: PurgesRow(states[p], states[p + 1], k)
  {
    InvHolds(states, actions, j, k);
    assert RequestOk(states[j], actions[j].r);
    if forall p | i < p < j :: !PurgesRow(states[p], states[p + 1], k) {
      WinStays(states, actions, i, j, k);
    }
  }
}
