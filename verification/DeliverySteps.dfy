/** What each step of a run does to the table and to the goroutines, in their own terms: which
    rows go, come and change, which attempts go out, and that an accepted delivery is over. */
module DeliverySteps {
  import opened Clock
  import opened DeliveryTable
  import opened DeliveryProtocol
  import opened DeliveryOf

  // -------------------------------------------------------------------- rows

  /** The attempt of id that ends here was refused, and the refusal is stored. */
  predicate Refuses(s: State, a: Action, id: Id) {
    && a.Record? && a.stored && a.key in s.tasks
    && s.tasks[a.key].id == id && s.tasks[a.key].phase == Ended(false) && s.tasks[a.key].attempts > 0
  }

  /** A dead row's redelivery goes ahead. */
  predicate Claims(s: State, a: Action, id: Id) {
    a.Claim? && Manual(a.caller) in s.tasks && s.tasks[Manual(a.caller)].id == id && id in s.rows && s.rows[id].dead
  }

  /** A row leaves the table when its hook is removed or found missing, when a retry or a
      redelivery of it was accepted and the store call goes through, or when it is dead and
      either of the two ages is over. */
  lemma RowsGoExactly(schedule: seq<nat>, states: seq<State>, actions: seq<Action>, i: nat, id: Id)
    requires Run(schedule, states, actions) && i < |actions| && id in states[i].rows
    ensures var s, a := states[i], actions[i];
      var row := s.rows[id];
      id !in states[i + 1].rows <==>
        || (a.RemoveHook? && row.origin.hook == a.hook)
        || (a.Pick? && a.id == id && (a.lookup == Missing || s.tasks[Retry(id)].origin.hook !in s.hooks))
        || (a.Record? && a.stored && !a.key.Fresh? && s.tasks[a.key].id == id && s.tasks[a.key].phase == Ended(true))
        || (a.Purge? && row.dead &&
            (row.origin.createdSec < a.cutoffSec ||
             (row.origin.hook in a.policy && a.policy[row.origin.hook] > 0 &&
              Unix(s.now) - row.origin.createdSec > a.policy[row.origin.hook])))
  {
    FiledHolds(schedule, states, actions, i);
    assert Enabled(states[i], actions[i]);
  }

  /** A row comes into the table or is rewritten by a stored refusal alone, and revived by a claim
      alone. A refusal after n attempts, of a schedule with an n-th wait, falls due that wait
      from now; after the last wait it is dead. */
  lemma RowsComeExactly(schedule: seq<nat>, states: seq<State>, actions: seq<Action>, i: nat, id: Id)
    requires Run(schedule, states, actions) && i < |actions|
    ensures var s, a, s' := states[i], actions[i], states[i + 1];
      && (id in s'.rows && !(id in s.rows && s.rows[id] == s'.rows[id]) ==> Refuses(s, a, id) || Claims(s, a, id))
      && (Refuses(s, a, id) ==>
            var t := s.tasks[a.key];
            && id in s'.rows
            && s'.rows[id].origin == (if id in s.rows then s.rows[id].origin else t.origin)
            && s'.rows[id].attempts == t.attempts && s'.rows[id].lastError == a.error
            && (t.attempts <= |schedule| ==>
                  !s'.rows[id].dead && s'.rows[id].dueSec == Unix(s.now + schedule[t.attempts - 1]))
            && (t.attempts > |schedule| ==> s'.rows[id].dead && s'.rows[id].dueSec == t.dueSec))
      && (Claims(s, a, id) ==>
            && id in s'.rows && !s'.rows[id].dead
            && s'.rows[id].dueSec == Unix(s.tasks[Manual(a.caller)].readAt + 600 * SECOND)
            && s'.rows[id].origin == s.rows[id].origin && s'.rows[id].attempts == s.rows[id].attempts
            && s'.rows[id].lastError == s.rows[id].lastError)
  {
    ScheduleStays(schedule, states, actions, i);
    assert Enabled(states[i], actions[i]);
  }

  lemma {:induction false} ScheduleStays(schedule: seq<nat>, states: seq<State>, actions: seq<Action>, i: nat)
    requires Run(schedule, states, actions) && i < |states|
    ensures states[i].schedule == schedule
  {
    if i > 0 { ScheduleStays(schedule, states, actions, i - 1); }
  }

  // -------------------------------------------------------------- goroutines

  predicate IsSending(s: State, k: Key) {
    k in s.tasks && s.tasks[k].phase == Sending
  }

  /** An attempt goes out at a step exactly when a fresh delivery starts, when the retry loop comes
      to a listed row whose hook is there and not paused, or when a claim finds its row dead. */
  lemma SendsExactly(schedule: seq<nat>, states: seq<State>, actions: seq<Action>, i: nat, k: Key)
    requires Run(schedule, states, actions) && i < |actions| && !IsSending(states[i], k)
    ensures var s, a := states[i], actions[i];
      IsSending(states[i + 1], k) <==>
        || (a.StartFresh? && k == Fresh(a.id))
        || (a.Pick? && k == Retry(a.id) && a.lookup == Found &&
            s.tasks[k].origin.hook in s.hooks && !s.hooks[s.tasks[k].origin.hook])
        || (a.Claim? && k == Manual(a.caller) && s.tasks[k].id in s.rows && s.rows[s.tasks[k].id].dead)
  {
    FiledHolds(schedule, states, actions, i);
    assert Enabled(states[i], actions[i]);
  }

  /** It is the first, one more than the row has had, or the first again. */
  lemma AttemptsAreNumbered(schedule: seq<nat>, states: seq<State>, actions: seq<Action>, i: nat, k: Key)
    requires Run(schedule, states, actions) && i < |actions|
    requires IsSending(states[i + 1], k) && !IsSending(states[i], k)
    ensures states[i + 1].tasks[k].attempts ==
      if actions[i].Pick? && k in states[i].tasks then states[i].tasks[k].attempts + 1 else 1
  {
    SendsExactly(schedule, states, actions, i, k);
  }

  /** And it is in flight, unchanged, until the subscriber has answered. */
  lemma SendsEndWithAnAnswer(schedule: seq<nat>, states: seq<State>, actions: seq<Action>, i: nat, k: Key)
    requires Run(schedule, states, actions) && i < |actions| && IsSending(states[i], k)
    requires !(k in states[i + 1].tasks && states[i + 1].tasks[k] == states[i].tasks[k])
    ensures (actions[i].SendEnds? && actions[i].key == k) || (actions[i].StartFresh? && k == Fresh(actions[i].id))
  {
    FiledHolds(schedule, states, actions, i);
    assert Enabled(states[i], actions[i]);
  }

  /** What a goroutine that neither starts nor ends a send does: a tick lists exactly its page with
      the rows' own attempts, a redelivery reads a dead row that is not too old, and every
      other goroutine is let alone or comes to its end. */
  lemma OthersMoveExactly(schedule: seq<nat>, states: seq<State>, actions: seq<Action>, i: nat, k: Key)
    requires Run(schedule, states, actions) && i < |actions|
    ensures var s, a, s' := states[i], actions[i], states[i + 1];
      && (k in s'.tasks && k !in s.tasks ==>
            || (a.StartFresh? && k == Fresh(a.id) && s'.tasks[k].origin == a.origin)
            || (a.Tick? && k.Retry? && k.id in a.due && s'.tasks[k].phase == Listed &&
                s'.tasks[k].attempts == s.rows[k.id].attempts && s'.tasks[k].dueSec == s.rows[k.id].dueSec &&
                s'.tasks[k].origin == s.rows[k.id].origin)
            || (a.Read? && k == Manual(a.caller) && s'.tasks[k].phase == Checked && s.rows[a.id].dead &&
                s'.tasks[k].origin == s.rows[a.id].origin && s'.tasks[k].readAt == s.now))
      && (a.Tick? && k.Retry? ==> (k in s'.tasks <==> k.id in a.due))
      && (a.Read? && k == Manual(a.caller) ==> k in s'.tasks && s'.tasks[k].id == a.id)
      && (k in s.tasks && k !in s'.tasks <==>
            || (a.Pick? && k == Retry(a.id) &&
                (a.lookup == Missing || s.tasks[k].origin.hook !in s.hooks || s.hooks[s.tasks[k].origin.hook]))
            || (a.Abandon? && k == Retry(a.id))
            || (a.Claim? && k == Manual(a.caller) && !(s.tasks[k].id in s.rows && s.rows[s.tasks[k].id].dead))
            || (a.Record? && k == a.key))
      && (a.SendEnds? && k == a.key ==> k in s'.tasks && s'.tasks[k].phase == Ended(a.accepted))
      && (k in s.tasks && k in s'.tasks && s'.tasks[k] != s.tasks[k] ==>
            a.Pick? || a.Claim? || a.SendEnds? || (a.StartFresh? && k == Fresh(a.id)))
      && (k in s.tasks && k in s'.tasks ==> s'.tasks[k].origin == s.tasks[k].origin || a.StartFresh?)
  {
    FiledHolds(schedule, states, actions, i);
    assert Enabled(states[i], actions[i]);
  }

  /** A tick lists rows that are alive, due, and of hooks not paused, all of them up to a page. */
  lemma TicksListTheDue(schedule: seq<nat>, states: seq<State>, actions: seq<Action>, i: nat, id: Id)
    requires Run(schedule, states, actions) && i < |actions| && actions[i].Tick?
    ensures var s, due := states[i], actions[i].due;
      && |due| <= 100 && (forall k | k in s.tasks :: !k.Retry?)
      && (id in due ==>
            && id in s.rows && !s.rows[id].dead && s.rows[id].dueSec <= Unix(s.now)
            && !(s.rows[id].origin.hook in s.hooks && s.hooks[s.rows[id].origin.hook]))
      && (id in s.rows && !s.rows[id].dead && s.rows[id].dueSec <= Unix(s.now) && id !in due ==>
            (s.rows[id].origin.hook in s.hooks && s.hooks[s.rows[id].origin.hook]) || |due| == 100)
  {
    var s, due := states[i], actions[i].due;
    assert Enabled(s, actions[i]);
    if id in due {
      var n :| 0 <= n < |due| && due[n] == id;
      assert IsDue(s.rows, Paused(s), Unix(s.now), due[n]);
    } else if id in s.rows {
      assert IsDue(s.rows, Paused(s), Unix(s.now), id) ==> |due| == 100;
    }
  }

  /** A redelivery is of a dead row, no older than its owner keeps things. */
  lemma RedeliversTheDead(schedule: seq<nat>, states: seq<State>, actions: seq<Action>, i: nat)
    requires Run(schedule, states, actions) && i < |actions| && actions[i].Read?
    ensures var s, a := states[i], actions[i];
      && a.id in s.rows && s.rows[a.id].dead
      && (a.maxAgeSec > 0 ==> s.now - s.rows[a.id].origin.createdSec * SECOND <= a.maxAgeSec * SECOND)
  {
    assert Enabled(states[i], actions[i]);
  }

  // ------------------------------------------------------------ what is counted

  /** The attempts counted for a delivery are those that went out since it was filed or last
      claimed, and a death, a claim and a removal are counted when they happen and never else. */
  lemma CountsExactly(schedule: seq<nat>, states: seq<State>, actions: seq<Action>, i: nat, id: Id)
    requires Run(schedule, states, actions) && i < |actions|
    ensures var s, a, s' := states[i], actions[i], states[i + 1];
      && s'.died[id] == s.died[id] +
        (if Refuses(s, a, id) && s.tasks[a.key].attempts > |schedule| then 1 else 0)
      && s'.claimed[id] == s.claimed[id] + (if Claims(s, a, id) then 1 else 0)
      && s'.removed[id] == s.removed[id] + (if id in s.rows && s.rows[id].dead && id !in s'.rows then 1 else 0)
  {
    FiledHolds(schedule, states, actions, i);
    ScheduleStays(schedule, states, actions, i);
    assert Enabled(states[i], actions[i]);
    RemovedOnce(states[i], actions[i], id);
  }

  lemma RemovedOnce(s: State, a: Action, id: Id)
    requires Enabled(s, a)
    ensures Do(s, a).removed[id] ==
      s.removed[id] + if id in s.rows && s.rows[id].dead && id !in Do(s, a).rows then 1 else 0
  {
    var gone := DeadGone(s.rows, Do(s, a).rows);
    assert multiset(gone)[id] == if id in gone then 1 else 0;
  }

  /** An attempt of id goes out. */
  predicate SendsNow(s: State, a: Action, id: Id) {
    || (a.StartFresh? && a.id == id)
    || (a.Pick? && a.id == id && a.lookup == Found && Retry(id) in s.tasks &&
        s.tasks[Retry(id)].origin.hook in s.hooks && !s.hooks[s.tasks[Retry(id)].origin.hook])
    || Claims(s, a, id)
  }

  /** The outcome of an attempt of id is lost on its way to the table. */
  predicate LosesOutcome(s: State, a: Action, id: Id) {
    && a.Record? && a.key in s.tasks && s.tasks[a.key].id == id && s.tasks[a.key].phase.Ended?
    && if s.tasks[a.key].phase.accepted then !a.key.Fresh? && !a.stored
       else s.tasks[a.key].attempts == 0 || !a.stored
  }

  /** A pass through the schedule begins with a fresh delivery or a claim, and counts its attempts
      as they go out. */
  lemma EpochsCountSends(schedule: seq<nat>, states: seq<State>, actions: seq<Action>, i: nat, id: Id)
    requires Run(schedule, states, actions) && i < |actions| && id in states[i].epochs
    requires !(actions[i].StartFresh? && actions[i].id == id)
    ensures id in states[i + 1].epochs
    ensures var s, a, made := states[i], actions[i], states[i].epochs[id].made;
      states[i + 1].epochs[id].made ==
        if Claims(s, a, id) then 1 else if SendsNow(s, a, id) then made + 1 else made
  {
    FiledHolds(schedule, states, actions, i);
    assert Enabled(states[i], actions[i]);
  }

  /** It is no longer clean once an outcome was lost. */
  lemma EpochsStayClean(schedule: seq<nat>, states: seq<State>, actions: seq<Action>, i: nat, id: Id)
    requires Run(schedule, states, actions) && i < |actions| && id in states[i].epochs && id in states[i + 1].epochs
    requires !(actions[i].StartFresh? && actions[i].id == id)
    ensures states[i + 1].epochs[id].clean <==>
      Claims(states[i], actions[i], id) || (states[i].epochs[id].clean && !LosesOutcome(states[i], actions[i], id))
  {
    FiledHolds(schedule, states, actions, i);
    assert Enabled(states[i], actions[i]);
  }

  /** It notes when its first attempt was refused and when it died. */
  lemma EpochTimes(schedule: seq<nat>, states: seq<State>, actions: seq<Action>, i: nat, id: Id)
    requires Run(schedule, states, actions) && i < |actions| && id in states[i].epochs
    requires !(actions[i].StartFresh? && actions[i].id == id) && !Claims(states[i], actions[i], id)
    ensures id in states[i + 1].epochs
    ensures var s, a := states[i], actions[i];
      var e, e' := s.epochs[id], states[i + 1].epochs[id];
      && e'.first == (if Refuses(s, a, id) && s.tasks[a.key].attempts == 1 then s.now else e.first)
      && e'.deadAt == (if Refuses(s, a, id) && s.tasks[a.key].attempts > |schedule| then s.now else e.deadAt)
  {
    FiledHolds(schedule, states, actions, i);
    ScheduleStays(schedule, states, actions, i);
    assert Enabled(states[i], actions[i]);
  }

  /** Only time moves the clock, only the developer's own calls the hooks, and only a fresh dispatch
      uses an id up. */
  lemma HooksAndClock(s: State, a: Action, h: Hook, id: Id)
    requires Enabled(s, a)
    ensures Do(s, a).now == s.now + if a.Advance? then a.dt else 0
    ensures h in Do(s, a).hooks <==> (h in s.hooks && a != RemoveHook(h)) || (a.SetHook? && a.hook == h)
    ensures h in Do(s, a).hooks ==> Do(s, a).hooks[h] == if a.SetHook? && a.hook == h then a.paused else s.hooks[h]
    ensures id in Do(s, a).used <==> id in s.used || (a.StartFresh? && a.id == id)
  {
  }

  // ------------------------------------------------- an accepted delivery is over

  /** Nothing is left of the delivery to send. */
  ghost predicate Spent(s: State, id: Id) {
    id in s.used && id !in s.rows && forall k :: !Owns(s, k, id)
  }

  lemma SpentStays(s: State, a: Action, id: Id)
    requires Filed(s) && Enabled(s, a) && Spent(s, id)
    ensures Spent(Do(s, a), id)
  {
    if a.Record? || a.SendEnds? { assert !Owns(s, a.key, id); }
    if a.Pick? { assert !Owns(s, Retry(a.id), id); }
    forall k
      ensures !Owns(Do(s, a), k, id)
    {
      SpentTask(s, a, id, k);
    }
  }

  lemma SpentTask(s: State, a: Action, id: Id, k: Key)
    requires Filed(s) && Enabled(s, a) && Spent(s, id)
    ensures !Owns(Do(s, a), k, id)
  {
    assert !Owns(s, k, id);
    if a.Pick? || a.Abandon? || a.Read? || a.Claim? || a.SendEnds? || a.Record? {
      if k == Actor(a) { SpentActor(s, a, id); } else { OnlyActorMoves(s, a, k); }
    } else if a.Tick? && k.Retry? {
      ListedRetries(a.due, k.id);
    }
  }

  lemma SpentActor(s: State, a: Action, id: Id)
    requires Filed(s) && Enabled(s, a) && Spent(s, id)
    requires a.Pick? || a.Abandon? || a.Read? || a.Claim? || a.SendEnds? || a.Record?
    ensures !Owns(Do(s, a), Actor(a), id)
  {
    assert !Owns(s, Actor(a), id);
    ActorStays(s, a);
    if a.Record? { RecordsAreDone(s, a.key, a.stored, a.error); }
  }

  /** The subscriber accepted an attempt of id, and if it was a row's the row is deleted. */
  predicate AcceptedNow(s: State, a: Action, id: Id) {
    && a.Record? && a.key in s.tasks && s.tasks[a.key].id == id && s.tasks[a.key].phase == Ended(true)
    && (a.stored || a.key.Fresh?)
  }

  lemma AcceptedIsSpent(schedule: seq<nat>, states: seq<State>, actions: seq<Action>, i: nat, id: Id)
    requires Run(schedule, states, actions) && i < |actions| && AcceptedNow(states[i], actions[i], id)
    requires forall m | 0 <= m < i :: LeaseKeptFor(states[m], id)
    ensures Spent(states[i + 1], id)
  {
    var s, a := states[i], actions[i];
    var here := OneDeliveryHolds(schedule, states[..i + 1], actions[..i], i, id);
    OwnsAlone(s, here, id, a.key);
    assert Owns(s, a.key, id) && TaskOk(here, a.key);
    if a.key.Fresh? {
      assert id !in here.rows;
    } else {
      RowsGoExactlyIfHeld(schedule, states, actions, i, id);
    }
    assert Enabled(s, a);
    var s' := states[i + 1];
    forall k
      ensures !Owns(s', k, id)
    {
      OwnsAlone(s, here, id, k);
      RecordsAreDone(s, a.key, a.stored, a.error);
    }
  }

  lemma RowsGoExactlyIfHeld(schedule: seq<nat>, states: seq<State>, actions: seq<Action>, i: nat, id: Id)
    requires Run(schedule, states, actions) && i < |actions| && AcceptedNow(states[i], actions[i], id)
    requires !actions[i].key.Fresh?
    ensures id !in states[i + 1].rows
  {
    if id in states[i].rows {
      RowsGoExactly(schedule, states, actions, i, id);
    } else {
      RowsComeExactly(schedule, states, actions, i, id);
    }
  }

  /** Once an attempt is accepted, its row deleted, the delivery has no row and no attempt ever
      again, provided its redeliveries kept their lease until then. */
  lemma {:induction false} AcceptedIsOver(
      schedule: seq<nat>, states: seq<State>, actions: seq<Action>, i: nat, j: nat, id: Id)
    requires Run(schedule, states, actions) && i < j < |states| && AcceptedNow(states[i], actions[i], id)
    requires forall m | 0 <= m < i :: LeaseKeptFor(states[m], id)
    ensures Spent(states[j], id)
    ensures id !in states[j].rows && forall k | IsSending(states[j], k) :: states[j].tasks[k].id != id
  {
    if j == i + 1 {
      AcceptedIsSpent(schedule, states, actions, i, id);
    } else {
      AcceptedIsOver(schedule, states, actions, i, j - 1, id);
      FiledHolds(schedule, states, actions, j - 1);
      SpentStays(states[j - 1], actions[j - 1], id);
    }
    forall k | IsSending(states[j], k)
      ensures states[j].tasks[k].id != id
    {
      assert !Owns(states[j], k, id);
    }
  }
}
