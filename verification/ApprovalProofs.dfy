/** Exactly one outcome, one callback and one event for every pending action, in every run. */
module ApprovalProofs {
  import opened Common
  import opened Approvals

  /** An action has left pending exactly when a claim on it is on record, and its status is that claim's. */
  ghost predicate ClaimsInv(s: State) { ClaimsOk(s.actions, s.listed, s.claims) }

  ghost predicate ClaimsOk(actions: map<string, Action>, listed: set<string>, claims: map<string, Claim>) {
    && listed <= actions.Keys && claims.Keys <= actions.Keys
    && (forall id :: id in actions ==> (actions[id].status == Pending <==> id !in claims))
    && (forall id :: id in claims ==> actions[id].status == StatusFor(claims[id].outcome))
    && (forall id :: id in actions && actions[id].status == Pending ==> id in listed)
  }

  /** Approvals land strictly before the deadline, expiries at or after it. */
  ghost predicate DeadlineInv(s: State) { DeadlinesOk(s.now, s.actions, s.claims) }

  ghost predicate DeadlinesOk(now: int, actions: map<string, Action>, claims: map<string, Claim>) {
    forall id :: id in claims && id in actions ==>
      && claims[id].at <= now
      && (claims[id].outcome == Approved ==> claims[id].at < actions[id].expiresAt)
      && (claims[id].outcome == TimedOut ==> actions[id].expiresAt <= claims[id].at)
  }

  predicate ClaimedAs(claims: map<string, Claim>, i: Item) { i.id in claims && claims[i.id].outcome == i.outcome }

  /** The work for a claim is owed or done exactly once, and only for the outcome on record. */
  ghost predicate WorkInv(s: State) { WorkOk(s.work, s.claims, s.actions) }

  ghost predicate WorkOk(w: Work, claims: map<string, Claim>, actions: map<string, Action>) {
    && (forall i: Item :: w.owedCalls[i] + w.owedEvents[i] + w.events[i] == (if ClaimedAs(claims, i) then 1 else 0))
    && (forall i: Item :: w.calls[i] ==
          (if i.id in actions && actions[i.id].wired then w.owedEvents[i] + w.events[i] else 0))
  }

  /** Rejections an action has received, whatever the reason. */
  function Rejections(calls: multiset<Item>, id: string): nat {
    calls[Item(id, Refused)] + calls[Item(id, TimedOut)] + calls[Item(id, Cancelled)]
  }

  /** What was sent on an action's channels is still in the slot or was received. */
  ghost predicate DesksInv(s: State) { s.desks.Keys == s.actions.Keys && DesksOk(s.desks, s.work.calls) }

  ghost predicate DesksOk(desks: map<string, Desk>, calls: multiset<Item>) {
    forall id :: id in desks ==> DeskOk(desks[id], calls[Item(id, Approved)], Rejections(calls, id))
  }

  predicate DeskOk(d: Desk, approvals: nat, rejections: nat) {
    && d.results + (if d.waiter == GotResult then 1 else 0) == approvals
    && d.errors + (if d.waiter == GotError then 1 else 0) == rejections
  }

  ghost predicate Inv(s: State) { ClaimsInv(s) && DeadlineInv(s) && WorkInv(s) && DesksInv(s) }

  lemma ItemsCount(ids: set<string>, o: Outcome, i: Item)
    ensures multiset(Items(ids, o))[i] == if i.id in ids && i.outcome == o then 1 else 0
  {
    assert i in Items(ids, o) <==> i.id in ids && i.outcome == o;
  }

  lemma SettleClaims(s: State, ids: set<string>, o: Outcome)
    requires ClaimsInv(s) && ids <= s.listed && (forall id :: id in ids ==> s.actions[id].status == Pending)
    ensures ClaimsInv(Settle(s, ids, o))
  {
  }

  lemma SettleDeadlines(s: State, ids: set<string>, o: Outcome)
    requires ClaimsInv(s) && DeadlineInv(s) && ids <= s.actions.Keys
    requires o == Approved ==> forall id :: id in ids ==> s.now < s.actions[id].expiresAt
    requires o == TimedOut ==> forall id :: id in ids ==> s.actions[id].expiresAt <= s.now
    ensures DeadlineInv(Settle(s, ids, o))
  {
  }

  lemma SettleWork(s: State, ids: set<string>, o: Outcome)
    requires ClaimsInv(s) && WorkInv(s) && ids <= s.listed
    requires (forall id :: id in ids ==> s.actions[id].status == Pending)
    ensures WorkInv(Settle(s, ids, o))
  {
    var t := Settle(s, ids, o);
    forall i: Item
      ensures t.work.owedCalls[i] + t.work.owedEvents[i] + t.work.events[i] == (if ClaimedAs(t.claims, i) then 1 else 0)
    {
      ItemsCount(ids, o, i);
    }
  }

  lemma SettleKeeps(s: State, ids: set<string>, o: Outcome)
    requires Inv(s) && ids <= s.listed && (forall id :: id in ids ==> s.actions[id].status == Pending)
    requires o == Approved ==> forall id :: id in ids ==> s.now < s.actions[id].expiresAt
    requires o == TimedOut ==> forall id :: id in ids ==> s.actions[id].expiresAt <= s.now
    ensures Inv(Settle(s, ids, o))
  {
    SettleClaims(s, ids, o);
    SettleDeadlines(s, ids, o);
    SettleWork(s, ids, o);
  }

  lemma CreateClaims(s: State, id: string, a: Action)
    requires ClaimsInv(s) && DeadlineInv(s) && id !in s.actions && a.status == Pending
    ensures ClaimsInv(DoCreate(s, id, a)) && DeadlineInv(DoCreate(s, id, a))
  {
  }

  lemma CreateWork(s: State, id: string, a: Action)
    requires ClaimsInv(s) && WorkInv(s) && id !in s.actions
    ensures WorkInv(DoCreate(s, id, a))
    ensures forall i: Item :: i.id == id ==> s.work.calls[i] == 0
  {
    forall i: Item | i.id == id ensures !ClaimedAs(s.claims, i) {}
  }

  lemma CreateDesks(s: State, id: string, a: Action)
    requires DesksInv(s) && (forall i: Item :: i.id == id ==> s.work.calls[i] == 0)
    ensures DesksInv(DoCreate(s, id, a))
  {
  }

  lemma CreateKeeps(s: State, id: string, a: Action)
    requires Inv(s) && id !in s.actions && a.status == Pending
    ensures Inv(DoCreate(s, id, a))
  {
    CreateClaims(s, id, a);
    CreateWork(s, id, a);
    CreateDesks(s, id, a);
  }

  lemma CallWork(s: State, item: Item)
    requires WorkInv(s) && s.work.owedCalls[item] > 0 && item.id in s.actions && item.id in s.desks
    ensures WorkInv(DoCall(s, item))
  {
  }

  lemma CallDesks(s: State, item: Item)
    requires DesksInv(s) && item.id in s.actions && item.id in s.desks
    ensures DesksInv(DoCall(s, item))
  {
    var t := DoCall(s, item);
    forall id | id in t.desks
      ensures DeskOk(t.desks[id], t.work.calls[Item(id, Approved)], Rejections(t.work.calls, id))
    {
      if id != item.id { assert Rejections(t.work.calls, id) == Rejections(s.work.calls, id); }
    }
  }

  /** Deleting terminal actions from the map loses nothing. */
  lemma UnlistKeeps(s: State, gone: set<string>)
    requires Inv(s) && forall id :: id in gone && id in s.actions ==> s.actions[id].status != Pending
    ensures Inv(s.(listed := s.listed - gone))
  {
    assert WorkInv(s.(listed := s.listed - gone));
    assert DesksInv(s.(listed := s.listed - gone));
  }

  lemma SweepKeeps(s: State, at: int)
    requires Inv(s) && at <= s.now
    ensures Inv(DoSweep(s, at))
  {
    SettleKeeps(s, ToExpire(s, at), TimedOut);
    UnlistKeeps(Settle(s, ToExpire(s, at), TimedOut), ToDelete(s, at));
  }

  lemma TakeKeeps(s: State, id: string, kind: Option<Kind>, to: Outcome)
    requires Inv(s) && (to == Approved || to == Refused)
    ensures Inv(DoTake(s, id, kind, to))
  {
    if Findable(s, id, kind) && TakeOutcome(s.actions[id], to, s.now).Some? {
      SettleKeeps(s, {id}, TakeOutcome(s.actions[id], to, s.now).value);
    }
  }

  lemma CallKeeps(s: State, item: Item)
    requires Inv(s) && Enabled(s, RunCall(item))
    ensures Inv(DoCall(s, item))
  {
    CallWork(s, item);
    CallDesks(s, item);
  }

  lemma EventKeeps(s: State, item: Item)
    requires WorkInv(s) && s.work.owedEvents[item] > 0
    ensures WorkInv(DoEvent(s, item))
  {
  }

  lemma DeskKeeps(s: State, id: string, d: Desk)
    requires DesksInv(s) && id in s.desks
    requires DeskOk(d, s.work.calls[Item(id, Approved)], Rejections(s.work.calls, id))
    ensures DesksInv(WithDesk(s, id, d))
  {
  }

  /** Sections of the store. */
  lemma {:induction false} StoreStepKeeps(s: State, step: Step)
    requires Inv(s) && Enabled(s, step)
    requires step.Create? || step.Take? || step.CancelConnection? || step.Sweep?
    ensures Inv(Apply(s, step))
  {
    match step
    case Create(id, account, kind, connection, wired, at) =>
      CreateKeeps(s, id, NewAction(account, kind, connection, wired, at));
    case Take(id, kind, to) => TakeKeeps(s, id, kind, to);
    case CancelConnection(connection) => CancelKeeps(s, connection);
    case Sweep(at) => SweepKeeps(s, at);
  }

  /** Work done and received outside the store's lock. */
  lemma {:induction false} OutsideStepKeeps(s: State, step: Step)
    requires Inv(s) && Enabled(s, step)
    requires !(step.Create? || step.Take? || step.CancelConnection? || step.Sweep?)
    ensures Inv(Apply(s, step))
  {
    match step
    case Tick(d) => TickKeeps(s, d);
    case RunCall(item) => CallKeeps(s, item);
    case RunEvent(item) => EventKeepsAll(s, item);
    case Receive(id) => ReceiveKeeps(s, id);
    case ContextDone(id) => ContextKeeps(s, id);
  }

  lemma {:induction false} StepKeeps(s: State, step: Step)
    requires Inv(s) && Enabled(s, step)
    ensures Inv(Apply(s, step))
  {
    if step.Create? || step.Take? || step.CancelConnection? || step.Sweep? {
      StoreStepKeeps(s, step);
    } else {
      OutsideStepKeeps(s, step);
    }
  }

  lemma TickKeeps(s: State, d: nat)
    requires Inv(s)
    ensures Inv(s.(now := s.now + d))
  {
    var t := s.(now := s.now + d);
    assert WorkInv(t) && DesksInv(t);
  }

  lemma CancelKeeps(s: State, connection: string)
    requires Inv(s)
    ensures Inv(Settle(s, ToCancel(s, connection), Cancelled))
  {
    SettleKeeps(s, ToCancel(s, connection), Cancelled);
  }

  lemma EventKeepsAll(s: State, item: Item)
    requires Inv(s) && s.work.owedEvents[item] > 0
    ensures Inv(DoEvent(s, item))
  {
    EventKeeps(s, item);
  }

  lemma ReceiveKeeps(s: State, id: string)
    requires Inv(s) && Enabled(s, Receive(id))
    ensures Inv(WithDesk(s, id, DoReceive(s.desks[id])))
  {
    DeskKeeps(s, id, DoReceive(s.desks[id]));
  }

  lemma ContextKeeps(s: State, id: string)
    requires Inv(s) && Enabled(s, ContextDone(id))
    ensures Inv(WithDesk(s, id, s.desks[id].(waiter := GaveUp)))
  {
    DeskKeeps(s, id, s.desks[id].(waiter := GaveUp));
  }

  lemma InitialInv(now: int)
    ensures Inv(Initial(now))
  {
  }

  /** Claims are final, time does not run back, deadlines do not move, and what was done stays done. */
  ghost predicate Later(s: State, t: State) {
    && s.now <= t.now
    && (forall id :: id in s.actions ==> id in t.actions && t.actions[id].expiresAt == s.actions[id].expiresAt)
    && (forall id :: id in s.claims ==> id in t.claims && t.claims[id] == s.claims[id])
  }

  lemma {:induction false} StepLater(s: State, step: Step)
    requires ClaimsInv(s) && Enabled(s, step)
    ensures Later(s, Apply(s, step))
  {
  }

  lemma {:induction false} RunKeeps(s: State, steps: seq<Step>, t: State)
    requires Inv(s) && Run(s, steps, t)
    ensures Inv(t) && Later(s, t)
    decreases |steps|
  {
    if steps != [] {
      StepKeeps(s, steps[0]);
      StepLater(s, steps[0]);
      RunKeeps(Apply(s, steps[0]), steps[1..], t);
    }
  }

  // ---------------------------------------------------------------- theorems

  /** Callbacks run for an action, whatever their kind. */
  function Calls(s: State, id: string): nat {
    s.work.calls[Item(id, Approved)] + Rejections(s.work.calls, id)
  }

  function Events(s: State, id: string): nat {
    s.work.events[Item(id, Approved)] + Rejections(s.work.events, id)
  }

  function Owed(s: State, id: string): nat {
    (s.work.owedCalls[Item(id, Approved)] + Rejections(s.work.owedCalls, id)) +
    (s.work.owedEvents[Item(id, Approved)] + Rejections(s.work.owedEvents, id))
  }

  /** The counts of one action when its claim is known. */
  lemma Counted(s: State, id: string)
    requires WorkInv(s)
    ensures Calls(s, id) <= 1 && Events(s, id) <= 1
    ensures Owed(s, id) + Events(s, id) == (if id in s.claims then 1 else 0)
    ensures id in s.claims && Events(s, id) == 1 ==> s.work.events[Item(id, s.claims[id].outcome)] == 1
  {
    var a, r, x, c := Item(id, Approved), Item(id, Refused), Item(id, TimedOut), Item(id, Cancelled);
    assert s.work.owedCalls[a] + s.work.owedEvents[a] + s.work.events[a] == (if ClaimedAs(s.claims, a) then 1 else 0);
    assert s.work.owedCalls[r] + s.work.owedEvents[r] + s.work.events[r] == (if ClaimedAs(s.claims, r) then 1 else 0);
    assert s.work.owedCalls[x] + s.work.owedEvents[x] + s.work.events[x] == (if ClaimedAs(s.claims, x) then 1 else 0);
    assert s.work.owedCalls[c] + s.work.owedEvents[c] + s.work.events[c] == (if ClaimedAs(s.claims, c) then 1 else 0);
  }

  /** The final status an outcome leaves. */
  ghost predicate StatusIs(st: Status, o: Outcome) {
    && (st == Completed <==> o == Approved)
    && (st == Expired <==> o == TimedOut)
    && (st == Denied <==> o == Refused || o == Cancelled)
  }

  /**
   In every run each action gets at most one callback and at most one resolved event. Once
   it has left pending and its claimer is done, it has had exactly one event, whose outcome
   matches its final status, and exactly one callback if its creator passed any.
   */
  lemma ResolvedExactlyOnce(now: int, steps: seq<Step>, s: State, id: string)
    requires Run(Initial(now), steps, s)
    ensures Calls(s, id) <= 1 && Events(s, id) <= 1
    ensures id in s.actions && s.actions[id].status == Pending ==> Calls(s, id) == 0 && Events(s, id) == 0
    ensures id in s.actions && s.actions[id].status != Pending && Owed(s, id) == 0 ==>
      && id in s.claims && Events(s, id) == 1 && s.work.events[Item(id, s.claims[id].outcome)] == 1
      && (s.actions[id].wired ==> Calls(s, id) == 1 && s.work.calls[Item(id, s.claims[id].outcome)] == 1)
    ensures id in s.claims ==> id in s.actions && StatusIs(s.actions[id].status, s.claims[id].outcome)
  {
    InitialInv(now);
    RunKeeps(Initial(now), steps, s);
    Counted(s, id);
    if id in s.claims {
      var i := Item(id, s.claims[id].outcome);
      assert ClaimedAs(s.claims, i);
      assert s.work.calls[i] == (if s.actions[id].wired then s.work.owedEvents[i] + s.work.events[i] else 0);
      assert i.outcome == Approved || i.outcome == Refused || i.outcome == TimedOut || i.outcome == Cancelled;
    }
  }

  /** No action is deleted unresolved: whatever is still pending is still in the store. */
  lemma PendingIsListed(now: int, steps: seq<Step>, s: State, id: string)
    requires Run(Initial(now), steps, s) && id in s.actions
    ensures s.actions[id].status == Pending ==> id in s.listed
    ensures id !in s.listed ==> id in s.claims
  {
    InitialInv(now);
    RunKeeps(Initial(now), steps, s);
  }

  /** A callback that is owed always finds its one-slot channel empty: the send never blocks. */
  lemma SendNeverBlocks(now: int, steps: seq<Step>, s: State, item: Item)
    requires Run(Initial(now), steps, s) && s.work.owedCalls[item] > 0
    ensures Enabled(s, RunCall(item))
    ensures s.desks[item.id].results == 0 && s.desks[item.id].errors == 0
  {
    InitialInv(now);
    RunKeeps(Initial(now), steps, s);
    Counted(s, item.id);
    assert ClaimedAs(s.claims, item);
    NoCallsYet(s, item);
  }

  lemma NoCallsYet(s: State, item: Item)
    requires WorkInv(s) && s.work.owedCalls[item] > 0
    ensures Calls(s, item.id) == 0
  {
    assert ClaimedAs(s.claims, item);
    forall o: Outcome ensures s.work.calls[Item(item.id, o)] == 0 {
      var i := Item(item.id, o);
      assert s.work.owedCalls[i] + s.work.owedEvents[i] + s.work.events[i] == (if ClaimedAs(s.claims, i) then 1 else 0);
    }
  }

  /** The waiting signer is told "approved" only for an action that was approved, before its deadline. */
  lemma ApprovedMeansApproved(now: int, steps: seq<Step>, s: State, id: string)
    requires Run(Initial(now), steps, s) && id in s.desks && s.desks[id].waiter == GotResult
    ensures id in s.claims && id in s.actions
    ensures s.claims[id].outcome == Approved && s.claims[id].at < s.actions[id].expiresAt
  {
    InitialInv(now);
    RunKeeps(Initial(now), steps, s);
    var i := Item(id, Approved);
    assert DeskOk(s.desks[id], s.work.calls[i], Rejections(s.work.calls, id));
    assert s.work.owedCalls[i] + s.work.owedEvents[i] + s.work.events[i] == (if ClaimedAs(s.claims, i) then 1 else 0);
  }

  /** No approval is ever claimed at or after the deadline, whatever the sweeps do. */
  lemma NoLateApproval(now: int, steps: seq<Step>, s: State, id: string)
    requires Run(Initial(now), steps, s) && id in s.claims && s.claims[id].outcome == Approved
    ensures id in s.actions && s.claims[id].at < s.actions[id].expiresAt
  {
    InitialInv(now);
    RunKeeps(Initial(now), steps, s);
  }

  lemma TakeTells(s: State, id: string, kind: Option<Kind>, to: Outcome)
    requires ClaimsInv(s) && (to == Approved || to == Refused)
    ensures
      var res, t := TakeResult(s, id, kind, to), DoTake(s, id, kind, to);
      && (res.won <==> id !in s.claims && id in t.claims && t.claims[id].outcome == to)
      && (res.found <==> id in s.listed && id in s.actions && (kind.Some? ==> s.actions[id].kind == kind.value))
      && (res.found ==> id in t.actions && t.actions[id].status == res.status != Pending)
      && (res.won ==> res.found && res.status == if to == Approved then Completed else Denied)
      && (res.found && id !in s.claims ==> (res.won <==> s.now < s.actions[id].expiresAt))
      && (res.found && id !in s.claims && !res.won ==> res.status == Expired)
      && (!res.found ==> t == s)
      && (forall other :: other in s.actions && other != id ==> t.actions[other] == s.actions[other])
  {
  }

  /**
   A claim's answer is the truth: won exactly when this call took the action out of pending, and
   the status it names is the status held.
   */
  lemma ClaimIsTruthful(now: int, steps: seq<Step>, s: State, id: string, kind: Option<Kind>, to: Outcome)
    requires Run(Initial(now), steps, s) && (to == Approved || to == Refused)
    ensures
      var res, t := TakeResult(s, id, kind, to), DoTake(s, id, kind, to);
      && (res.won <==> id !in s.claims && id in t.claims && t.claims[id].outcome == to)
      && (res.found <==> id in s.listed && id in s.actions && (kind.Some? ==> s.actions[id].kind == kind.value))
      && (res.found ==> id in t.actions && t.actions[id].status == res.status != Pending)
      && (res.won ==> res.found && res.status == if to == Approved then Completed else Denied)
      && (res.found && id !in s.claims ==> (res.won <==> s.now < s.actions[id].expiresAt))
      && (res.found && id !in s.claims && !res.won ==> res.status == Expired)
      && (!res.found ==> t == s)
      && (forall other :: other in s.actions && other != id ==> t.actions[other] == s.actions[other])
  {
    InitialInv(now);
    RunKeeps(Initial(now), steps, s);
    TakeTells(s, id, kind, to);
  }

  /** With the outcome on record, no callback of another outcome has run. */
  lemma OnlyItsOutcome(s: State, id: string, o: Outcome)
    requires WorkInv(s) && id in s.claims && s.claims[id].outcome != o
    ensures s.work.calls[Item(id, o)] == 0
  {
    assert !ClaimedAs(s.claims, Item(id, o));
  }

  /**
   A deny answered 200 means no approval callback has run or will ever run for that action,
   in the rest of any run.
   */
  lemma DenyIsFinal(now: int, steps: seq<Step>, s: State, id: string, more: seq<Step>, t: State)
    requires Run(Initial(now), steps, s)
    requires DenyReply(TakeResult(s, id, None, Refused)).code == 200
    requires Run(DoTake(s, id, None, Refused), more, t)
    ensures t.work.calls[Item(id, Approved)] == 0
    ensures id in t.claims && t.claims[id].outcome != Approved
    ensures id in t.actions && DenyReply(TakeResult(s, id, None, Refused)).status == Some(t.actions[id].status)
    ensures t.actions[id].status == Denied || t.actions[id].status == Expired
  {
    InitialInv(now);
    RunKeeps(Initial(now), steps, s);
    var u := DoTake(s, id, None, Refused);
    TakeKeeps(s, id, None, Refused);
    DeniedNow(s, id);
    RunKeeps(u, more, t);
    OnlyItsOutcome(t, id, Approved);
  }

  lemma DeniedNow(s: State, id: string)
    requires ClaimsInv(s) && ClaimsInv(DoTake(s, id, None, Refused))
    requires DenyReply(TakeResult(s, id, None, Refused)).code == 200
    ensures
      var u := DoTake(s, id, None, Refused);
      && id in u.claims && u.claims[id].outcome != Approved && id in u.actions
      && DenyReply(TakeResult(s, id, None, Refused)).status == Some(u.actions[id].status)
  {
    TakeTells(s, id, None, Refused);
  }

  /** A resolve answered 200 is the one call that approved the action; no later outcome replaces it. */
  lemma ResolveIsFinal(now: int, steps: seq<Step>, s: State, id: string, kind: Kind, more: seq<Step>, t: State)
    requires Run(Initial(now), steps, s)
    requires ResolveReply(TakeResult(s, id, Some(kind), Approved)).code == 200
    requires Run(DoTake(s, id, Some(kind), Approved), more, t)
    ensures id !in s.claims && id in t.claims && t.claims[id].outcome == Approved
    ensures id in t.actions && t.actions[id].status == Completed
    ensures Rejections(t.work.calls, id) == 0
  {
    InitialInv(now);
    RunKeeps(Initial(now), steps, s);
    TakeKeeps(s, id, Some(kind), Approved);
    TakeTells(s, id, Some(kind), Approved);
    RunKeeps(DoTake(s, id, Some(kind), Approved), more, t);
    OnlyItsOutcome(t, id, Refused);
    OnlyItsOutcome(t, id, TimedOut);
    OnlyItsOutcome(t, id, Cancelled);
  }

  // ---------------------------------------------------------------- what each operation does

  /** An action is born pending, listed, with its deadline one minute after the clock reading. */
  lemma CreateSays(s: State, id: string, account: string, kind: Kind, connection: string, wired: bool, at: int)
    requires Enabled(s, Create(id, account, kind, connection, wired, at))
    ensures
      var t := Apply(s, Create(id, account, kind, connection, wired, at));
      && id in t.listed && id in t.actions && t.listed == s.listed + {id}
      && t.actions[id] == Action(account, kind, Pending, at + 60_000, connection, wired)
      && (forall other :: other in s.actions ==> t.actions[other] == s.actions[other])
  {
  }

  /** A dead connection's pending actions, and no others, leave pending, as cancelled and denied. */
  lemma CancelSays(now: int, steps: seq<Step>, s: State, connection: string, id: string)
    requires Run(Initial(now), steps, s) && id in s.actions
    ensures
      var t := Apply(s, CancelConnection(connection));
      && id in t.actions
      && (if s.actions[id].status == Pending && s.actions[id].connection == connection
          then id in t.claims && t.claims[id].outcome == Cancelled && t.actions[id].status == Denied
          else t.actions[id] == s.actions[id] && (id in t.claims <==> id in s.claims))
  {
    ClaimsReached(now, steps, s);
    CancelTakes(s, connection, id);
  }

  lemma ClaimsReached(now: int, steps: seq<Step>, s: State)
    requires Run(Initial(now), steps, s)
    ensures ClaimsInv(s)
  {
    InitialInv(now);
    RunKeeps(Initial(now), steps, s);
  }

  lemma {:induction false} CancelTakes(s: State, connection: string, id: string)
    requires ClaimsInv(s) && id in s.actions
    ensures
      var t := Settle(s, ToCancel(s, connection), Cancelled);
      && id in t.actions
      && (if s.actions[id].status == Pending && s.actions[id].connection == connection
          then id in t.claims && t.claims[id].outcome == Cancelled && t.actions[id].status == Denied
          else t.actions[id] == s.actions[id] && (id in t.claims <==> id in s.claims))
  {
  }

  /** A sweep expires what is pending and overdue, and unlists what is then terminal and two minutes overdue. */
  lemma SweepSays(now: int, steps: seq<Step>, s: State, at: int, id: string)
    requires Run(Initial(now), steps, s) && Enabled(s, Sweep(at)) && id in s.actions
    ensures
      var t := Apply(s, Sweep(at));
      && id in t.actions
      && (if s.actions[id].status == Pending && s.actions[id].expiresAt <= at
          then id in t.claims && t.claims[id].outcome == TimedOut && t.actions[id].status == Expired
          else t.actions[id] == s.actions[id] && (id in t.claims <==> id in s.claims))
      && (id in t.listed <==>
            id in s.listed && (t.actions[id].status == Pending || at - s.actions[id].expiresAt <= 120_000))
  {
    ClaimsReached(now, steps, s);
  }

  /** The waiting signer can always take what was sent to it, and learns "approved" exactly from an approval. */
  lemma WaiterLearns(now: int, steps: seq<Step>, s: State, item: Item)
    requires Run(Initial(now), steps, s) && s.work.calls[item] > 0
    requires item.id in s.desks && s.desks[item.id].waiter == Waiting
    ensures Enabled(s, Receive(item.id))
    ensures
      var d := Apply(s, Receive(item.id)).desks[item.id];
      d.waiter == if item.outcome == Approved then GotResult else GotError
  {
    InitialInv(now);
    RunKeeps(Initial(now), steps, s);
    Counted(s, item.id);
    OneCallOnly(s, item);
  }

  /** One callback means none of any other outcome. */
  lemma OneCallOnly(s: State, item: Item)
    requires WorkInv(s) && s.work.calls[item] > 0
    ensures Calls(s, item.id) == s.work.calls[item] == 1
  {
    assert ClaimedAs(s.claims, item);
    forall o: Outcome | o != item.outcome ensures s.work.calls[Item(item.id, o)] == 0 {
      assert !ClaimedAs(s.claims, Item(item.id, o));
    }
  }

  /**
   The deny handler's answers: 404 exactly when the store no longer has the action, 200 with
   the final status exactly when no signature was or will be given, 409 otherwise.
   */
  lemma DenyAnswers(now: int, steps: seq<Step>, s: State, id: string)
    requires Run(Initial(now), steps, s)
    ensures
      var reply, t := DenyReply(TakeResult(s, id, None, Refused)), DoTake(s, id, None, Refused);
      && (reply == Reply(404, None) <==> id !in s.listed)
      && (id in s.listed ==>
            && id in t.actions
            && reply == Reply(if t.actions[id].status == Completed then 409 else 200, Some(t.actions[id].status)))
  {
    ClaimIsTruthful(now, steps, s, id, None, Refused);
    InitialInv(now);
    RunKeeps(Initial(now), steps, s);
  }

  /** The resolve handler's answers: 200 exactly when this call approved the action; else the status held, or 404. */
  lemma ResolveAnswers(now: int, steps: seq<Step>, s: State, id: string, kind: Kind)
    requires Run(Initial(now), steps, s)
    ensures
      var reply, t := ResolveReply(TakeResult(s, id, Some(kind), Approved)), DoTake(s, id, Some(kind), Approved);
      && (reply == Reply(404, None) <==> id !in s.listed || id !in s.actions || s.actions[id].kind != kind)
      && (id in s.listed && id in s.actions && s.actions[id].kind == kind ==>
            if s.actions[id].status == Pending && s.now < s.actions[id].expiresAt
            then reply == Reply(200, None) && id in t.actions && t.actions[id].status == Completed
            else id in t.actions && reply == Reply(409, Some(t.actions[id].status)))
  {
    ClaimIsTruthful(now, steps, s, id, Some(kind), Approved);
    InitialInv(now);
    RunKeeps(Initial(now), steps, s);
  }

  /** A callback that runs reaches its action's channel and leaves the event owed; an event that runs is emitted. */
  lemma WorkSays(s: State, item: Item)
    ensures Enabled(s, RunCall(item)) ==>
      var t := Apply(s, RunCall(item));
      && t.work.owedCalls[item] == s.work.owedCalls[item] - 1 && t.work.owedEvents[item] == s.work.owedEvents[item] + 1
      && (s.actions[item.id].wired ==>
            && t.work.calls[item] == s.work.calls[item] + 1
            && t.desks[item.id].results == s.desks[item.id].results + (if item.outcome == Approved then 1 else 0)
            && t.desks[item.id].errors == s.desks[item.id].errors + (if item.outcome == Approved then 0 else 1))
    ensures Enabled(s, RunEvent(item)) ==>
      var t := Apply(s, RunEvent(item));
      t.work.owedEvents[item] == s.work.owedEvents[item] - 1 && t.work.events[item] == s.work.events[item] + 1
  {
  }

  /** Time passes, and a waiter whose context is done stops waiting. */
  lemma WaitSays(s: State, d: nat, id: string)
    ensures Apply(s, Tick(d)) == s.(now := s.now + d)
    ensures Enabled(s, ContextDone(id)) ==> Apply(s, ContextDone(id)).desks[id] == s.desks[id].(waiter := GaveUp)
  {
  }
}
