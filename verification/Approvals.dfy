/**
 The pending-action store and its broker (internal/approval/store.go,
 internal/approval/broker.go) as atomic steps. One step is one critical section of the
 store, one resolution callback, one audit emission, or one move of the waiting signer.
 Whoever takes an action out of pending owes its callback and then its event; both are
 separate later steps, so any number of claims, sweeps and cancels overlap.
 */
module Approvals {
  import opened Common

  /** Milliseconds. */
  const ACTION_TTL: int := 60_000
  const CLEANUP_GRACE: int := 120_000

  datatype Kind = WebAuthnSign | KeyApprove
  datatype Status = Pending | Completed | Expired | Denied
  datatype Outcome = Approved | Refused | TimedOut | Cancelled

  function StatusFor(o: Outcome): Status {
    match o case Approved => Completed case Refused => Denied case TimedOut => Expired case Cancelled => Denied
  }

  /** `wired`: the creator passed resolution callbacks. */
  datatype Action = Action(account: string, kind: Kind, status: Status, expiresAt: int, connection: string, wired: bool)

  /** What a resolution attempt learns. */
  datatype ClaimResult = ClaimResult(won: bool, found: bool, status: Status)

  /** History: how and when an action left pending. */
  datatype Claim = Claim(outcome: Outcome, at: int)

  /** One piece of work a claimer owes, or has done. */
  datatype Item = Item(id: string, outcome: Outcome)

  /** Callbacks and events: owed, and done. */
  datatype Work = Work(owedCalls: multiset<Item>, owedEvents: multiset<Item>,
                       calls: multiset<Item>, events: multiset<Item>)

  /** The goroutine blocked in RequestSign or RequestKeyApproval, and its two one-slot channels. */
  datatype Waiter = Waiting | GotResult | GotError | GaveUp
  datatype Desk = Desk(waiter: Waiter, results: nat, errors: nat)

  datatype State = State(
    now: int,
    actions: map<string, Action>,      // every action ever created; claimers keep the pointers
    listed: set<string>,               // the store's map
    claims: map<string, Claim>,
    work: Work,
    desks: map<string, Desk>)

  function Initial(now: int): State {
    State(now, map[], {}, map[], Work(multiset{}, multiset{}, multiset{}, multiset{}), map[])
  }

  datatype Step =
    | Tick(d: nat)
    | Create(id: string, account: string, kind: Kind, connection: string, wired: bool, at: int)
    | Take(id: string, only: Option<Kind>, to: Outcome)
    | CancelConnection(connection: string)
    | Sweep(at: int)
    | RunCall(item: Item)
    | RunEvent(item: Item)
    | Receive(id: string)
    | ContextDone(id: string)

  /** The action a claim finds: listed, and of the claimed kind when one is named. */
  predicate Findable(s: State, id: string, kind: Option<Kind>) {
    id in s.listed && id in s.actions && (kind.Some? ==> s.actions[id].kind == kind.value)
  }

  /** The outcome takePending gives a findable action, or none when it is terminal already. */
  function TakeOutcome(a: Action, to: Outcome, now: int): Option<Outcome> {
    if a.status != Pending then None
    else if a.expiresAt <= now then Some(TimedOut)
    else Some(to)
  }

  function TakeResult(s: State, id: string, kind: Option<Kind>, to: Outcome): ClaimResult {
    if !Findable(s, id, kind) then ClaimResult(false, false, Pending)
    else
      match TakeOutcome(s.actions[id], to, s.now)
      case None => ClaimResult(false, true, s.actions[id].status)
      case Some(TimedOut) => ClaimResult(false, true, Expired)
      case Some(o) => ClaimResult(true, true, StatusFor(o))
  }

  function ToCancel(s: State, connection: string): set<string> {
    set id | id in s.listed && id in s.actions
      && s.actions[id].status == Pending && s.actions[id].connection == connection
  }

  function ToExpire(s: State, at: int): set<string> {
    set id | id in s.listed && id in s.actions && s.actions[id].status == Pending && s.actions[id].expiresAt <= at
  }

  /** Terminal after the expiry pass, and past the grace window. */
  function ToDelete(s: State, at: int): set<string> {
    set id | id in s.listed && id in s.actions
      && (s.actions[id].status != Pending || s.actions[id].expiresAt <= at)
      && at - s.actions[id].expiresAt > CLEANUP_GRACE
  }

  function Items(ids: set<string>, o: Outcome): set<Item> { set id | id in ids :: Item(id, o) }

  /** The actions `ids` leave pending with outcome `o`, and their callbacks are owed. */
  function Settle(s: State, ids: set<string>, o: Outcome): State
    requires ids <= s.actions.Keys
  {
    s.(actions := map id | id in s.actions ::
                    if id in ids then s.actions[id].(status := StatusFor(o)) else s.actions[id],
       claims := s.claims + (map id | id in ids :: Claim(o, s.now)),
       work := s.work.(owedCalls := s.work.owedCalls + multiset(Items(ids, o))))
  }

  /** The channel a callback sends on has a free slot. */
  predicate HasRoom(s: State, item: Item) {
    item.id in s.actions && item.id in s.desks &&
    (s.actions[item.id].wired ==>
      if item.outcome == Approved then s.desks[item.id].results < 1 else s.desks[item.id].errors < 1)
  }

  /** A callback whose channel is full does not return: its step is not enabled. */
  predicate Enabled(s: State, step: Step) {
    match step
    case Tick(_) => true
    case Create(id, _, _, _, _, at) => id !in s.actions && at <= s.now
    case Take(_, _, to) => to == Approved || to == Refused
    case CancelConnection(_) => true
    case Sweep(at) => at <= s.now
    case RunCall(item) => s.work.owedCalls[item] > 0 && HasRoom(s, item)
    case RunEvent(item) => s.work.owedEvents[item] > 0
    case Receive(id) =>
      id in s.desks && s.desks[id].waiter == Waiting && (s.desks[id].results > 0 || s.desks[id].errors > 0)
    case ContextDone(id) => id in s.desks && s.desks[id].waiter == Waiting
  }

  /** The closure sends on the one-slot channel of its action. */
  function Send(d: Desk, o: Outcome): Desk {
    if o == Approved then d.(results := d.results + 1) else d.(errors := d.errors + 1)
  }

  function DoCall(s: State, item: Item): State
    requires item.id in s.actions && item.id in s.desks
  {
    var w := s.work.(owedCalls := s.work.owedCalls - multiset{item}, owedEvents := s.work.owedEvents + multiset{item});
    if s.actions[item.id].wired then
      s.(work := w.(calls := w.calls + multiset{item}),
         desks := s.desks[item.id := Send(s.desks[item.id], item.outcome)])
    else s.(work := w)
  }

  function DoEvent(s: State, item: Item): State {
    s.(work := s.work.(owedEvents := s.work.owedEvents - multiset{item}, events := s.work.events + multiset{item}))
  }

  function WithDesk(s: State, id: string, d: Desk): State { s.(desks := s.desks[id := d]) }

  function DoReceive(d: Desk): Desk
    requires d.results > 0 || d.errors > 0
  {
    if d.results > 0 then d.(waiter := GotResult, results := d.results - 1)
    else d.(waiter := GotError, errors := d.errors - 1)
  }

  function DoTake(s: State, id: string, kind: Option<Kind>, to: Outcome): State {
    if Findable(s, id, kind) && TakeOutcome(s.actions[id], to, s.now).Some?
    then Settle(s, {id}, TakeOutcome(s.actions[id], to, s.now).value)
    else s
  }

  function DoSweep(s: State, at: int): State {
    Settle(s, ToExpire(s, at), TimedOut).(listed := s.listed - ToDelete(s, at))
  }

  /** `at` is the clock reading taken before the lock. */
  function NewAction(account: string, kind: Kind, connection: string, wired: bool, at: int): Action {
    Action(account, kind, Pending, at + ACTION_TTL, connection, wired)
  }

  function DoCreate(s: State, id: string, a: Action): State {
    s.(actions := s.actions[id := a], listed := s.listed + {id}, desks := s.desks[id := Desk(Waiting, 0, 0)])
  }

  function Apply(s: State, step: Step): State
    requires Enabled(s, step)
  {
    match step
    case Tick(d) => s.(now := s.now + d)
    case Create(id, account, kind, connection, wired, at) =>
      DoCreate(s, id, NewAction(account, kind, connection, wired, at))
    case Take(id, kind, to) => DoTake(s, id, kind, to)
    case CancelConnection(connection) => Settle(s, ToCancel(s, connection), Cancelled)
    case Sweep(at) => DoSweep(s, at)
    case RunCall(item) => DoCall(s, item)
    case RunEvent(item) => DoEvent(s, item)
    case Receive(id) => WithDesk(s, id, DoReceive(s.desks[id]))
    case ContextDone(id) => WithDesk(s, id, s.desks[id].(waiter := GaveUp))
  }

  ghost predicate Run(s: State, steps: seq<Step>, t: State)
    decreases |steps|
  {
    if steps == [] then s == t
    else Enabled(s, steps[0]) && Run(Apply(s, steps[0]), steps[1..], t)
  }

  // ---------------------------------------------------------------- HTTP answers

  datatype Reply = Reply(code: int, status: Option<Status>)

  /** writeClaimConflict: only a state the store asserted is named. */
  function Conflict(res: ClaimResult): Reply {
    if !res.found then Reply(404, None) else Reply(409, Some(res.status))
  }

  /** The deny handler after its lookup: every no-signature outcome answers 200 with the asserted status. */
  function DenyReply(res: ClaimResult): Reply {
    if res.won || (res.found && (res.status == Denied || res.status == Expired)) then Reply(200, Some(res.status))
    else Conflict(res)
  }

  /** The resolve handler after its checks. */
  function ResolveReply(res: ClaimResult): Reply {
    if res.won then Reply(200, None) else Conflict(res)
  }
}
