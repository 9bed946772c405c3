/**
 The session registry (internal/terminal/manager.go) as atomic steps: one step is one
 critical section of Manager.mu, one context cancellation, or one transport event. Any
 number of sessions, Close calls and sweeps run at once; status hooks and removed hooks
 are separate later steps.
 */
module Sessions {
  import opened Common
  import SessionStatus

  datatype Status = Opening | Open | Closing | Closed | Error

  /** A status as it is called where setup is over. */
  function Up(st: SessionStatus.Status): Status {
    match st
    case Open => Open
    case Closing => Closing
    case Closed => Closed
    case Error => Error
  }

  /** A close reason; "" is "not stamped yet". */
  type Reason = string

  const TRANSPORT_ERROR: Reason := "transport-error"
  const SERVER_HANGUP: Reason := "server-hangup"

  datatype Event = Event(status: Status, previous: Status, reason: Reason)

  /** A session's status and close reason, and the status events emitted for it in lock order. */
  datatype Life = Life(status: Status, reason: Reason, trace: seq<Event>)

  function Stamp(current: Reason, reason: Reason): Reason {
    if reason != "" && current == "" then reason else current
  }

  function Move(l: Life, status: Status, reason: Reason): Life {
    var stamped := Stamp(l.reason, reason);
    Life(status, stamped, l.trace + [Event(status, l.status, stamped)])
  }

  /** setStatus refuses: same status, a final status, or an open that arrives while closing. */
  predicate Absorbs(prev: Status, status: Status) {
    prev == status || prev == Closed || prev == Error || (prev == Closing && status == Open)
  }

  function SetStatus(l: Life, status: Status, reason: Reason): Life {
    if Absorbs(l.status, status) then l else Move(l, status, reason)
  }

  /** beginClosing refuses only a session that is already closing or closed. */
  predicate MayClose(l: Life) { l.status != Closed && l.status != Closing }

  function BeginClosing(l: Life, reason: Reason): Life {
    if MayClose(l) then Move(l, Closing, reason) else l
  }

  /** Create's goroutine. */
  datatype CreatePc =
    | InFactory | Returned(ok: bool)
    | ErrStatus | ErrRemove
    | AbortClose | AbortStatus | AbortRemove
    | Refused                       // Create returned an error
    | BeforeOpen | BeforePump
    | Established                   // Create returned the session

  datatype PumpPc = NotStarted | Ranging | Stopping(failed: bool) | Setting(failed: bool, why: Reason) | Done

  /** The transport the factory returned for the session, if any. */
  datatype Link = Link(returned: bool, closeCalled: bool, ended: bool)

  /** The setup half of a registered entry: transport adopted, cancelSetup present, context cancelled. */
  datatype Setup = Setup(adopted: bool, cancelable: bool, cancelled: bool)

  /** `closer` is the Close call that last moved the session to closing. */
  datatype Sess = Sess(account: string, life: Life, create: CreatePc, setup: Setup, link: Link,
                       pump: PumpPc, abandoned: bool, closer: Option<Tid>)

  /** A Close call: a direct one, or the one a sweep spawned for a session. */
  datatype Tid = Direct(n: nat) | ForSweep(job: nat, target: string)

  datatype CloserPc =
    | Started | Got | Began | Cancelling | HasTransport | Joining | Finishing | Removing | Ended

  datatype Closer = Closer(sid: string, reason: Reason, pc: CloserPc)

  /** closeAll over a snapshot of ids; `shutdown` when Destroy took it. */
  datatype Job = Job(ids: set<string>, shutdown: bool)

  datatype State = State(
    destroyed: bool,
    sessions: map<string, Sess>,       // every session ever registered; goroutines keep the pointers
    registered: set<string>,           // the terminals map
    closers: map<Tid, Closer>,
    jobs: map<nat, Job>,
    pending: multiset<string>,         // removals whose hooks have not run yet
    fired: multiset<string>)           // removed hooks that have run

  function Initial(): State {
    State(false, map[], {}, map[], map[], multiset{}, multiset{})
  }

  function Fresh(account: string): Sess {
    Sess(account, Life(Opening, "", []), InFactory, Setup(false, true, false), Link(false, false, false),
         NotStarted, false, None)
  }

  datatype CreateStep = FactoryReturn(ok: bool) | Adopt | CreateNext | StartPump

  datatype PumpStep = TransportEnd | PumpStop(failed: bool) | PumpReason | PumpSet

  datatype CloseStep =
    | CloseGet | CloseBegin | CloseLook | CloseCancel | CloseTransport | CloseJoin | CloseGiveUp | CloseSet
    | CloseRemove

  datatype Step =
    | Register(sid: string, account: string)
    | Create(sid: string, c: CreateStep)
    | CreateRemove(sid: string)
    | Pump(sid: string, p: PumpStep)
    | CloseCall(t: Tid, sid: string, reason: Reason)
    | Close(t: Tid, k: CloseStep)
    | PurgeAccount(account: string)
    | FireRemoved(sid: string)
    | Sweep(job: nat, ids: set<string>, shutdown: bool)

  // ---------------------------------------------------------------- steps of one session

  predicate CanCreate(x: Sess, c: CreateStep) {
    match c
    case FactoryReturn(_) => x.create == InFactory
    case Adopt => x.create.Returned?
    case CreateNext => x.create == ErrStatus || x.create == AbortClose || x.create == AbortStatus ||
        x.create == BeforeOpen
    case StartPump => x.create == BeforePump
  }

  /** The section that adopts the transport unless a Close already moved the session. */
  function AdoptSection(x: Sess): Sess
    requires x.create.Returned?
  {
    var ok := x.create.ok;
    var aborted := x.life.status != Opening;
    x.(setup := x.setup.(cancelable := false, adopted := ok && !aborted),
       create := if !ok then ErrStatus else if aborted then AbortClose else BeforeOpen)
  }

  function DoCreate(x: Sess, c: CreateStep): Sess
    requires CanCreate(x, c)
  {
    match c
    case FactoryReturn(ok) => x.(create := Returned(ok), link := x.link.(returned := ok))
    case Adopt => AdoptSection(x)
    case CreateNext =>
      (match x.create
       case ErrStatus => x.(life := SetStatus(x.life, Closed, TRANSPORT_ERROR), create := ErrRemove)
       case AbortClose => x.(link := x.link.(closeCalled := true), create := AbortStatus)
       case AbortStatus => x.(life := SetStatus(x.life, Closed, ""), create := AbortRemove)
       case _ => x.(life := SetStatus(x.life, Open, ""), create := BeforePump))
    case StartPump => x.(pump := Ranging, create := Established)
  }

  predicate CanPump(x: Sess, p: PumpStep) {
    match p
    case TransportEnd => x.link.returned
    case PumpStop(_) => x.pump == Ranging && x.link.ended
    case PumpReason => x.pump.Stopping?
    case PumpSet => x.pump.Setting?
  }

  function DoPump(x: Sess, p: PumpStep): Sess
    requires CanPump(x, p)
  {
    match p
    case TransportEnd => x.(link := x.link.(ended := true))
    case PumpStop(failed) => x.(pump := Stopping(failed))
    case PumpReason =>
      var why := if x.life.reason != "" then x.life.reason
                 else if x.pump.failed then TRANSPORT_ERROR else SERVER_HANGUP;
      x.(pump := Setting(x.pump.failed, why))
    case PumpSet =>
      x.(life := SetStatus(x.life, if x.pump.failed then Error else Closed, x.pump.why), pump := Done)
  }

  // ---------------------------------------------------------------- Close calls

  predicate CanCloseStep(x: Sess, pc: CloserPc, k: CloseStep) {
    match k
    case CloseGet => pc == Started
    case CloseBegin => pc == Got
    case CloseLook => pc == Began
    case CloseCancel => pc == Cancelling
    case CloseTransport => pc == HasTransport
    case CloseJoin => pc == Joining && x.pump == Done
    case CloseGiveUp => pc == Joining
    case CloseSet => pc == Finishing
    case CloseRemove => pc == Removing
  }

  /** What the section does to the session itself. */
  function CloseSess(x: Sess, t: Tid, reason: Reason, k: CloseStep): Sess {
    match k
    case CloseBegin => if MayClose(x.life) then x.(life := BeginClosing(x.life, reason), closer := Some(t)) else x
    case CloseCancel => x.(setup := x.setup.(cancelled := true))
    case CloseTransport => x.(link := x.link.(closeCalled := true))
    case CloseGiveUp => x.(abandoned := true)
    case CloseSet => x.(life := SetStatus(x.life, Closed, reason))
    case _ => x
  }

  /** Where the call goes next. */
  function CloseNext(x: Sess, isRegistered: bool, k: CloseStep): CloserPc {
    match k
    case CloseGet => if isRegistered then Got else Ended
    case CloseBegin => if MayClose(x.life) then Began else Ended
    case CloseLook =>
      if x.setup.adopted then HasTransport else if x.setup.cancelable then Cancelling else Ended
    case CloseCancel => Ended
    case CloseTransport => Joining
    case CloseJoin => Finishing
    case CloseGiveUp => Finishing
    case CloseSet => Removing
    case CloseRemove => Ended
  }

  // ---------------------------------------------------------------- the registry

  predicate Purgeable(x: Sess, account: string) {
    x.account == account && (x.life.status == Closed || x.life.status == Error)
  }

  function ToPurge(s: State, account: string): set<string> {
    set sid | sid in s.registered && sid in s.sessions && Purgeable(s.sessions[sid], account)
  }

  predicate Enabled(s: State, step: Step) {
    match step
    case Register(sid, _) => sid !in s.sessions
    case Create(sid, c) => sid in s.sessions && CanCreate(s.sessions[sid], c)
    case CreateRemove(sid) =>
      sid in s.sessions && (s.sessions[sid].create == ErrRemove || s.sessions[sid].create == AbortRemove)
    case Pump(sid, p) => sid in s.sessions && CanPump(s.sessions[sid], p)
    case CloseCall(t, sid, _) =>
      && t !in s.closers && sid in s.sessions
      && (t.ForSweep? ==> t.target == sid && t.job in s.jobs && sid in s.jobs[t.job].ids)
    case Close(t, k) =>
      && t in s.closers && s.closers[t].sid in s.sessions
      && CanCloseStep(s.sessions[s.closers[t].sid], s.closers[t].pc, k)
    case PurgeAccount(_) => true
    case FireRemoved(sid) => s.pending[sid] > 0
    case Sweep(job, ids, shutdown) =>
      job !in s.jobs && ids <= s.registered && (shutdown ==> ids == s.registered)
  }

  function WithSession(s: State, sid: string, x: Sess): State { s.(sessions := s.sessions[sid := x]) }

  /** removeEntry: only the call that finds the entry deletes it and owes its hooks. */
  function RemoveEntry(s: State, sid: string): State {
    if sid in s.registered then s.(registered := s.registered - {sid}, pending := s.pending + multiset{sid}) else s
  }

  /** A Close call's section, before any removal. */
  function Section(s: State, t: Tid, k: CloseStep): State
    requires Enabled(s, Close(t, k))
  {
    var c := s.closers[t];
    var x := s.sessions[c.sid];
    WithSession(s, c.sid, CloseSess(x, t, c.reason, k))
      .(closers := s.closers[t := c.(pc := CloseNext(x, c.sid in s.registered, k))])
  }

  function DoClose(s: State, t: Tid, k: CloseStep): State
    requires Enabled(s, Close(t, k))
  {
    if k == CloseRemove then RemoveEntry(Section(s, t, k), s.closers[t].sid) else Section(s, t, k)
  }

  /** Create gives up and takes its entry out. */
  function DoRefuse(s: State, sid: string): State
    requires sid in s.sessions
  {
    RemoveEntry(WithSession(s, sid, s.sessions[sid].(create := Refused)), sid)
  }

  function Apply(s: State, step: Step): State
    requires Enabled(s, step)
  {
    match step
    case Register(sid, account) =>
      if s.destroyed then s
      else WithSession(s, sid, Fresh(account)).(registered := s.registered + {sid})
    case Create(sid, c) => WithSession(s, sid, DoCreate(s.sessions[sid], c))
    case CreateRemove(sid) => DoRefuse(s, sid)
    case Pump(sid, p) => WithSession(s, sid, DoPump(s.sessions[sid], p))
    case CloseCall(t, sid, reason) => s.(closers := s.closers[t := Closer(sid, reason, Started)])
    case Close(t, k) => DoClose(s, t, k)
    case PurgeAccount(account) =>
      var gone := ToPurge(s, account);
      s.(registered := s.registered - gone, pending := s.pending + multiset(gone))
    case FireRemoved(sid) => s.(pending := s.pending - multiset{sid}, fired := s.fired + multiset{sid})
    case Sweep(job, ids, shutdown) =>
      s.(jobs := s.jobs[job := Job(ids, shutdown)], destroyed := s.destroyed || shutdown)
  }

  ghost predicate Run(s: State, steps: seq<Step>, t: State)
    decreases |steps|
  {
    if steps == [] then s == t
    else Enabled(s, steps[0]) && Run(Apply(s, steps[0]), steps[1..], t)
  }

  /** closeAll has returned: every Close it spawned has. */
  ghost predicate JobReturned(s: State, job: nat) {
    && job in s.jobs
    && forall sid :: sid in s.jobs[job].ids ==>
         ForSweep(job, sid) in s.closers && s.closers[ForSweep(job, sid)].pc == Ended
  }
}
