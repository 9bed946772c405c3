/** What holds of every session, every Close call and the registry in every run. */
module SessionProofs {
  import opened Common
  import opened Sessions

  // ---------------------------------------------------------------- status traces

  /** The path a session's status can take; Cl1 is closing before an error, Cl2 after it. */
  datatype Phase = Fr | Op | Cl1 | Er | Cl2 | Fin

  function Rank(p: Phase): nat {
    match p case Fr => 0 case Op => 1 case Cl1 => 2 case Er => 3 case Cl2 => 4 case Fin => 5
  }

  function StatusOf(p: Phase): Status {
    match p
    case Fr => Opening
    case Op => Open
    case Cl1 => Closing
    case Er => Error
    case Cl2 => Closing
    case Fin => Closed
  }

  function Advance(p: Phase, st: Status): Option<Phase> {
    match (p, st)
    case (Fr, Open) => Some(Op)
    case (Fr, Closing) => Some(Cl1)
    case (Fr, Closed) => Some(Fin)
    case (Op, Closing) => Some(Cl1)
    case (Op, Error) => Some(Er)
    case (Op, Closed) => Some(Fin)
    case (Cl1, Error) => Some(Er)
    case (Cl1, Closed) => Some(Fin)
    case (Er, Closing) => Some(Cl2)
    case (Cl2, Closed) => Some(Fin)
    case _ => None
  }

  /** The phase a trace leads to, if it is a path. */
  function Walk(trace: seq<Event>): Option<Phase>
    decreases |trace|
  {
    if trace == [] then Some(Fr)
    else
      var prev := Walk(trace[..|trace| - 1]);
      var e := trace[|trace| - 1];
      if prev.None? || e.previous != StatusOf(prev.value) then None else Advance(prev.value, e.status)
  }

  /** Events carry the reason known at the time, and a reason once set is the reason for good. */
  ghost predicate ReasonsFixed(trace: seq<Event>, reason: Reason) {
    && (forall i :: 0 <= i < |trace| && trace[i].reason != "" ==> trace[i].reason == reason)
    && (forall i, j :: 0 <= i < j < |trace| && trace[i].reason != "" ==> trace[j].reason == trace[i].reason)
  }

  ghost predicate LifeOk(l: Life) {
    && Walk(l.trace).Some? && StatusOf(Walk(l.trace).value) == l.status
    && ReasonsFixed(l.trace, l.reason)
  }

  lemma MoveWalk(l: Life, status: Status, reason: Reason)
    requires LifeOk(l) && Advance(Walk(l.trace).value, status).Some?
    ensures LifeOk(Move(l, status, reason))
    ensures Walk(Move(l, status, reason).trace) == Advance(Walk(l.trace).value, status)
  {
    var t := Move(l, status, reason).trace;
    assert t[..|t| - 1] == l.trace;
  }

  /**
   An earlier and a later event of one session: no second open, error or start, no open after
   closing, nothing after closed.
   */
  predicate Compatible(e: Event, f: Event) {
    && !(e.status == Open && f.status == Open)
    && !(e.status == Closing && f.status == Open)
    && !(e.status == Error && f.status == Error)
    && !(e.previous == Opening && f.previous == Opening)
    && e.status != Closed
  }

  /** The properties of a trace that is a path, read off its positions. */
  ghost predicate GoodTrace(trace: seq<Event>) {
    && |trace| <= 5
    && (forall i :: 0 <= i < |trace| ==> trace[i].previous == (if i == 0 then Opening else trace[i - 1].status))
    && (forall i, j :: 0 <= i < j < |trace| ==> Compatible(trace[i], trace[j]))
  }

  /** One step back along a path. */
  lemma LastStep(trace: seq<Event>)
    requires Walk(trace).Some? && trace != []
    ensures
      var n := |trace| - 1;
      && Walk(trace[..n]).Some?
      && trace[n].previous == StatusOf(Walk(trace[..n]).value)
      && trace[n].status == StatusOf(Walk(trace).value)
      && Rank(Walk(trace[..n]).value) < Rank(Walk(trace).value)
  {
  }

  lemma {:induction false} PathLength(trace: seq<Event>)
    requires Walk(trace).Some?
    ensures |trace| <= Rank(Walk(trace).value)
    decreases |trace|
  {
    if trace != [] {
      LastStep(trace);
      PathLength(trace[..|trace| - 1]);
    }
  }

  /** The phases an event leads between lie at or below the phase the path ends in. */
  lemma {:induction false} Behind(trace: seq<Event>, i: nat) returns (p: Phase, q: Phase)
    requires Walk(trace).Some? && i < |trace|
    ensures Rank(p) < Rank(q) <= Rank(Walk(trace).value)
    ensures trace[i].previous == StatusOf(p) && trace[i].status == StatusOf(q)
    decreases |trace|
  {
    var n := |trace| - 1;
    LastStep(trace);
    if i == n {
      p, q := Walk(trace[..n]).value, Walk(trace).value;
    } else {
      p, q := Behind(trace[..n], i);
    }
  }

  lemma {:induction false} Chained(trace: seq<Event>, i: nat)
    requires Walk(trace).Some? && i < |trace|
    ensures trace[i].previous == (if i == 0 then Opening else trace[i - 1].status)
    decreases |trace|
  {
    var n := |trace| - 1;
    LastStep(trace);
    if i < n {
      Chained(trace[..n], i);
    } else if n > 0 {
      LastStep(trace[..n]);
      assert trace[..n][n - 1] == trace[n - 1];
    }
  }

  lemma EventFits(p: Phase, q: Phase, e: Event, r: Phase, t: Phase, f: Event)
    requires Rank(p) < Rank(q) <= Rank(r) < Rank(t)
    requires e.previous == StatusOf(p) && e.status == StatusOf(q)
    requires f.previous == StatusOf(r) && f.status == StatusOf(t)
    ensures Compatible(e, f)
  {
  }

  lemma {:induction false} PairOk(trace: seq<Event>, i: nat, j: nat)
    requires Walk(trace).Some? && i < j < |trace|
    ensures Compatible(trace[i], trace[j])
    decreases |trace|
  {
    var n := |trace| - 1;
    LastStep(trace);
    if j < n {
      PairOk(trace[..n], i, j);
    } else {
      var p, q := Behind(trace[..n], i);
      EventFits(p, q, trace[i], Walk(trace[..n]).value, Walk(trace).value, trace[j]);
    }
  }

  lemma PathIsGood(trace: seq<Event>)
    requires Walk(trace).Some?
    ensures GoodTrace(trace)
  {
    PathLength(trace);
    forall i | 0 <= i < |trace|
      ensures trace[i].previous == (if i == 0 then Opening else trace[i - 1].status)
    {
      Chained(trace, i);
    }
    forall i, j | 0 <= i < j < |trace|
      ensures Compatible(trace[i], trace[j])
    {
      PairOk(trace, i, j);
    }
  }

  // ---------------------------------------------------------------- one session

  predicate Settled(x: Sess) { x.life.status != Opening && x.life.status != Open }

  predicate Connecting(c: CreatePc) { c == InFactory || c.Returned? }

  predicate Failing(c: CreatePc) {
    c == ErrStatus || c == ErrRemove || c == AbortClose || c == AbortStatus || c == AbortRemove || c == Refused
  }

  /** Create's goroutine and what it has done so far. */
  ghost predicate CreateOk(x: Sess) {
    var st := x.life.status;
    && (Connecting(x.create) || Failing(x.create) ==> !x.setup.adopted && x.pump == NotStarted)
    && (!Connecting(x.create) ==> !x.setup.cancelable)
    && (match x.create
        case InFactory =>
          (st == Opening || st == Closing) && !x.link.returned && !x.link.closeCalled && x.setup.cancelable
        case Returned(ok) => (st == Opening || st == Closing) && x.link.returned == ok && !x.link.closeCalled
        case ErrStatus => (st == Opening || st == Closing) && !x.link.returned
        case ErrRemove => st == Closed && !x.link.returned
        case AbortClose => st == Closing && x.link.returned
        case AbortStatus => st == Closing && x.link.closeCalled
        case AbortRemove => st == Closed && x.link.closeCalled
        case Refused => st == Closed && (x.link.returned ==> x.link.closeCalled)
        case BeforeOpen => x.setup.adopted && x.pump == NotStarted && (st == Opening || st == Closing || st == Closed)
        case BeforePump => x.setup.adopted && x.pump == NotStarted && (st == Open || st == Closing || st == Closed)
        case Established => x.setup.adopted && x.pump != NotStarted && st != Opening)
  }

  ghost predicate SessOk(x: Sess) {
    && LifeOk(x.life)
    && CreateOk(x)
    && (x.setup.adopted ==> x.link.returned)
    && (x.pump.Stopping? || x.pump.Setting? || x.pump == Done ==> x.link.ended)
    && (x.life.status == Closed && x.setup.adopted ==> x.link.closeCalled || x.link.ended)
    && (Rank(Walk(x.life.trace).value) == 3 || Rank(Walk(x.life.trace).value) == 4 ==> x.pump == Done)
    && (forall i :: 0 <= i < |x.life.trace| && x.life.trace[i].status == Open ==> x.setup.adopted)
  }

  /** What no later step undoes. */
  ghost predicate Later(a: Sess, b: Sess) {
    && a.account == b.account
    && (Settled(a) ==> Settled(b))
    && (a.setup.adopted ==> b.setup.adopted)
    && (Settled(a) && !a.setup.adopted ==> !b.setup.adopted)
    && (a.setup.cancelled ==> b.setup.cancelled)
    && (a.link.closeCalled ==> b.link.closeCalled)
    && (a.link.ended ==> b.link.ended)
    && a.life.trace <= b.life.trace
    && (a.life.reason != "" ==> b.life.reason == a.life.reason)
  }

  lemma AdoptLocal(x: Sess)
    requires SessOk(x) && x.create.Returned?
    ensures SessOk(AdoptSection(x)) && Later(x, AdoptSection(x))
  {
  }

  lemma FailLocal(x: Sess)
    requires SessOk(x) && x.create == ErrStatus
    ensures SessOk(DoCreate(x, CreateNext)) && Later(x, DoCreate(x, CreateNext))
  {
    MoveWalk(x.life, Closed, TRANSPORT_ERROR);
  }

  lemma AbortLocal(x: Sess)
    requires SessOk(x) && x.create == AbortStatus
    ensures SessOk(DoCreate(x, CreateNext)) && Later(x, DoCreate(x, CreateNext))
  {
    MoveWalk(x.life, Closed, "");
  }

  lemma OpenLocal(x: Sess)
    requires SessOk(x) && x.create == BeforeOpen
    ensures SessOk(DoCreate(x, CreateNext)) && Later(x, DoCreate(x, CreateNext))
  {
    if x.life.status == Opening { MoveWalk(x.life, Open, ""); }
  }

  lemma NextLocal(x: Sess)
    requires SessOk(x) && CanCreate(x, CreateNext)
    ensures SessOk(DoCreate(x, CreateNext)) && Later(x, DoCreate(x, CreateNext))
  {
    match x.create {
      case AbortClose =>
      case BeforeOpen => OpenLocal(x);
      case AbortStatus => AbortLocal(x);
      case _ => FailLocal(x);
    }
  }

  lemma {:induction false} CreateLocal(x: Sess, c: CreateStep)
    requires SessOk(x) && CanCreate(x, c)
    ensures SessOk(DoCreate(x, c)) && Later(x, DoCreate(x, c))
  {
    match c
    case FactoryReturn(ok) =>
    case Adopt => AdoptLocal(x);
    case CreateNext => NextLocal(x);
    case StartPump =>
  }

  lemma {:induction false} PumpLocal(x: Sess, p: PumpStep)
    requires SessOk(x) && CanPump(x, p)
    ensures SessOk(DoPump(x, p)) && Later(x, DoPump(x, p))
  {
    if p == PumpSet {
      var to := if x.pump.failed then Error else Closed;
      if !Absorbs(x.life.status, to) { MoveWalk(x.life, to, x.pump.why); }
    }
  }

  /** What a Close call may rely on at each point. */
  ghost predicate CloserOk(x: Sess, pc: CloserPc) {
    match pc
    case Started => true
    case Got => true
    case Began => Settled(x)
    case Cancelling => Settled(x) && !x.setup.adopted
    case HasTransport => Settled(x) && x.setup.adopted
    case Joining => Settled(x) && x.setup.adopted && x.link.closeCalled
    case Finishing => Settled(x) && x.setup.adopted && x.link.closeCalled
    case Removing => Settled(x) && x.setup.adopted && x.link.closeCalled
    case Ended => Settled(x)
  }

  lemma BeginLocal(x: Sess, reason: Reason, t: Tid)
    requires SessOk(x) && MayClose(x.life)
    ensures SessOk(CloseSess(x, t, reason, CloseBegin)) && Later(x, CloseSess(x, t, reason, CloseBegin))
  {
    MoveWalk(x.life, Closing, reason);
  }

  lemma FinishLocal(x: Sess, reason: Reason, t: Tid)
    requires SessOk(x) && CloserOk(x, Finishing)
    ensures SessOk(CloseSess(x, t, reason, CloseSet)) && Later(x, CloseSess(x, t, reason, CloseSet))
  {
    if !Absorbs(x.life.status, Closed) { MoveWalk(x.life, Closed, reason); }
  }

  lemma {:induction false} CloseLocal(x: Sess, t: Tid, reason: Reason, pc: CloserPc, k: CloseStep, isReg: bool)
    requires SessOk(x) && CloserOk(x, pc) && CanCloseStep(x, pc, k)
    requires k == CloseGet && !isReg ==> Settled(x)
    ensures SessOk(CloseSess(x, t, reason, k)) && Later(x, CloseSess(x, t, reason, k))
    ensures CloserOk(CloseSess(x, t, reason, k), CloseNext(x, isReg, k))
  {
    match k
    case CloseGet =>
    case CloseBegin => if MayClose(x.life) { BeginLocal(x, reason, t); }
    case CloseLook =>
    case CloseCancel =>
    case CloseTransport =>
    case CloseJoin =>
    case CloseGiveUp =>
    case CloseSet => FinishLocal(x, reason, t);
    case CloseRemove =>
  }

  // ---------------------------------------------------------------- the registry

  ghost predicate AtPc(closers: map<Tid, Closer>, who: Option<Tid>, sid: string, a: CloserPc, b: CloserPc) {
    && who.Some? && who.value in closers && closers[who.value].sid == sid
    && (closers[who.value].pc == a || closers[who.value].pc == b)
  }

  /** A closing session's transport is closed, or the Close call that will close it is under way; likewise its setup. */
  ghost predicate DutyOk(x: Sess, sid: string, closers: map<Tid, Closer>) {
    x.life.status == Closing ==>
      && (x.setup.adopted && !x.link.closeCalled ==> AtPc(closers, x.closer, sid, Began, HasTransport))
      && (x.setup.cancelable && !x.setup.cancelled ==> AtPc(closers, x.closer, sid, Began, Cancelling))
  }

  ghost predicate SessionsInv(s: State) {
    && s.registered <= s.sessions.Keys
    && (forall sid :: sid in s.sessions ==> SessOk(s.sessions[sid]))
    && (forall sid :: sid in s.sessions && !Settled(s.sessions[sid]) ==> sid in s.registered)
  }

  ghost predicate ClosersInv(s: State) {
    && (forall t :: t in s.closers ==> s.closers[t].sid in s.sessions)
    && (forall t :: t in s.closers ==> CloserOk(s.sessions[s.closers[t].sid], s.closers[t].pc))
    && (forall t :: t in s.closers && t.ForSweep? ==> s.closers[t].sid == t.target)
    && (forall sid :: sid in s.sessions ==> DutyOk(s.sessions[sid], sid, s.closers))
  }

  /** A shutdown snapshot covers every session that could still be live, for ever. */
  ghost predicate JobsInv(s: State) {
    && (forall j :: j in s.jobs ==> s.jobs[j].ids <= s.sessions.Keys)
    && (forall j :: j in s.jobs && s.jobs[j].shutdown ==> s.destroyed)
    && (forall j, sid :: j in s.jobs && s.jobs[j].shutdown && sid in s.sessions ==>
          sid in s.jobs[j].ids || Settled(s.sessions[sid]))
  }

  /** Removed hooks owed or run: one for each session that left the registry, none for any other. */
  ghost predicate HooksInv(s: State) {
    forall sid :: s.pending[sid] + s.fired[sid] ==
      (if sid in s.sessions && sid !in s.registered then 1 else 0)
  }

  ghost predicate Inv(s: State) { SessionsInv(s) && ClosersInv(s) && JobsInv(s) && HooksInv(s) }

  /** Every session keeps what it has. */
  ghost predicate AllLater(s: State, t: State) {
    forall sid :: sid in s.sessions ==> sid in t.sessions && Later(s.sessions[sid], t.sessions[sid])
  }

  lemma CloserStable(x: Sess, y: Sess, pc: CloserPc)
    requires CloserOk(x, pc) && Later(x, y)
    ensures CloserOk(y, pc)
  {
  }

  lemma MoveSessions(s: State, sid: string, y: Sess)
    requires SessionsInv(s) && sid in s.sessions && SessOk(y) && Later(s.sessions[sid], y)
    ensures SessionsInv(WithSession(s, sid, y)) && AllLater(s, WithSession(s, sid, y))
  {
  }

  lemma MoveJobs(s: State, sid: string, y: Sess)
    requires JobsInv(s) && sid in s.sessions && Later(s.sessions[sid], y)
    ensures JobsInv(WithSession(s, sid, y))
  {
  }

  lemma MoveClosers(s: State, sid: string, y: Sess)
    requires ClosersInv(s) && sid in s.sessions && Later(s.sessions[sid], y) && DutyOk(y, sid, s.closers)
    ensures ClosersInv(WithSession(s, sid, y))
  {
    var t := WithSession(s, sid, y);
    forall c | c in t.closers ensures CloserOk(t.sessions[t.closers[c].sid], t.closers[c].pc) {
      if s.closers[c].sid == sid { CloserStable(s.sessions[sid], y, s.closers[c].pc); }
    }
  }

  /** One session moves on while the Close calls stay where they are. */
  lemma UpdateKeeps(s: State, sid: string, y: Sess)
    requires Inv(s) && sid in s.sessions && SessOk(y) && Later(s.sessions[sid], y)
    requires DutyOk(y, sid, s.closers)
    ensures Inv(WithSession(s, sid, y)) && AllLater(s, WithSession(s, sid, y))
  {
    MoveSessions(s, sid, y);
    MoveJobs(s, sid, y);
    MoveClosers(s, sid, y);
  }

  lemma CreateKeeps(s: State, sid: string, c: CreateStep)
    requires Inv(s) && Enabled(s, Create(sid, c))
    ensures Inv(Apply(s, Create(sid, c))) && AllLater(s, Apply(s, Create(sid, c)))
  {
    CreateLocal(s.sessions[sid], c);
    UpdateKeeps(s, sid, DoCreate(s.sessions[sid], c));
  }

  lemma PumpKeeps(s: State, sid: string, p: PumpStep)
    requires Inv(s) && Enabled(s, Pump(sid, p))
    ensures Inv(Apply(s, Pump(sid, p))) && AllLater(s, Apply(s, Pump(sid, p)))
  {
    PumpLocal(s.sessions[sid], p);
    UpdateKeeps(s, sid, DoPump(s.sessions[sid], p));
  }

  /** Settled entries leave the registry; each is owed one hook. */
  lemma LeaveKeeps(s: State, gone: set<string>)
    requires Inv(s) && gone <= s.registered
    requires forall sid :: sid in gone ==> Settled(s.sessions[sid])
    ensures
      var t := s.(registered := s.registered - gone, pending := s.pending + multiset(gone));
      Inv(t) && AllLater(s, t)
  {
    var t := s.(registered := s.registered - gone, pending := s.pending + multiset(gone));
    assert SessionsInv(t);
    assert ClosersInv(t);
    assert HooksInv(t) by {
      assert forall sid :: multiset(gone)[sid] == if sid in gone then 1 else 0;
    }
  }

  lemma RemoveKeeps(s: State, sid: string)
    requires Inv(s) && sid in s.sessions && Settled(s.sessions[sid])
    ensures Inv(RemoveEntry(s, sid)) && AllLater(s, RemoveEntry(s, sid))
  {
    if sid in s.registered {
      assert multiset({sid}) == multiset{sid};
      LeaveKeeps(s, {sid});
    }
  }

  lemma CreateRemoveKeeps(s: State, sid: string)
    requires Inv(s) && Enabled(s, CreateRemove(sid))
    ensures Inv(DoRefuse(s, sid)) && AllLater(s, DoRefuse(s, sid))
  {
    var y := s.sessions[sid].(create := Refused);
    RefusedOk(s.sessions[sid]);
    UpdateKeeps(s, sid, y);
    RemoveKeeps(WithSession(s, sid, y), sid);
  }

  lemma RefusedOk(x: Sess)
    requires SessOk(x) && (x.create == ErrRemove || x.create == AbortRemove)
    ensures SessOk(x.(create := Refused)) && Later(x, x.(create := Refused)) && x.life.status == Closed
  {
  }

  lemma SectionDuty(s: State, t: Tid, k: CloseStep, sid: string)
    requires Enabled(s, Close(t, k)) && sid in s.sessions
    requires DutyOk(s.sessions[sid], sid, s.closers)
    requires CloserOk(s.sessions[s.closers[t].sid], s.closers[t].pc) && CreateOk(s.sessions[s.closers[t].sid])
    ensures DutyOk(Section(s, t, k).sessions[sid], sid, Section(s, t, k).closers)
  {
    match k
    case CloseGet =>
    case CloseBegin =>
    case CloseLook =>
    case CloseCancel =>
    case CloseTransport =>
    case CloseJoin =>
    case CloseGiveUp =>
    case CloseSet =>
    case CloseRemove =>
  }

  lemma SectionPcs(s: State, t: Tid, k: CloseStep, v: Tid)
    requires Enabled(s, Close(t, k)) && v in s.closers && s.closers[v].sid in s.sessions
    requires SessOk(s.sessions[s.closers[t].sid])
    requires !Settled(s.sessions[s.closers[t].sid]) ==> s.closers[t].sid in s.registered
    requires CloserOk(s.sessions[s.closers[t].sid], s.closers[t].pc)
    requires CloserOk(s.sessions[s.closers[v].sid], s.closers[v].pc)
    ensures
      var u := Section(s, t, k);
      CloserOk(u.sessions[u.closers[v].sid], u.closers[v].pc)
  {
    var c := s.closers[t];
    var x := s.sessions[c.sid];
    CloseLocal(x, t, c.reason, c.pc, k, c.sid in s.registered);
    if v != t && s.closers[v].sid == c.sid { CloserStable(x, CloseSess(x, t, c.reason, k), s.closers[v].pc); }
  }

  lemma SectionClosers(s: State, t: Tid, k: CloseStep)
    requires SessionsInv(s) && ClosersInv(s) && Enabled(s, Close(t, k))
    ensures ClosersInv(Section(s, t, k))
  {
    var u := Section(s, t, k);
    forall v | v in u.closers ensures CloserOk(u.sessions[u.closers[v].sid], u.closers[v].pc) {
      SectionPcs(s, t, k, v);
    }
    forall sid | sid in u.sessions ensures DutyOk(u.sessions[sid], sid, u.closers) {
      SectionDuty(s, t, k, sid);
    }
  }

  lemma SectionSessions(s: State, t: Tid, k: CloseStep)
    requires SessionsInv(s) && JobsInv(s) && Enabled(s, Close(t, k))
    requires CloserOk(s.sessions[s.closers[t].sid], s.closers[t].pc)
    ensures SessionsInv(Section(s, t, k)) && JobsInv(Section(s, t, k)) && AllLater(s, Section(s, t, k))
  {
    var c := s.closers[t];
    var x := s.sessions[c.sid];
    var y := CloseSess(x, t, c.reason, k);
    CloseLocal(x, t, c.reason, c.pc, k, c.sid in s.registered);
    MoveSessions(s, c.sid, y);
    MoveJobs(s, c.sid, y);
  }

  lemma SectionKeeps(s: State, t: Tid, k: CloseStep)
    requires Inv(s) && Enabled(s, Close(t, k))
    ensures Inv(Section(s, t, k)) && AllLater(s, Section(s, t, k))
  {
    SectionClosers(s, t, k);
    SectionSessions(s, t, k);
  }

  lemma CloseKeeps(s: State, t: Tid, k: CloseStep)
    requires Inv(s) && Enabled(s, Close(t, k))
    ensures Inv(DoClose(s, t, k)) && AllLater(s, DoClose(s, t, k))
  {
    SectionKeeps(s, t, k);
    if k == CloseRemove {
      assert CloserOk(s.sessions[s.closers[t].sid], Removing);
      RemoveKeeps(Section(s, t, k), s.closers[t].sid);
    }
  }

  lemma FreshOk(account: string)
    ensures SessOk(Fresh(account))
  {
    assert Walk([]) == Some(Fr);
  }

  function Registered(s: State, sid: string, account: string): State {
    WithSession(s, sid, Fresh(account)).(registered := s.registered + {sid})
  }

  lemma RegisterSessions(s: State, sid: string, account: string)
    requires SessionsInv(s) && JobsInv(s) && sid !in s.sessions && !s.destroyed
    ensures SessionsInv(Registered(s, sid, account)) && JobsInv(Registered(s, sid, account))
    ensures AllLater(s, Registered(s, sid, account))
  {
    FreshOk(account);
  }

  lemma RegisterClosers(s: State, sid: string, account: string)
    requires ClosersInv(s) && sid !in s.sessions
    ensures ClosersInv(Registered(s, sid, account))
  {
  }

  lemma RegisterKeeps(s: State, sid: string, account: string)
    requires Inv(s) && sid !in s.sessions && !s.destroyed
    ensures Inv(Registered(s, sid, account)) && AllLater(s, Registered(s, sid, account))
  {
    RegisterSessions(s, sid, account);
    RegisterClosers(s, sid, account);
  }

  lemma CallKeeps(s: State, t: Tid, sid: string, reason: Reason)
    requires ClosersInv(s) && Enabled(s, CloseCall(t, sid, reason))
    ensures ClosersInv(Apply(s, CloseCall(t, sid, reason)))
  {
    var u := Apply(s, CloseCall(t, sid, reason));
    forall x | x in u.sessions ensures DutyOk(u.sessions[x], x, u.closers) {
      assert DutyOk(s.sessions[x], x, s.closers);
    }
  }

  /** Invariants look only at their own part of the state. */
  lemma SessionsFrame(s: State, t: State)
    requires SessionsInv(s) && t.sessions == s.sessions && t.registered == s.registered
    ensures SessionsInv(t)
  {
  }

  lemma ClosersFrame(s: State, t: State)
    requires ClosersInv(s) && t.sessions == s.sessions && t.closers == s.closers
    ensures ClosersInv(t)
  {
  }

  lemma SweepKeeps(s: State, job: nat, ids: set<string>, shutdown: bool)
    requires SessionsInv(s) && JobsInv(s) && Enabled(s, Sweep(job, ids, shutdown))
    ensures JobsInv(Apply(s, Sweep(job, ids, shutdown)))
  {
  }

  lemma HooksKeep(s: State, sid: string)
    requires HooksInv(s) && Enabled(s, FireRemoved(sid))
    ensures HooksInv(Apply(s, FireRemoved(sid)))
  {
  }

  lemma PurgeKeeps(s: State, account: string)
    requires Inv(s)
    ensures Inv(Apply(s, PurgeAccount(account))) && AllLater(s, Apply(s, PurgeAccount(account)))
  {
    LeaveKeeps(s, ToPurge(s, account));
  }

  /** Steps that leave every session as it is. */
  lemma {:induction false} QuietKeeps(s: State, step: Step)
    requires Inv(s) && Enabled(s, step) && (step.CloseCall? || step.FireRemoved? || step.Sweep?)
    ensures Inv(Apply(s, step)) && Apply(s, step).sessions == s.sessions
  {
    var t := Apply(s, step);
    SessionsFrame(s, t);
    match step
    case CloseCall(c, sid, reason) => CallKeeps(s, c, sid, reason);
    case FireRemoved(sid) => HooksKeep(s, sid); ClosersFrame(s, t);
    case Sweep(job, ids, shutdown) => SweepKeeps(s, job, ids, shutdown); ClosersFrame(s, t);
  }

  lemma {:induction false} StepKeeps(s: State, step: Step)
    requires Inv(s) && Enabled(s, step)
    ensures Inv(Apply(s, step)) && AllLater(s, Apply(s, step))
  {
    match step
    case Register(sid, account) => if !s.destroyed { RegisterKeeps(s, sid, account); }
    case Create(sid, c) => CreateKeeps(s, sid, c);
    case CreateRemove(sid) => CreateRemoveKeeps(s, sid);
    case Pump(sid, p) => PumpKeeps(s, sid, p);
    case Close(t, k) => CloseKeeps(s, t, k);
    case PurgeAccount(account) => PurgeKeeps(s, account);
    case _ => QuietKeeps(s, step);
  }

  lemma InitialInv()
    ensures Inv(Initial())
  {
  }

  lemma LaterTrans(a: Sess, b: Sess, c: Sess)
    requires Later(a, b) && Later(b, c)
    ensures Later(a, c)
  {
  }

  lemma {:induction false} RunKeeps(s: State, steps: seq<Step>, t: State)
    requires Inv(s) && Run(s, steps, t)
    ensures Inv(t) && AllLater(s, t)
    decreases |steps|
  {
    if steps != [] {
      var u := Apply(s, steps[0]);
      StepKeeps(s, steps[0]);
      RunKeeps(u, steps[1..], t);
      forall sid | sid in s.sessions ensures sid in t.sessions && Later(s.sessions[sid], t.sessions[sid]) {
        LaterTrans(s.sessions[sid], u.sessions[sid], t.sessions[sid]);
      }
    }
  }

  // ---------------------------------------------------------------- theorems

  /**
   Status events of one session, in any run: at most five, each starting where the last
   one ended; open at most once and never after closing, error at most once, one event out
   of opening, nothing after closed; and a close reason, once carried, never changes.
   */
  lemma StatusTrace(steps: seq<Step>, s: State, sid: string)
    requires Run(Initial(), steps, s) && sid in s.sessions
    ensures GoodTrace(s.sessions[sid].life.trace)
    ensures ReasonsFixed(s.sessions[sid].life.trace, s.sessions[sid].life.reason)
  {
    InitialInv();
    RunKeeps(Initial(), steps, s);
    PathIsGood(s.sessions[sid].life.trace);
  }

  /** What a session has said stays said: the trace only grows and a stamped reason stays. */
  lemma TraceOnlyGrows(before: seq<Step>, s: State, steps: seq<Step>, t: State, sid: string)
    requires Run(Initial(), before, s) && Run(s, steps, t) && sid in s.sessions
    ensures sid in t.sessions && s.sessions[sid].life.trace <= t.sessions[sid].life.trace
    ensures s.sessions[sid].life.reason != "" ==> t.sessions[sid].life.reason == s.sessions[sid].life.reason
  {
    InitialInv();
    RunKeeps(Initial(), before, s);
    RunKeeps(s, steps, t);
  }

  /**
   No transport is lost. Whatever the factory returned has been closed, has ended, belongs
   to a session that is live and in the registry, is about to be closed by a Close call
   already under way, or is still in Create's hands before its adopt or abort section.
   */
  lemma NoTransportLost(steps: seq<Step>, s: State, sid: string)
    requires Run(Initial(), steps, s) && sid in s.sessions && s.sessions[sid].link.returned
    ensures
      var x := s.sessions[sid];
      || x.link.closeCalled || x.link.ended
      || (x.setup.adopted && !Settled(x) && sid in s.registered)
      || (x.setup.adopted && AtPc(s.closers, x.closer, sid, Began, HasTransport))
      || x.create == Returned(true) || x.create == AbortClose
  {
    InitialInv();
    RunKeeps(Initial(), steps, s);
    var x := s.sessions[sid];
    assert SessOk(x) && DutyOk(x, sid, s.closers);
  }

  /**
   Once Create has returned and no Close of the session is half way, its transport is closed,
   ended, or in a live registered session.
   */
  lemma NoTransportLeaked(steps: seq<Step>, s: State, sid: string)
    requires Run(Initial(), steps, s) && sid in s.sessions && s.sessions[sid].link.returned
    requires s.sessions[sid].create == Refused || s.sessions[sid].create == Established
    requires forall t :: t in s.closers && s.closers[t].sid == sid ==> s.closers[t].pc == Ended
    ensures
      var x := s.sessions[sid];
      x.link.closeCalled || x.link.ended || (x.life.status == Open && sid in s.registered)
  {
    InitialInv();
    RunKeeps(Initial(), steps, s);
    NoTransportLost(steps, s, sid);
    assert SessOk(s.sessions[sid]);
  }

  /** A session closed before its transport was adopted never adopts one and never becomes open. */
  lemma ClosedWhileConnecting(before: seq<Step>, s: State, steps: seq<Step>, t: State, sid: string)
    requires Run(Initial(), before, s) && Run(s, steps, t) && sid in s.sessions
    requires Settled(s.sessions[sid]) && !s.sessions[sid].setup.adopted
    ensures sid in t.sessions && Settled(t.sessions[sid]) && !t.sessions[sid].setup.adopted
    ensures forall i :: 0 <= i < |t.sessions[sid].life.trace| ==> t.sessions[sid].life.trace[i].status != Open
  {
    InitialInv();
    RunKeeps(Initial(), before, s);
    RunKeeps(s, steps, t);
    assert Later(s.sessions[sid], t.sessions[sid]) && SessOk(t.sessions[sid]);
  }

  /**
   A Close that finds the session still connecting reaches it: while the factory runs, its context
   is cancelled or is about to be.
   */
  lemma SetupIsCancelled(steps: seq<Step>, s: State, sid: string)
    requires Run(Initial(), steps, s) && sid in s.sessions
    requires s.sessions[sid].life.status == Closing && s.sessions[sid].create == InFactory
    ensures s.sessions[sid].setup.cancelled || AtPc(s.closers, s.sessions[sid].closer, sid, Began, Cancelling)
  {
    InitialInv();
    RunKeeps(Initial(), steps, s);
    assert DutyOk(s.sessions[sid], sid, s.closers);
  }

  /** When a sweep returns, none of the sessions it found is opening or open, nor ever will be. */
  lemma SweepStops(steps: seq<Step>, s: State, job: nat, more: seq<Step>, t: State, sid: string)
    requires Run(Initial(), steps, s) && JobReturned(s, job) && Run(s, more, t)
    requires sid in s.jobs[job].ids
    ensures sid in t.sessions && Settled(t.sessions[sid])
  {
    InitialInv();
    RunKeeps(Initial(), steps, s);
    RunKeeps(s, more, t);
    assert CloserOk(s.sessions[s.closers[ForSweep(job, sid)].sid], Ended);
  }

  /** After Destroy sets its flag no session is registered any more. */
  lemma {:induction false} NothingAfterDestroy(s: State, steps: seq<Step>, t: State)
    requires s.destroyed && Run(s, steps, t)
    ensures t.destroyed && t.sessions.Keys == s.sessions.Keys && t.registered <= s.registered
    decreases |steps|
  {
    if steps != [] {
      DestroyedStep(s, steps[0]);
      NothingAfterDestroy(Apply(s, steps[0]), steps[1..], t);
    }
  }

  lemma DestroyedStep(s: State, step: Step)
    requires s.destroyed && Enabled(s, step)
    ensures
      var t := Apply(s, step);
      t.destroyed && t.sessions.Keys == s.sessions.Keys && t.registered <= s.registered
  {
  }

  /** When Destroy returns, no session at all is opening or open, and none ever becomes so. */
  lemma DestroyStopsAll(steps: seq<Step>, s: State, job: nat, more: seq<Step>, t: State, sid: string)
    requires Run(Initial(), steps, s) && JobReturned(s, job) && s.jobs[job].shutdown
    requires Run(s, more, t) && sid in t.sessions
    ensures Settled(t.sessions[sid])
  {
    InitialInv();
    RunKeeps(Initial(), steps, s);
    NothingAfterDestroy(s, more, t);
    RunKeeps(s, more, t);
    assert sid in s.sessions.Keys;
    if sid in s.jobs[job].ids {
      SweepStops(steps, s, job, more, t, sid);
    }
  }

  /** Removed hooks: each session that left the registry has run its hooks once or owes them once; no other has any. */
  lemma RemovedExactlyOnce(steps: seq<Step>, s: State, sid: string)
    requires Run(Initial(), steps, s)
    ensures s.pending[sid] + s.fired[sid] == (if sid in s.sessions && sid !in s.registered then 1 else 0)
    ensures s.pending[sid] == 0 ==> s.fired[sid] == (if sid in s.sessions && sid !in s.registered then 1 else 0)
  {
    InitialInv();
    RunKeeps(Initial(), steps, s);
  }

  /** An account purge takes out exactly the account's closed and failed sessions that are registered. */
  lemma PurgeIsExact(s: State, account: string, sid: string)
    requires sid in s.registered && sid in s.sessions
    ensures
      var t := Apply(s, PurgeAccount(account));
      var x := s.sessions[sid];
      && t.sessions == s.sessions
      && (sid !in t.registered <==> x.account == account && (x.life.status == Closed || x.life.status == Error))
  {
  }

  /** A removed hook that runs is owed no longer. */
  lemma FireSays(s: State, sid: string)
    requires Enabled(s, FireRemoved(sid))
    ensures
      var t := Apply(s, FireRemoved(sid));
      t.fired[sid] == s.fired[sid] + 1 && t.pending[sid] == s.pending[sid] - 1
  {
  }
}
