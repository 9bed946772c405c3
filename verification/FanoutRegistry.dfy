/**
 The fan-out machine runs inside the session registry: every state it reaches is what one
 open session, its pump and its Close calls look like in a state the registry machine
 reaches. Hooks, reads and frames are invisible to the registry; a Close that begins there
 is one that had found the entry before.
 */
module FanoutRegistry {
  import SessionStatus
  import F = Fanout
  import P = FanoutProofs
  import M = Sessions
  import Q = SessionProofs
  import W = SessionWitness

  /** Reading, appending and notifying are one place for the registry; announcing the end is after the end. */
  datatype PumpAt = Running | Ending(failed: bool) | Over

  /** What the registry sees of a session: `leaving` are the Close calls that announce the end or remove. */
  datatype Look = Look(sid: string, registered: bool, status: M.Status, ended: bool, abandoned: bool, pump: PumpAt,
                       joining: int, finishing: int, leaving: int)

  function PumpOf(p: F.PumpPc): PumpAt {
    match p
    case Ending(failed) => Ending(failed)
    case Broadcasting => Over
    case Finished => Over
    case _ => Running
  }

  function LookOf(s: F.State): Look {
    Look(s.me, s.entry.registered, M.Up(s.life.status), s.src.ended, s.life.abandoned, PumpOf(s.pump),
         s.life.joining, s.life.finishing, s.life.announcing + s.life.removing)
  }

  function At(closers: map<M.Tid, M.Closer>, pc: M.CloserPc): set<M.Tid> {
    set t | t in closers && closers[t].pc == pc
  }

  predicate PumpMatches(p: PumpAt, q: M.PumpPc) {
    match p
    case Running => q == M.Ranging
    case Ending(failed) => q.Setting? && q.failed == failed
    case Over => q == M.Done
  }

  predicate SessMatches(l: Look, x: M.Sess) {
    && x.life.status == l.status && x.create == M.Established && x.setup.adopted && x.link.returned
    && x.link.ended == l.ended && x.abandoned == l.abandoned && PumpMatches(l.pump, x.pump)
  }

  /** Close calls by place; those that are `ready` have found the entry and not yet begun. */
  datatype Calls = Calls(joining: int, finishing: int, leaving: int, ready: int)

  function CallsOf(l: Look, ready: int): Calls { Calls(l.joining, l.finishing, l.leaving, ready) }

  ghost predicate CallsMatch(sid: string, c: Calls, closers: map<M.Tid, M.Closer>) {
    && (forall t :: t in closers ==> closers[t].sid == sid)
    && |At(closers, M.Joining)| == c.joining
    && |At(closers, M.Finishing)| == c.finishing
    && |At(closers, M.Removing)| == c.leaving
    && |At(closers, M.Got)| == c.ready
  }

  ghost predicate Sees(l: Look, r: M.State) {
    && r.sessions.Keys == {l.sid}
    && r.registered == (if l.registered then {l.sid} else {})
    && SessMatches(l, r.sessions[l.sid])
  }

  /** The registry holds this session alone, with as many Close calls at each place as the fan-out counts. */
  ghost predicate Matches(l: Look, r: M.State, ready: int) {
    Sees(l, r) && CallsMatch(l.sid, CallsOf(l, ready), r.closers)
  }

  // ---------------------------------------------------------------- what the steps look like

  predicate Ended(st: M.Status) { st == M.Closed || st == M.Error }

  function AfterPump(l: Look, step: F.PumpStep): Look {
    match step
    case End => l.(ended := true)
    case PumpEnd(failed) => l.(pump := Ending(failed))
    case PumpFinal =>
      var to := if l.pump == Ending(true) then M.Error else M.Closed;
      l.(pump := Over, status := if Ended(l.status) then l.status else to)
    case _ => l
  }

  function AfterClose(l: Look, step: F.CloseStep): Look {
    match step
    case CloseBegin => l.(status := M.Closing, joining := l.joining + 1)
    case CloseJoin => l.(joining := l.joining - 1, finishing := l.finishing + 1)
    case CloseGiveUp => l.(abandoned := true, joining := l.joining - 1, finishing := l.finishing + 1)
    case CloseFinal =>
      l.(status := if Ended(l.status) then l.status else M.Closed,
         finishing := l.finishing - 1, leaving := l.leaving + 1)
    case CloseRemove => l.(leaving := l.leaving - 1, registered := false)
    case Purge => l.(registered := false)
    case _ => l
  }

  function After(l: Look, step: F.Step): Look {
    match step
    case P(p) => AfterPump(l, p)
    case C(c) => AfterClose(l, c)
    case _ => l
  }

  lemma {:induction false} ReleaseUnseen(s: F.State)
    requires P.OwnerInv(s) && s.op.Busy?
    ensures LookOf(F.Release(s)) == LookOf(s) && LookOf(F.Flushed(s)) == LookOf(s)
  {
  }

  lemma {:induction false} OpUnseen(s: F.State, step: F.OpStep)
    requires P.OwnerInv(s) && F.CanOp(s, step)
    ensures LookOf(F.DoOp(s, step)) == LookOf(s)
  {
    ReleaseUnseen(s);
  }

  lemma {:induction false} PumpLook(s: F.State, step: F.PumpStep)
    requires F.CanPump(s, step)
    ensures LookOf(F.DoPump(s, step)) == AfterPump(LookOf(s), step)
  {
  }

  lemma {:induction false} CloseLook(s: F.State, step: F.CloseStep)
    requires F.CanClose(s, step)
    ensures LookOf(F.DoClose(s, step)) == AfterClose(LookOf(s), step)
  {
  }

  lemma {:induction false} StepLook(s: F.State, step: F.Step)
    requires P.OwnerInv(s) && F.Enabled(s, step)
    ensures LookOf(F.Apply(s, step)) == After(LookOf(s), step)
  {
    match step
    case P(p) => PumpLook(s, p);
    case C(c) => CloseLook(s, c);
    case O(o) => OpUnseen(s, o);
    case _ =>
  }

  /** The guards, as the registry sees them. */
  predicate Can(l: Look, step: F.Step) {
    match step
    case P(p) =>
      (match p
       case PumpEnd(_) => l.pump == Running && l.ended
       case PumpFinal => l.pump.Ending? && l.status != M.Opening
       case _ => true)
    case C(c) =>
      (match c
       case CloseBegin => l.status == M.Open || l.status == M.Error
       case CloseJoin => l.joining > 0 && l.pump == Over
       case CloseGiveUp => l.joining > 0
       case CloseFinal => l.finishing > 0
       case CloseRemove => l.leaving > 0
       case Purge => l.registered && Ended(l.status)
       case _ => true)
    case _ => true
  }

  lemma {:induction false} GuardsSeen(s: F.State, step: F.Step)
    requires F.Enabled(s, step)
    ensures Can(LookOf(s), step)
  {
  }

  // ---------------------------------------------------------------- counting Close calls

  function Shift(from: M.CloserPc, to: M.CloserPc, pc: M.CloserPc): int {
    (if pc == to then 1 else 0) - (if pc == from then 1 else 0)
  }

  lemma {:induction false} CountIn(closers: map<M.Tid, M.Closer>, t: M.Tid, to: M.CloserPc)
    requires t in closers && closers[t].pc != to
    ensures |At(closers[t := closers[t].(pc := to)], to)| == |At(closers, to)| + 1
  {
    var moved := closers[t := closers[t].(pc := to)];
    assert t !in At(closers, to);
    assert At(moved, to) == At(closers, to) + {t};
  }

  lemma {:induction false} CountOut(closers: map<M.Tid, M.Closer>, t: M.Tid, to: M.CloserPc)
    requires t in closers && closers[t].pc != to
    ensures |At(closers[t := closers[t].(pc := to)], closers[t].pc)| == |At(closers, closers[t].pc)| - 1
  {
    var moved := closers[t := closers[t].(pc := to)];
    assert t in At(closers, closers[t].pc);
    assert At(moved, closers[t].pc) == At(closers, closers[t].pc) - {t};
  }

  lemma {:induction false} CountMoves(closers: map<M.Tid, M.Closer>, t: M.Tid, to: M.CloserPc, pc: M.CloserPc)
    requires t in closers && closers[t].pc != to
    ensures |At(closers[t := closers[t].(pc := to)], pc)| == |At(closers, pc)| + Shift(closers[t].pc, to, pc)
  {
    if pc == to {
      CountIn(closers, t, to);
    } else if pc == closers[t].pc {
      CountOut(closers, t, to);
    } else {
      assert At(closers[t := closers[t].(pc := to)], pc) == At(closers, pc);
    }
  }

  /** What one call's move does to the counts. */
  function Moved(c: Calls, from: M.CloserPc, to: M.CloserPc): Calls {
    Calls(c.joining + Shift(from, to, M.Joining), c.finishing + Shift(from, to, M.Finishing),
          c.leaving + Shift(from, to, M.Removing), c.ready + Shift(from, to, M.Got))
  }

  /** The counts follow one call's move. */
  lemma {:induction false} CallMoves(sid: string, c: Calls, closers: map<M.Tid, M.Closer>, t: M.Tid, to: M.CloserPc,
                                     d: Calls, after: map<M.Tid, M.Closer>)
    requires CallsMatch(sid, c, closers) && t in closers && closers[t].pc != to
    requires d == Moved(c, closers[t].pc, to) && after == W.Going(closers, t, to)
    ensures CallsMatch(sid, d, after)
  {
    CountMoves(closers, t, to, M.Joining);
    CountMoves(closers, t, to, M.Finishing);
    CountMoves(closers, t, to, M.Removing);
    CountMoves(closers, t, to, M.Got);
  }

  lemma {:induction false} SomeoneAt(closers: map<M.Tid, M.Closer>, pc: M.CloserPc) returns (t: M.Tid)
    requires |At(closers, pc)| > 0
    ensures t in closers && closers[t].pc == pc
  {
    t :| t in At(closers, pc);
  }

  // ---------------------------------------------------------------- the start

  function Waiting(sid: string, n: nat): map<M.Tid, M.Closer> {
    if n == 0 then map[] else Waiting(sid, n - 1)[M.Direct(n - 1) := M.Closer(sid, "", M.Got)]
  }

  lemma {:induction false} WaitingOnly(sid: string, n: nat)
    ensures forall t :: t in Waiting(sid, n) ==>
      t.Direct? && t.n < n && Waiting(sid, n)[t] == M.Closer(sid, "", M.Got)
    ensures |At(Waiting(sid, n), M.Got)| == n
  {
    if n > 0 {
      WaitingOnly(sid, n - 1);
      assert At(Waiting(sid, n), M.Got) == At(Waiting(sid, n - 1), M.Got) + {M.Direct(n - 1)};
    }
  }

  /** Any number of Close calls can have found the entry of an open session. */
  lemma {:induction false} WaitingIsReached(sid: string, n: nat)
    ensures W.Reachable(W.One(sid, W.Opened(), Waiting(sid, n)))
  {
    if n == 0 {
      W.OpenedIsReached(sid);
    } else {
      WaitingIsReached(sid, n - 1);
      WaitingOnly(sid, n - 1);
      var t, closers := M.Direct(n - 1), Waiting(sid, n - 1);
      W.Next(W.One(sid, W.Opened(), closers), M.CloseCall(t, sid, ""));
      var started := closers[t := M.Closer(sid, "", M.Started)];
      W.Closes(sid, W.Opened(), started, t, M.CloseGet);
      assert started[t := M.Closer(sid, "", M.Got)] == Waiting(sid, n);
    }
  }

  lemma StartMatches(me: string, max: nat, ready: nat) returns (r: M.State)
    ensures W.Reachable(r) && Matches(LookOf(F.Initial(me, max)), r, ready)
  {
    WaitingIsReached(me, ready);
    WaitingOnly(me, ready);
    r := W.One(me, W.Opened(), Waiting(me, ready));
    assert At(r.closers, M.Joining) == {} && At(r.closers, M.Finishing) == {} && At(r.closers, M.Removing) == {};
  }

  // ---------------------------------------------------------------- steps of the pump

  /** One step of the pump or the transport. */
  lemma {:induction false} PumpStepSeen(sid: string, r: M.State, p: M.PumpStep) returns (u: M.State)
    requires W.Reachable(r) && r.sessions.Keys == {sid} && M.CanPump(r.sessions[sid], p)
    ensures W.Reachable(u) && u.registered == r.registered && u.closers == r.closers && u.sessions.Keys == {sid}
    ensures u.sessions[sid] == M.DoPump(r.sessions[sid], p)
  {
    W.Next(r, M.Pump(sid, p));
    u := M.Apply(r, M.Pump(sid, p));
  }

  lemma {:induction false} SetSeen(l: Look, x: M.Sess)
    requires l.pump.Ending? && SessMatches(l, x)
    requires l.status == M.Open || l.status == M.Closing || Ended(l.status)
    ensures M.CanPump(x, M.PumpSet) && SessMatches(AfterPump(l, F.PumpFinal), M.DoPump(x, M.PumpSet))
  {
  }

  lemma {:induction false} PumpSeen(l: Look, step: F.PumpStep, r: M.State) returns (u: M.State)
    requires Can(l, F.P(step)) && W.Reachable(r) && Sees(l, r)
    ensures W.Reachable(u) && Sees(AfterPump(l, step), u) && u.closers == r.closers
  {
    match step
    case End => u := PumpStepSeen(l.sid, r, M.TransportEnd);
    case PumpEnd(failed) =>
      u := PumpStepSeen(l.sid, r, M.PumpStop(failed));
      u := PumpStepSeen(l.sid, u, M.PumpReason);
    case PumpFinal =>
      SetSeen(l, r.sessions[l.sid]);
      u := PumpStepSeen(l.sid, r, M.PumpSet);
    case _ => u := r;
  }

  // ---------------------------------------------------------------- steps of a Close call

  predicate CallAt(l: Look, r: M.State, t: M.Tid, pc: M.CloserPc) {
    t in r.closers && r.closers[t].sid == l.sid && r.closers[t].pc == pc
  }

  /** The session is moved to closing by a call that had found it. */
  lemma {:induction false} BeginSection(l: Look, r: M.State, t: M.Tid) returns (u: M.State)
    requires W.Reachable(r) && r.sessions.Keys == {l.sid} && t in r.closers
    requires r.closers[t].sid == l.sid && r.closers[t].pc == M.Got
    requires (l.status == M.Open || l.status == M.Error) && SessMatches(l, r.sessions[l.sid])
    ensures W.Reachable(u) && u.registered == r.registered && u.sessions.Keys == {l.sid}
    ensures SessMatches(l.(status := M.Closing), u.sessions[l.sid])
    ensures u.closers == W.Going(r.closers, t, M.Began)
  {
    u := W.SectionSeen(l.sid, r, t, M.CloseBegin);
  }

  /** It goes on to the transport's Close and waits for the pump. */
  lemma {:induction false} TransportSections(l: Look, r: M.State, t: M.Tid) returns (u: M.State)
    requires W.Reachable(r) && r.sessions.Keys == {l.sid} && t in r.closers
    requires r.closers[t].sid == l.sid && r.closers[t].pc == M.Began && SessMatches(l, r.sessions[l.sid])
    ensures W.Reachable(u) && u.registered == r.registered && u.sessions.Keys == {l.sid}
    ensures SessMatches(l, u.sessions[l.sid])
    ensures u.closers == W.Going(r.closers, t, M.Joining)
  {
    u := W.SectionSeen(l.sid, r, t, M.CloseLook);
    u := W.SectionSeen(l.sid, u, t, M.CloseTransport);
  }

  lemma {:induction false} BeginSections(l: Look, r: M.State, t: M.Tid) returns (u: M.State)
    requires W.Reachable(r) && Sees(l, r) && CallAt(l, r, t, M.Got)
    requires l.status == M.Open || l.status == M.Error
    ensures W.Reachable(u) && Sees(AfterClose(l, F.CloseBegin), u) && u.closers == W.Going(r.closers, t, M.Joining)
  {
    u := BeginSection(l, r, t);
    u := TransportSections(l.(status := M.Closing), u, t);
    assert W.Going(W.Going(r.closers, t, M.Began), t, M.Joining) == W.Going(r.closers, t, M.Joining);
  }

  lemma {:induction false} JoinSection(l: Look, step: F.CloseStep, r: M.State, t: M.Tid) returns (u: M.State)
    requires step == F.CloseJoin || step == F.CloseGiveUp
    requires W.Reachable(r) && Sees(l, r) && CallAt(l, r, t, M.Joining)
    requires Can(l, F.C(step))
    ensures W.Reachable(u) && Sees(AfterClose(l, step), u) && u.closers == W.Going(r.closers, t, M.Finishing)
  {
    u := W.SectionSeen(l.sid, r, t, if step == F.CloseJoin then M.CloseJoin else M.CloseGiveUp);
  }

  lemma {:induction false} FinalSection(l: Look, r: M.State, t: M.Tid) returns (u: M.State)
    requires W.Reachable(r) && Sees(l, r) && CallAt(l, r, t, M.Finishing)
    ensures W.Reachable(u) && Sees(AfterClose(l, F.CloseFinal), u) && u.closers == W.Going(r.closers, t, M.Removing)
  {
    u := W.SectionSeen(l.sid, r, t, M.CloseSet);
  }

  lemma {:induction false} RemoveSection(l: Look, r: M.State, t: M.Tid) returns (u: M.State)
    requires W.Reachable(r) && Sees(l, r) && CallAt(l, r, t, M.Removing)
    ensures W.Reachable(u) && Sees(AfterClose(l, F.CloseRemove), u) && u.closers == W.Going(r.closers, t, M.Ended)
  {
    W.Next(r, M.Close(t, M.CloseRemove));
    u := M.Apply(r, M.Close(t, M.CloseRemove));
    assert u.sessions == r.sessions;
  }

  /** From where a call makes the step, and to where. */
  function From(step: F.CloseStep): M.CloserPc
    requires Calling(step)
  {
    match step
    case CloseBegin => M.Got
    case CloseJoin => M.Joining
    case CloseGiveUp => M.Joining
    case CloseFinal => M.Finishing
    case CloseRemove => M.Removing
  }

  function To(step: F.CloseStep): M.CloserPc
    requires Calling(step)
  {
    match step
    case CloseBegin => M.Joining
    case CloseJoin => M.Finishing
    case CloseGiveUp => M.Finishing
    case CloseFinal => M.Removing
    case CloseRemove => M.Ended
  }

  predicate Calling(step: F.CloseStep) {
    || step == F.CloseBegin || step == F.CloseJoin || step == F.CloseGiveUp
    || step == F.CloseFinal || step == F.CloseRemove
  }

  lemma {:induction false} SectionsSeen(l: Look, step: F.CloseStep, r: M.State, t: M.Tid) returns (u: M.State)
    requires Calling(step) && Can(l, F.C(step))
    requires W.Reachable(r) && Sees(l, r) && CallAt(l, r, t, From(step))
    ensures W.Reachable(u) && Sees(AfterClose(l, step), u) && u.closers == W.Going(r.closers, t, To(step))
  {
    match step
    case CloseBegin => u := BeginSections(l, r, t);
    case CloseFinal => u := FinalSection(l, r, t);
    case CloseRemove => u := RemoveSection(l, r, t);
    case CloseJoin => u := JoinSection(l, step, r, t);
    case CloseGiveUp => u := JoinSection(l, step, r, t);
  }

  /** What a step leaves ready. */
  function Left(step: F.Step, ready: int): int { if step == F.C(F.CloseBegin) then ready - 1 else ready }

  lemma {:induction false} CallsFollow(l: Look, step: F.CloseStep, ready: int)
    requires Calling(step)
    ensures Moved(CallsOf(l, ready), From(step), To(step)) == CallsOf(AfterClose(l, step), Left(F.C(step), ready))
  {
  }

  lemma {:induction false} SomeoneCan(l: Look, step: F.CloseStep, closers: map<M.Tid, M.Closer>, ready: int)
    returns (t: M.Tid)
    requires Calling(step) && Can(l, F.C(step)) && CallsMatch(l.sid, CallsOf(l, ready), closers)
    requires step == F.CloseBegin ==> ready > 0
    ensures t in closers && closers[t].pc == From(step) && closers[t].sid == l.sid
  {
    t := SomeoneAt(closers, From(step));
  }

  lemma {:induction false} CallSeen(l: Look, step: F.CloseStep, r: M.State, ready: int) returns (u: M.State)
    requires Calling(step) && Can(l, F.C(step)) && (step == F.CloseBegin ==> ready > 0)
    requires W.Reachable(r) && Sees(l, r) && CallsMatch(l.sid, CallsOf(l, ready), r.closers)
    ensures W.Reachable(u) && Sees(AfterClose(l, step), u)
    ensures CallsMatch(l.sid, CallsOf(AfterClose(l, step), Left(F.C(step), ready)), u.closers)
  {
    var t := SomeoneCan(l, step, r.closers, ready);
    u := SectionsSeen(l, step, r, t);
    CallsFollow(l, step, ready);
    CallMoves(l.sid, CallsOf(l, ready), r.closers, t, To(step),
              CallsOf(AfterClose(l, step), Left(F.C(step), ready)), u.closers);
  }

  lemma {:induction false} PurgeSeen(l: Look, r: M.State) returns (u: M.State)
    requires Can(l, F.C(F.Purge)) && W.Reachable(r) && Sees(l, r)
    ensures W.Reachable(u) && Sees(AfterClose(l, F.Purge), u) && u.closers == r.closers
  {
    var account := r.sessions[l.sid].account;
    W.Next(r, M.PurgeAccount(account));
    u := M.Apply(r, M.PurgeAccount(account));
    assert M.ToPurge(r, account) == {l.sid};
  }

  // ---------------------------------------------------------------- runs

  /** Each step is none, or some, of the registry's; only a Close that begins uses up a call that was ready. */
  lemma {:induction false} StepSeen(l: Look, step: F.Step, r: M.State, ready: int) returns (u: M.State)
    requires Can(l, step) && W.Reachable(r) && Matches(l, r, ready) && (step == F.C(F.CloseBegin) ==> ready > 0)
    ensures W.Reachable(u) && Matches(After(l, step), u, Left(step, ready))
  {
    match step
    case P(p) => u := PumpSeen(l, p, r);
    case C(c) =>
      if Calling(c) { u := CallSeen(l, c, r, ready); } else if c == F.Purge { u := PurgeSeen(l, r); } else { u := r; }
    case _ => u := r;
  }

  /** The Close calls that begin in a run. */
  function Begins(steps: seq<F.Step>): nat {
    if steps == [] then 0 else (if steps[0] == F.C(F.CloseBegin) then 1 else 0) + Begins(steps[1..])
  }

  lemma BeginsLeft(steps: seq<F.Step>, ready: nat)
    requires steps != []
    ensures Left(steps[0], Begins(steps) + ready) == Begins(steps[1..]) + ready
    ensures steps[0] == F.C(F.CloseBegin) ==> Begins(steps) > 0
  {
  }

  /** A run, as the registry sees it. */
  ghost predicate LookRun(l: Look, steps: seq<F.Step>, m: Look)
    decreases |steps|
  {
    if steps == [] then l == m else Can(l, steps[0]) && LookRun(After(l, steps[0]), steps[1..], m)
  }

  lemma {:induction false} RunLooks(s: F.State, steps: seq<F.Step>, t: F.State)
    requires P.Inv(s) && F.Run(s, steps, t)
    ensures LookRun(LookOf(s), steps, LookOf(t))
    decreases |steps|
  {
    if steps != [] {
      P.StepKeeps(s, steps[0]);
      StepLook(s, steps[0]);
      GuardsSeen(s, steps[0]);
      RunLooks(F.Apply(s, steps[0]), steps[1..], t);
    }
  }

  lemma {:induction false} RunLooksFromStart(me: string, max: nat, steps: seq<F.Step>, s: F.State)
    requires F.Run(F.Initial(me, max), steps, s)
    ensures LookRun(LookOf(F.Initial(me, max)), steps, LookOf(s))
  {
    P.InitialInv(me, max);
    RunLooks(F.Initial(me, max), steps, s);
  }

  lemma {:induction false} RunSeen(l: Look, steps: seq<F.Step>, m: Look, r: M.State, ready: nat) returns (u: M.State)
    requires LookRun(l, steps, m) && W.Reachable(r) && Matches(l, r, Begins(steps) + ready)
    ensures W.Reachable(u) && Matches(m, u, ready)
    decreases |steps|
  {
    if steps == [] {
      u := r;
    } else {
      BeginsLeft(steps, ready);
      u := StepSeen(l, steps[0], r, Begins(steps) + ready);
      u := RunSeen(After(l, steps[0]), steps[1..], m, u, ready);
    }
  }

  /**
   Every state the fan-out machine reaches is a view of a state the registry machine reaches:
   same status, same place in the registry, same transport and pump, as many Close calls at
   each place. What is proved of every run of the registry holds of the session followed here.
   */
  lemma EveryStateIsARegistryState(me: string, max: nat, steps: seq<F.Step>, s: F.State) returns (r: M.State)
    requires F.Run(F.Initial(me, max), steps, s)
    ensures W.Reachable(r) && Matches(LookOf(s), r, 0)
  {
    RunLooksFromStart(me, max, steps, s);
    var start := LookOf(F.Initial(me, max));
    r := StartMatches(me, max, Begins(steps));
    r := RunSeen(start, steps, LookOf(s), r, 0);
  }

  /** One use of it: a session the fan-out still sees open is in the registry, because the registry says so of all. */
  lemma OpenIsRegistered(me: string, max: nat, steps: seq<F.Step>, s: F.State)
    requires F.Run(F.Initial(me, max), steps, s) && s.life.status == SessionStatus.Open
    ensures s.entry.registered
  {
    var r := EveryStateIsARegistryState(me, max, steps, s);
    var run :| M.Run(M.Initial(), run, r);
    Q.InitialInv();
    Q.RunKeeps(M.Initial(), run, r);
  }
}
