/** Where close reasons come from: what every transition was told, and what the session and its events then say. */
module SessionReasons {
  import opened Common
  import opened Sessions
  import SessionProofs

  /** The first reason that says something. */
  function FirstSaid(rs: seq<Reason>): Reason {
    if rs == [] then "" else if rs[0] != "" then rs[0] else FirstSaid(rs[1..])
  }

  /** What a step says about why: Create of a failed connect, the pump of what it made out, a Close of its argument. */
  function Given(s: State, step: Step, sid: string): Reason
    requires sid in s.sessions
  {
    match step
    case Create(_, _) => if s.sessions[sid].create == ErrStatus then "transport-error" else ""
    case Pump(_, _) => if s.sessions[sid].pump.Setting? then s.sessions[sid].pump.why else ""
    case Close(t, _) => if t in s.closers then s.closers[t].reason else ""
    case _ => ""
  }

  /** What the step's transition of the session was told, if it made one. */
  function Told(s: State, step: Step, sid: string): seq<Reason>
    requires Enabled(s, step)
  {
    if sid in s.sessions && sid in Apply(s, step).sessions
       && Apply(s, step).sessions[sid].life.status != s.sessions[sid].life.status
    then [Given(s, step, sid)] else []
  }

  function AllTold(s: State, steps: seq<Step>, sid: string): seq<Reason>
    decreases |steps|
  {
    if steps == [] || !Enabled(s, steps[0]) then []
    else Told(s, steps[0], sid) + AllTold(Apply(s, steps[0]), steps[1..], sid)
  }

  /** The session has the first reason told, and each event carries the first told up to it. */
  ghost predicate Carries(l: Life, told: seq<Reason>) {
    && l.reason == FirstSaid(told)
    && |l.trace| == |told|
    && forall i :: 0 <= i < |told| ==> l.trace[i].reason == FirstSaid(told[..i + 1])
  }

  lemma {:induction false} SaidSnoc(rs: seq<Reason>, r: Reason)
    ensures FirstSaid(rs + [r]) == if FirstSaid(rs) != "" then FirstSaid(rs) else r
  {
    if rs != [] {
      assert (rs + [r])[1..] == rs[1..] + [r];
      SaidSnoc(rs[1..], r);
    }
  }

  /** A transition stamps its reason if there is none yet, and its event says what the session then says. */
  lemma {:induction false} CarriesOn(l: Life, told: seq<Reason>, status: Status, r: Reason)
    requires Carries(l, told)
    ensures Carries(Move(l, status, r), told + [r])
  {
    SaidSnoc(told, r);
    var m, all := Move(l, status, r), told + [r];
    forall i | 0 <= i < |all| ensures m.trace[i].reason == FirstSaid(all[..i + 1]) {
      if i < |told| {
        assert all[..i + 1] == told[..i + 1];
      } else {
        assert all[..i + 1] == all;
      }
    }
  }

  /** A step makes at most one transition of a session, told what Given says. */
  lemma {:induction false} StepMoves(s: State, step: Step, sid: string)
    requires Enabled(s, step) && sid in s.sessions
    ensures
      var t := Apply(s, step);
      && sid in t.sessions
      && (if t.sessions[sid].life.status == s.sessions[sid].life.status
          then t.sessions[sid].life == s.sessions[sid].life
          else t.sessions[sid].life == Move(s.sessions[sid].life, t.sessions[sid].life.status, Given(s, step, sid)))
  {
    match step
    case Create(c, k) => if c == sid { CreateMoves(s.sessions[sid], k); }
    case Pump(c, p) => if c == sid { PumpMoves(s.sessions[sid], p); }
    case Close(t, k) => if s.closers[t].sid == sid { CloseMoves(s.sessions[sid], t, s.closers[t].reason, k); }
    case _ =>
  }

  lemma {:induction false} CreateMoves(x: Sess, c: CreateStep)
    requires CanCreate(x, c)
    ensures
      var l := DoCreate(x, c).life;
      if l.status == x.life.status then l == x.life
      else l == Move(x.life, l.status, if x.create == ErrStatus then "transport-error" else "")
  {
  }

  lemma {:induction false} PumpMoves(x: Sess, p: PumpStep)
    requires CanPump(x, p)
    ensures
      var l := DoPump(x, p).life;
      if l.status == x.life.status then l == x.life
      else x.pump.Setting? && l == Move(x.life, l.status, x.pump.why)
  {
  }

  lemma {:induction false} CloseMoves(x: Sess, t: Tid, reason: Reason, k: CloseStep)
    ensures
      var l := CloseSess(x, t, reason, k).life;
      if l.status == x.life.status then l == x.life else l == Move(x.life, l.status, reason)
  {
  }

  lemma {:induction false} RunCarries(s: State, steps: seq<Step>, t: State, sid: string, told: seq<Reason>)
    requires Run(s, steps, t) && sid in s.sessions && Carries(s.sessions[sid].life, told)
    ensures sid in t.sessions && Carries(t.sessions[sid].life, told + AllTold(s, steps, sid))
    decreases |steps|
  {
    if steps == [] {
      assert told + [] == told;
    } else {
      var u := Apply(s, steps[0]);
      var now, rest := Told(s, steps[0], sid), AllTold(u, steps[1..], sid);
      StepMoves(s, steps[0], sid);
      if now != [] {
        CarriesOn(s.sessions[sid].life, told, u.sessions[sid].life.status, now[0]);
      }
      assert told + now == if now == [] then told else told + [now[0]];
      RunCarries(u, steps[1..], t, sid, told + now);
      assert told + (now + rest) == (told + now) + rest;
    }
  }

  lemma {:induction false} NewCarries(s: State, steps: seq<Step>, t: State, sid: string)
    requires Run(s, steps, t) && sid !in s.sessions && sid in t.sessions
    ensures Carries(t.sessions[sid].life, AllTold(s, steps, sid))
    decreases |steps|
  {
    if steps != [] {
      var u := Apply(s, steps[0]);
      var rest := AllTold(u, steps[1..], sid);
      assert AllTold(s, steps, sid) == rest;
      if sid in u.sessions {
        RegisteredFresh(s, steps[0], sid);
        RunCarries(u, steps[1..], t, sid, []);
        assert [] + rest == rest;
      } else {
        NewCarries(u, steps[1..], t, sid);
      }
    }
  }

  lemma {:induction false} RegisteredFresh(s: State, step: Step, sid: string)
    requires Enabled(s, step) && sid !in s.sessions && sid in Apply(s, step).sessions
    ensures Carries(Apply(s, step).sessions[sid].life, [])
  {
  }

  /**
   In every run a session's close reason is the first non-empty one among those told to the
   transitions that took effect, in their order, and every status event carries the reason
   known when it was emitted.
   */
  lemma ReasonIsFirstSaid(steps: seq<Step>, s: State, sid: string)
    requires Run(Initial(), steps, s) && sid in s.sessions
    ensures s.sessions[sid].life.reason == FirstSaid(AllTold(Initial(), steps, sid))
    ensures |s.sessions[sid].life.trace| == |AllTold(Initial(), steps, sid)|
    ensures forall i :: 0 <= i < |s.sessions[sid].life.trace| ==>
      s.sessions[sid].life.trace[i].reason == FirstSaid(AllTold(Initial(), steps, sid)[..i + 1])
  {
    NewCarries(Initial(), steps, s, sid);
  }

  // ---------------------------------------------------------------- the pump's own reason

  function Fallback(failed: bool): Reason { if failed then "transport-error" else "server-hangup" }

  /** Before any close there is no reason; the pump has made out its own or has read the session's. */
  predicate ReasonOk(x: Sess) {
    && (x.life.status == Opening || x.life.status == Open ==> x.life.reason == "")
    && (x.pump.Setting? ==> x.pump.why == Fallback(x.pump.failed) || (x.pump.why == x.life.reason != ""))
  }

  lemma {:induction false} StepReasonOk(s: State, step: Step, sid: string)
    requires Enabled(s, step) && sid in s.sessions && ReasonOk(s.sessions[sid])
    ensures ReasonOk(Apply(s, step).sessions[sid])
  {
    match step
    case Create(c, k) => if c == sid { CreateReasonOk(s.sessions[sid], k); }
    case Pump(c, p) => if c == sid { PumpReasonOk(s.sessions[sid], p); }
    case Close(t, k) => if s.closers[t].sid == sid { CloseReasonOk(s.sessions[sid], t, s.closers[t].reason, k); }
    case _ =>
  }

  lemma {:induction false} CreateReasonOk(x: Sess, c: CreateStep)
    requires CanCreate(x, c) && ReasonOk(x)
    ensures ReasonOk(DoCreate(x, c))
  {
  }

  lemma {:induction false} PumpReasonOk(x: Sess, p: PumpStep)
    requires CanPump(x, p) && ReasonOk(x)
    ensures ReasonOk(DoPump(x, p))
  {
  }

  lemma {:induction false} CloseReasonOk(x: Sess, t: Tid, reason: Reason, k: CloseStep)
    requires ReasonOk(x)
    ensures ReasonOk(CloseSess(x, t, reason, k))
  {
  }

  lemma {:induction false} RunReasonOk(s: State, steps: seq<Step>, t: State, sid: string)
    requires Run(s, steps, t) && sid in t.sessions && (sid in s.sessions ==> ReasonOk(s.sessions[sid]))
    ensures ReasonOk(t.sessions[sid])
    decreases |steps|
  {
    if steps != [] {
      if sid in s.sessions { StepReasonOk(s, steps[0], sid); }
      RunReasonOk(Apply(s, steps[0]), steps[1..], t, sid);
    }
  }

  /** A pump that ends a session without a reason leaves an error by transport-error or a close by server-hangup. */
  lemma PumpGivesItsOwn(steps: seq<Step>, s: State, sid: string)
    requires Run(Initial(), steps, s) && Enabled(s, Pump(sid, PumpSet)) && s.sessions[sid].life.reason == ""
    requires s.sessions[sid].life.status == Open || s.sessions[sid].life.status == Closing
    ensures
      var l := Apply(s, Pump(sid, PumpSet)).sessions[sid].life;
      && l.status == (if s.sessions[sid].pump.failed then Error else Closed)
      && l.reason == (if s.sessions[sid].pump.failed then "transport-error" else "server-hangup")
  {
    RunReasonOk(Initial(), steps, s, sid);
  }

  /** A session nobody closed has no reason yet, so that is what its own end leaves. */
  lemma OpenHasNoReason(steps: seq<Step>, s: State, sid: string)
    requires Run(Initial(), steps, s) && sid in s.sessions
    requires s.sessions[sid].life.status == Opening || s.sessions[sid].life.status == Open
    ensures s.sessions[sid].life.reason == ""
  {
    RunReasonOk(Initial(), steps, s, sid);
  }
}
