/** A concrete run of the session registry that reaches the bound on status events. */
module SessionWitness {
  import opened Common
  import opened Sessions

  lemma {:induction false} RunSnoc(start: State, steps: seq<Step>, s: State, step: Step)
    requires Run(start, steps, s) && Enabled(s, step)
    ensures Run(start, steps + [step], Apply(s, step))
    decreases |steps|
  {
    if steps == [] {
      assert steps + [step] == [step] && [step][1..] == [];
    } else {
      RunSnoc(Apply(start, steps[0]), steps[1..], s, step);
      assert (steps + [step])[1..] == steps[1..] + [step];
    }
  }

  ghost predicate Reachable(s: State) { exists steps :: Run(Initial(), steps, s) }

  lemma Next(s: State, step: Step)
    requires Reachable(s) && Enabled(s, step)
    ensures Reachable(Apply(s, step))
  {
    var steps :| Run(Initial(), steps, s);
    RunSnoc(Initial(), steps, s, step);
  }

  /** One registered session and its Close calls. */
  function One(sid: string, x: Sess, closers: map<Tid, Closer>): State {
    State(false, map[sid := x], {sid}, closers, map[], multiset{}, multiset{})
  }

  lemma Creates(sid: string, x: Sess, closers: map<Tid, Closer>, c: CreateStep)
    requires Reachable(One(sid, x, closers)) && CanCreate(x, c)
    ensures Reachable(One(sid, DoCreate(x, c), closers))
  {
    Next(One(sid, x, closers), Create(sid, c));
    assert map[sid := x][sid := DoCreate(x, c)] == map[sid := DoCreate(x, c)];
  }

  lemma Pumps(sid: string, x: Sess, closers: map<Tid, Closer>, p: PumpStep)
    requires Reachable(One(sid, x, closers)) && CanPump(x, p)
    ensures Reachable(One(sid, DoPump(x, p), closers))
  {
    Next(One(sid, x, closers), Pump(sid, p));
    assert map[sid := x][sid := DoPump(x, p)] == map[sid := DoPump(x, p)];
  }

  lemma Closes(sid: string, x: Sess, closers: map<Tid, Closer>, t: Tid, k: CloseStep)
    requires Reachable(One(sid, x, closers)) && t in closers && closers[t].sid == sid
    requires CanCloseStep(x, closers[t].pc, k) && k != CloseRemove
    ensures
      var moved := closers[t := closers[t].(pc := CloseNext(x, true, k))];
      Reachable(One(sid, CloseSess(x, t, closers[t].reason, k), moved))
  {
    Next(One(sid, x, closers), Close(t, k));
    var y := CloseSess(x, t, closers[t].reason, k);
    assert map[sid := x][sid := y] == map[sid := y];
  }

  /** A Close call reaches its beginClosing section; the session may be open or in error. */
  lemma Begins(sid: string, x: Sess, closers: map<Tid, Closer>, t: Tid, reason: Reason)
    requires Reachable(One(sid, x, closers)) && t !in closers && t.Direct? && MayClose(x.life)
    ensures
      var begun := x.(life := Move(x.life, Closing, reason), closer := Some(t));
      Reachable(One(sid, begun, closers[t := Closer(sid, reason, Began)]))
  {
    Next(One(sid, x, closers), CloseCall(t, sid, reason));
    var c1 := closers[t := Closer(sid, reason, Started)];
    Closes(sid, x, c1, t, CloseGet);
    var c2 := c1[t := Closer(sid, reason, Got)];
    Closes(sid, x, c2, t, CloseBegin);
    assert c2[t := Closer(sid, reason, Began)] == closers[t := Closer(sid, reason, Began)];
  }

  /** An open session whose pump runs. */
  function Opened(): Sess {
    Sess("acct", Move(Life(Opening, "", []), Open, ""), Established, Setup(true, false, false),
         Link(true, false, false), Ranging, false, None)
  }

  lemma ConnectingIsReached(sid: string)
    ensures Reachable(One(sid, DoCreate(Fresh("acct"), FactoryReturn(true)), map[]))
  {
    assert Run(Initial(), [], Initial());
    Next(Initial(), Register(sid, "acct"));
    assert Apply(Initial(), Register(sid, "acct")) == One(sid, Fresh("acct"), map[]);
    Creates(sid, Fresh("acct"), map[], FactoryReturn(true));
  }

  lemma OpenedIsReached(sid: string)
    ensures Reachable(One(sid, Opened(), map[]))
  {
    ConnectingIsReached(sid);
    var x := DoCreate(Fresh("acct"), FactoryReturn(true));
    Creates(sid, x, map[], Adopt);
    x := DoCreate(x, Adopt);
    Creates(sid, x, map[], CreateNext);
    x := DoCreate(x, CreateNext);
    Creates(sid, x, map[], StartPump);
  }

  /** While a Close waits, the transport fails: closing becomes error. */
  function Failed(): Sess {
    Opened().(life := Move(Move(Opened().life, Closing, "user"), Error, "user"), pump := Done,
              link := Link(true, false, true), closer := Some(Direct(1)))
  }

  lemma FailedIsReached()
    ensures Reachable(One("a", Failed(), map[Direct(1) := Closer("a", "user", Began)]))
  {
    OpenedIsReached("a");
    Begins("a", Opened(), map[], Direct(1), "user");
    var x := Opened().(life := Move(Opened().life, Closing, "user"), closer := Some(Direct(1)));
    var c := map[Direct(1) := Closer("a", "user", Began)];
    assert map[][Direct(1) := Closer("a", "user", Began)] == c;
    Pumps("a", x, c, TransportEnd);
    x := DoPump(x, TransportEnd);
    Pumps("a", x, c, PumpStop(true));
    x := DoPump(x, PumpStop(true));
    Pumps("a", x, c, PumpReason);
    x := DoPump(x, PumpReason);
    Pumps("a", x, c, PumpSet);
  }

  /** Error does not stop a second Close: five status events, the most there can be. */
  lemma FiveEventsHappen()
    ensures exists s: State ::
      && Reachable(s) && "a" in s.sessions
      && |s.sessions["a"].life.trace| == 5 && s.sessions["a"].life.status == Closed
  {
    FailedIsReached();
    var c := map[Direct(1) := Closer("a", "user", Began)];
    Begins("a", Failed(), c, Direct(2), "idle");
    var x := Failed().(life := Move(Failed().life, Closing, "idle"), closer := Some(Direct(2)));
    c := c[Direct(2) := Closer("a", "idle", Began)];
    Closes("a", x, c, Direct(1), CloseLook);
    c := c[Direct(1) := Closer("a", "user", HasTransport)];
    Closes("a", x, c, Direct(1), CloseTransport);
    x := CloseSess(x, Direct(1), "user", CloseTransport);
    c := c[Direct(1) := Closer("a", "user", Joining)];
    Closes("a", x, c, Direct(1), CloseJoin);
    c := c[Direct(1) := Closer("a", "user", Finishing)];
    Closes("a", x, c, Direct(1), CloseSet);
    x := CloseSess(x, Direct(1), "user", CloseSet);
    var s := One("a", x, c[Direct(1) := Closer("a", "user", Removing)]);
    assert Reachable(s) && "a" in s.sessions && |s.sessions["a"].life.trace| == 5;
  }

  /** The calls after one of them has gone to another place. */
  function Going(closers: map<Tid, Closer>, t: Tid, to: CloserPc): map<Tid, Closer>
    requires t in closers
  {
    closers[t := closers[t].(pc := to)]
  }

  /** What one section of a Close call makes of the registry. */
  lemma {:induction false} SectionSeen(sid: string, r: State, t: Tid, k: CloseStep) returns (u: State)
    requires Reachable(r) && r.sessions.Keys == {sid} && t in r.closers && r.closers[t].sid == sid
    requires CanCloseStep(r.sessions[sid], r.closers[t].pc, k) && k != CloseRemove
    ensures Reachable(u) && u.registered == r.registered && u.sessions.Keys == {sid}
    ensures u.destroyed == r.destroyed && u.jobs == r.jobs
    ensures u.sessions[sid] == CloseSess(r.sessions[sid], t, r.closers[t].reason, k)
    ensures u.closers == Going(r.closers, t, CloseNext(r.sessions[sid], sid in r.registered, k))
  {
    Next(r, Close(t, k));
    u := Apply(r, Close(t, k));
  }

  /** An open session at a shutdown: its snapshot holds the session, and the Close it spawned has begun. */
  lemma ShutdownBegins() returns (s: State)
    ensures Reachable(s) && s.destroyed && s.jobs == map[0 := Job({"a"}, true)]
    ensures s.sessions == map["a" := Opened()] && s.registered == {"a"}
    ensures s.closers == map[ForSweep(0, "a") := Closer("a", "shutdown", Got)]
  {
    OpenedIsReached("a");
    var s0 := One("a", Opened(), map[]);
    Next(s0, Sweep(0, {"a"}, true));
    s := Apply(s0, Sweep(0, {"a"}, true));
    var t := ForSweep(0, "a");
    Next(s, CloseCall(t, "a", "shutdown"));
    s := Apply(s, CloseCall(t, "a", "shutdown"));
    Next(s, Close(t, CloseGet));
    s := Apply(s, Close(t, CloseGet));
    assert s.closers == map[t := Closer("a", "shutdown", Got)];
    assert s.sessions == map["a" := Opened()];
  }

  /** It has moved the session to closing. */
  lemma ShutdownCloses() returns (s: State)
    ensures Reachable(s) && s.destroyed && s.jobs == map[0 := Job({"a"}, true)] && s.registered == {"a"}
    ensures s.sessions.Keys == {"a"} && s.sessions["a"].life.status == Closing && s.sessions["a"].pump == Ranging
    ensures s.sessions["a"].link.returned && s.sessions["a"].setup.adopted
    ensures s.closers == map[ForSweep(0, "a") := Closer("a", "shutdown", Began)]
  {
    s := ShutdownBegins();
    var t := ForSweep(0, "a");
    s := SectionSeen("a", s, t, CloseBegin);
    assert s.closers == map[t := Closer("a", "shutdown", Began)];
  }

  /** It has closed the transport and waits for the pump. */
  lemma ShutdownWaits() returns (s: State)
    ensures Reachable(s) && s.destroyed && s.jobs == map[0 := Job({"a"}, true)] && s.registered == {"a"}
    ensures s.sessions.Keys == {"a"} && s.sessions["a"].life.status == Closing && s.sessions["a"].pump == Ranging
    ensures s.sessions["a"].link.returned && s.closers == map[ForSweep(0, "a") := Closer("a", "shutdown", Joining)]
  {
    s := ShutdownCloses();
    var t := ForSweep(0, "a");
    s := SectionSeen("a", s, t, CloseLook);
    s := SectionSeen("a", s, t, CloseTransport);
    assert s.closers == map[t := Closer("a", "shutdown", Joining)];
  }

  /** The pump has drained and ended the session, and the Close has joined it. */
  lemma ShutdownJoins() returns (s: State)
    ensures Reachable(s) && s.destroyed && s.jobs == map[0 := Job({"a"}, true)] && s.registered == {"a"}
    ensures s.sessions.Keys == {"a"} && s.sessions["a"].life.status == Closed
    ensures s.closers == map[ForSweep(0, "a") := Closer("a", "shutdown", Finishing)]
  {
    s := ShutdownWaits();
    s := PumpEnds(s);
    var t := ForSweep(0, "a");
    s := SectionSeen("a", s, t, CloseJoin);
    assert s.closers == map[t := Closer("a", "shutdown", Finishing)];
  }

  lemma PumpEnds(s: State) returns (t: State)
    requires Reachable(s) && s.sessions.Keys == {"a"} && s.sessions["a"].pump == Ranging
    requires s.sessions["a"].link.returned && s.sessions["a"].life.status == Closing
    ensures Reachable(t) && t == s.(sessions := t.sessions) && t.sessions.Keys == {"a"}
    ensures t.sessions["a"].life.status == Closed && t.sessions["a"].pump == Done
  {
    Next(s, Pump("a", TransportEnd));
    t := Apply(s, Pump("a", TransportEnd));
    Next(t, Pump("a", PumpStop(false)));
    t := Apply(t, Pump("a", PumpStop(false)));
    Next(t, Pump("a", PumpReason));
    t := Apply(t, Pump("a", PumpReason));
    Next(t, Pump("a", PumpSet));
    t := Apply(t, Pump("a", PumpSet));
  }

  lemma ShutdownRemoves() returns (s: State)
    ensures Reachable(s) && s.destroyed && s.jobs == map[0 := Job({"a"}, true)] && s.registered == {"a"}
    ensures s.sessions.Keys == {"a"} && s.sessions["a"].life.status == Closed
    ensures s.closers == map[ForSweep(0, "a") := Closer("a", "shutdown", Removing)]
  {
    s := ShutdownJoins();
    var t := ForSweep(0, "a");
    s := SectionSeen("a", s, t, CloseSet);
    assert s.closers == map[t := Closer("a", "shutdown", Removing)];
  }

  /** A Destroy that found an open session returns, with the session closed and out of the registry. */
  lemma DestroyReturns() returns (s: State)
    ensures Reachable(s) && JobReturned(s, 0) && s.jobs[0].shutdown && s.jobs[0].ids == {"a"}
    ensures s.registered == {} && "a" in s.sessions && s.sessions["a"].life.status == Closed
  {
    s := ShutdownRemoves();
    var t := ForSweep(0, "a");
    Next(s, Close(t, CloseRemove));
    s := Apply(s, Close(t, CloseRemove));
    assert s.closers == map[t := Closer("a", "shutdown", Ended)];
  }
}
