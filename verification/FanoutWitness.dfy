/** Concrete runs of the fan-out machine that show where its guarantees end. */
module FanoutWitness {
  import opened Common
  import opened OutputRing
  import opened WsConn
  import opened SessionStatus
  import opened Fanout
  import FanoutProofs
  import FanoutDrain

  lemma {:induction false} RunSnoc(start: State, steps: seq<Step>, s: State, step: Step)
    requires Run(start, steps, s) && Enabled(s, step)
    ensures Run(start, steps + [step], Apply(s, step))
    decreases |steps|
  {
    if steps == [] {
      assert steps + [step] == [step] && [step][1..] == [];
    } else {
      RunSnoc(Apply(start, steps[0]), steps[1..], s, step);
      assert (steps + [step])[1..] == steps[1..] + [step];
    }
  }

  ghost predicate Reaches(start: State, s: State) { exists steps :: Run(start, steps, s) }

  lemma Next(start: State, s: State, step: Step) returns (t: State)
    requires Reaches(start, s) && Enabled(s, step)
    ensures t == Apply(s, step) && Reaches(start, t)
  {
    var steps :| Run(start, steps, s);
    RunSnoc(start, steps, s, step);
    t := Apply(s, step);
  }

  /** The pump has appended two bytes and holds three more. */
  lemma TwoAppended(start: State) returns (s: State)
    requires start == Initial("s", 10)
    ensures Reaches(start, s)
    ensures s == start.(src := Source([1, 2, 7, 8, 9], false, 5), pump := Holding([7, 8, 9]),
                        entry := Entry([1, 2], [], 0, true))
  {
    assert Run(start, [], start);
    s := Next(start, start, P(Emit([1, 2, 7, 8, 9])));
    assert s.src.sent == [1, 2, 7, 8, 9] && s.src.sent[0..2] == [1, 2] && s.src.sent[2..5] == [7, 8, 9];
    s := Next(start, s, P(Take(2)));
    s := Next(start, s, P(Append));
    assert s.entry.live == [1, 2];
    s := Next(start, s, P(Notify));
    s := Next(start, s, P(Take(3)));
  }

  /** A Close whose pump would not drain has announced the end; the pump holds one more chunk. */
  lemma GivenUp(start: State) returns (s: State)
    requires start == Initial("s", 10)
    ensures Reaches(start, s)
    ensures s == start.(src := Source([1, 2, 7, 8, 9], false, 5), pump := Holding([7, 8, 9]),
                        entry := Entry([1, 2], [], 0, true),
                        life := Life(Closed, true, false, 0, 0, 0, 1, NoSweep))
  {
    s := TwoAppended(start);
    s := Next(start, s, C(CloseBegin));
    s := Next(start, s, C(CloseGiveUp));
    s := Next(start, s, C(CloseFinal));
    s := Next(start, s, C(CloseAnnounce));
    s := Next(start, s, O(OpLook));
    s := Next(start, s, O(OpDetach));
    s := Next(start, s, O(OpClosed));
  }

  /** The client attaches in the window before the removal and is read up to the entry lookup. */
  lemma AttachedInWindow(start: State) returns (s: State)
    requires start == Initial("s", 10)
    ensures Reaches(start, s)
    ensures s.entry == Entry([1, 2], [], 0, true) && s.pump == Holding([7, 8, 9]) && s.life.removing == 1
    ensures s.op == Busy(ByRouter, false, HaveEntry(2)) && s.link.last == 2 && !s.link.lastLate && !s.link.spliced
    ensures s.me == "s" && s.max == 10
    ensures s.box.queue == [AttachReply("s"), OtherFrame, Output("s", [1, 2], 2, false)]
    ensures s.box.wire == [] && !s.box.closed
  {
    s := GivenUp(start);
    s := Next(start, s, R(RouteGet(None)));
    s := Next(start, s, R(RouteRead));
    assert s.router == Fetched(FromResult([1, 2], 2, false), false, None);
    var fs := ReplyFrames("s", FromResult([1, 2], 2, false));
    assert fs[1..][1..][1..] == [];
    s := Next(start, s, R(RouteAttach));
    s := Next(start, s, R(RouteFlush));
    s := Next(start, s, O(OpLook));
    s := Next(start, s, O(OpGet));
  }

  /** The chunk has reached the cleared buffer, and the flush has read it from the middle. */
  lemma ReadAcross(start: State) returns (s: State)
    requires start == Initial("s", 10)
    ensures Reaches(start, s) && s.me == "s" && s.link.spliced && s.entry.live == [1, 2] && s.entry.late == [7, 8, 9]
    ensures s.op == Busy(ByRouter, false, HaveRead(FromResult([9], 3, false), true))
    ensures s.box.queue == [AttachReply("s"), OtherFrame, Output("s", [1, 2], 2, false)]
    ensures s.box.wire == [] && !s.box.closed
  {
    s := AttachedInWindow(start);
    s := Next(start, s, C(CloseRemove));
    s := Next(start, s, P(Append));
    assert s.entry.late == [7, 8, 9];
    s := Next(start, s, O(OpRead));
  }

  /**
   A delta can cross the clear: an attach lands between the closed broadcast and the
   removal, and the abandoned pump's last chunk reaches the cleared buffer before the
   attach's flush reads it. The client then holds bytes of both streams joined together.
   */
  lemma SpliceHappens() returns (s: State)
    ensures Reaches(Initial("s", 10), s) && s.link.spliced
    ensures Text(s.box.Accepted(), "s") == [1, 2, 9] && s.entry.live == [1, 2] && s.entry.late == [7, 8, 9]
  {
    var start := Initial("s", 10);
    s := ReadAcross(start);
    s := Next(start, s, O(OpRecord));
    s := Next(start, s, O(OpSend));
    TextOfFour(s.box.Accepted());
  }

  lemma TextOfFour(fs: seq<Frame>)
    requires fs == [AttachReply("s"), OtherFrame, Output("s", [1, 2], 2, false), Output("s", [9], 3, false)]
    ensures Text(fs, "s") == [1, 2, 9]
  {
    assert fs == [] + [fs[0]] + [fs[1]] + [fs[2]] + [fs[3]];
    Snoc([], fs[0], "s");
    Snoc([fs[0]], fs[1], "s");
    Snoc([fs[0], fs[1]], fs[2], "s");
    Snoc([fs[0], fs[1], fs[2]], fs[3], "s");
    assert [fs[0]] + [fs[1]] == [fs[0], fs[1]];
    assert [fs[0], fs[1]] + [fs[2]] == [fs[0], fs[1], fs[2]];
    assert [fs[0], fs[1], fs[2]] + [fs[3]] == fs;
  }

  /** One byte arrives, the stream ends and a Close begins, while the connection's read loop stays where it is. */
  lemma Closing(start: State, at: RouterPc) returns (s: State)
    requires start == Initial("s", 10) && Reaches(start, start.(router := at))
    ensures Reaches(start, s)
    ensures s == start.(src := Source([5], true, 1), pump := Ranging, entry := Entry([5], [], 0, true),
                        life := Life(Status.Closing, false, false, 1, 0, 0, 0, NoSweep), router := at)
  {
    s := Next(start, start.(router := at), P(Emit([5])));
    assert s.src.sent == [5] && s.src.sent[0..1] == [5];
    s := Next(start, s, P(Take(1)));
    s := Next(start, s, P(Append));
    assert s.entry.live == [5];
    s := Next(start, s, P(Notify));
    s := Next(start, s, P(End));
    s := Next(start, s, C(CloseBegin));
  }

  /** The pump has ended the session and is broadcasting. */
  lemma Broadcast(start: State, at: RouterPc) returns (s: State)
    requires start == Initial("s", 10) && Reaches(start, start.(router := at))
    ensures Reaches(start, s)
    ensures s == start.(src := Source([5], true, 1), pump := Broadcasting, entry := Entry([5], [], 0, true),
                        life := Life(Closed, false, false, 1, 0, 0, 0, NoSweep),
                        router := at, op := Busy(ByPumpEnd, true, Start))
  {
    s := Closing(start, at);
    s := Next(start, s, P(PumpEnd(false)));
    s := Next(start, s, P(PumpFinal));
    s := Next(start, s, P(PumpBroadcast));
  }

  /** The pump has broadcast the end and returned; the Close has joined it. */
  lemma Joined(start: State, at: RouterPc) returns (s: State)
    requires start == Initial("s", 10) && Reaches(start, start.(router := at))
    ensures Reaches(start, s)
    ensures s == start.(src := Source([5], true, 1), pump := Finished, entry := Entry([5], [], 0, true),
                        life := Life(Closed, false, false, 0, 1, 0, 0, NoSweep), router := at)
  {
    s := Broadcast(start, at);
    s := Next(start, s, O(OpLook));
    s := Next(start, s, O(OpDetach));
    s := Next(start, s, O(OpClosed));
    s := Next(start, s, C(CloseJoin));
  }

  /**
   An attach has read the empty buffer before all that; the session is removed, and only now the
   attach becomes visible.
   */
  lemma AttachedTooLate(start: State) returns (s: State)
    requires start == Initial("s", 10)
    ensures Reaches(start, s)
    ensures s.src == Source([5], true, 1) && s.pump == Finished && s.entry == Entry([5], [], 0, false)
    ensures s.life == Life(Closed, false, false, 0, 0, 0, 0, Swept) && s.router == WantFlush && s.op == Free
    ensures s.link == Link(true, 0, false, 0, false, false, Since(true, 0, false, false)) && !s.box.closed
  {
    assert Run(start, [], start);
    s := Next(start, start, R(RouteGet(None)));
    s := Next(start, s, R(RouteRead));
    s := Joined(start, Fetched(FromResult([], 0, false), false, None));
    s := Next(start, s, C(CloseFinal));
    s := Next(start, s, C(CloseRemove));
    s := Next(start, s, C(SweepCheck));
    var fs := ReplyFrames("s", FromResult([], 0, false));
    assert fs[1..][1..] == [];
    s := Next(start, s, R(RouteAttach));
  }

  /**
   The first way to come too late: with every Close joined and no purge, a connection whose
   attach had read early gets terminal:closed without the last byte, because every lookup
   after the attach landed finds the entry gone.
   */
  lemma LateAttachMissesTail() returns (s: State)
    ensures Reaches(Initial("s", 10), s) && FanoutProofs.Orderly(s) && FanoutDrain.ClosedIsDue(s)
    ensures s.src.sent == [5] && s.link.heldEnd == 0 && s.link.since == Since(true, 0, false, false)
  {
    var start := Initial("s", 10);
    s := AttachedTooLate(start);
    s := Next(start, s, R(RouteFlush));
    s := Next(start, s, O(OpLook));
    s := Next(start, s, O(OpGet));
    s := Next(start, s, R(RouteCheck));
    s := Next(start, s, R(RouteClose));
    s := Next(start, s, O(OpLook));
    s := Next(start, s, O(OpGet));
    s := Next(start, s, O(OpDetach));
  }

  /** An attach to the ended session was answered with all of its output, and its flush has found the entry. */
  lemma AttachedAfterEnd(start: State) returns (s: State)
    requires start == Initial("s", 10)
    ensures Reaches(start, s) && s.me == "s" && s.max == 10
    ensures s.src == Source([5], true, 1) && s.pump == Finished && s.entry == Entry([5], [], 0, true)
    ensures s.life == Life(Closed, false, false, 0, 1, 0, 0, NoSweep)
    ensures s.link == Link(true, 1, false, 1, false, false, Since(true, 1, true, false))
    ensures s.router == WantFlush && s.op == Busy(ByRouter, false, HaveEntry(1))
    ensures s.box.wire == [] && |s.box.queue| == 3 && !s.box.closed
  {
    assert Run(start, [], start);
    s := Joined(start, Idle);
    s := Next(start, s, R(RouteGet(None)));
    s := Next(start, s, R(RouteRead));
    assert s.router == Fetched(FromResult([5], 1, false), false, None);
    var fs := ReplyFrames("s", FromResult([5], 1, false));
    assert fs[1..][1..][1..] == [];
    s := Next(start, s, R(RouteAttach));
    s := Next(start, s, R(RouteFlush));
    s := Next(start, s, O(OpLook));
    s := Next(start, s, O(OpGet));
  }

  /** The removal came between the lookup and the read: the client was told to start over with nothing. */
  lemma ReadAfterRemoval(start: State) returns (s: State)
    requires start == Initial("s", 10)
    ensures Reaches(start, s) && s.me == "s" && s.src.sent == [5] && FanoutProofs.Orderly(s) && !s.box.closed
    ensures s.link == Link(true, 0, true, 0, true, false, Since(true, 1, true, true))
    ensures s.life.sweep == Hooked && !s.entry.registered && s.op == Free
  {
    s := AttachedAfterEnd(start);
    s := Next(start, s, C(CloseFinal));
    s := Next(start, s, C(CloseRemove));
    s := Next(start, s, O(OpRead));
    assert s.op.stage == HaveRead(FromResult([], 0, true), true);
    s := Next(start, s, O(OpRecord));
    s := Next(start, s, O(OpSend));
  }

  /**
   The second way: with every Close joined and no purge, an attach that was answered with
   every byte is blanked by its own flush before terminal:closed.
   */
  lemma LateFlushBlanksClient() returns (s: State)
    ensures Reaches(Initial("s", 10), s) && FanoutProofs.Orderly(s) && FanoutDrain.ClosedIsDue(s)
    ensures s.src.sent == [5] && s.link.heldEnd == 0 && s.link.since == Since(true, 1, true, true)
  {
    var start := Initial("s", 10);
    s := ReadAfterRemoval(start);
    s := Next(start, s, C(SweepCheck));
    s := Next(start, s, C(SweepRun));
    s := Next(start, s, O(OpLook));
    s := Next(start, s, O(OpGet));
    s := Next(start, s, O(OpDetach));
  }
}
