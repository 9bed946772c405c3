/** Concrete runs of a client that keeps its text and attaches again, up to the attach that breaks it. */
module FanoutKeptWitness {
  import opened Common
  import opened OutputRing
  import opened WsConn
  import opened SessionStatus
  import opened Fanout
  import opened FanoutKept
  import FanoutWitness

  /** A run leads there in which every attach so far rejoined. */
  ghost predicate ReachesKept(start: State, s: State) {
    exists steps :: Run(start, steps, s) && Continuing(start, steps)
  }

  lemma {:induction false} ContinuingSnoc(start: State, steps: seq<Step>, s: State, step: Step)
    requires Run(start, steps, s) && Continuing(start, steps)
    requires Enabled(s, step) && (step == R(RouteAttach) ==> Rejoins(s))
    ensures Continuing(start, steps + [step])
    decreases |steps|
  {
    if steps == [] {
      assert steps + [step] == [step] && [step][1..] == [];
    } else {
      ContinuingSnoc(Apply(start, steps[0]), steps[1..], s, step);
      assert (steps + [step])[1..] == steps[1..] + [step];
    }
  }

  lemma NextKept(start: State, s: State, step: Step) returns (t: State)
    requires ReachesKept(start, s) && Enabled(s, step) && (step == R(RouteAttach) ==> Rejoins(s))
    ensures t == Apply(s, step) && ReachesKept(start, t)
  {
    var steps :| Run(start, steps, s) && Continuing(start, steps);
    FanoutWitness.RunSnoc(start, steps, s, step);
    ContinuingSnoc(start, steps, s, step);
    t := Apply(s, step);
  }

  lemma StartsKept(start: State)
    ensures ReachesKept(start, start)
  {
    assert Run(start, [], start) && Continuing(start, []);
  }

  // ---------------------------------------------------------------- a byte twice

  /** The outbound side with these frames queued and none written yet. */
  function Queued(fs: seq<Frame>): Outbound { Outbound(fs, false, [], fs, 0) }

  function TwoFrames(): seq<Frame> { [AttachReply("s"), OtherFrame, Output("s", [1, 2], 2, false)] }

  /** A session that has delivered two bytes of three. */
  function TwoThere(): State {
    Initial("s", 10).(src := Source([1, 2, 3], false, 2), entry := Entry([1, 2], [], 0, true))
  }

  lemma TwoThereIsReached(start: State)
    requires start == Initial("s", 10)
    ensures ReachesKept(start, TwoThere())
  {
    StartsKept(start);
    var s := NextKept(start, start, P(Emit([1, 2, 3])));
    assert s.src.sent == [1, 2, 3] && s.src.sent[0..2] == [1, 2];
    s := NextKept(start, s, P(Take(2)));
    s := NextKept(start, s, P(Append));
    assert s.entry.live == [1, 2];
    s := NextKept(start, s, P(Notify));
  }

  function TwoLink(found: bool): Link { Link(true, 2, false, 2, false, false, Since(false, 2, found, false)) }

  /** The first attach: nothing is held yet, so it rejoins. */
  lemma AttachesFirst(start: State, s: State)
    requires ReachesKept(start, s) && s.me == "s" && s.op == Free && s.box == FRESH && !PastEnd(s.pump)
    requires s.router == Fetched(FromResult([1, 2], 2, false), false, None)
    requires s.link == Initial("s", 10).link
    ensures ReachesKept(start, s.(link := TwoLink(false), box := Queued(TwoFrames()), router := WantFlush))
  {
    var fs := ReplyFrames("s", FromResult([1, 2], 2, false));
    assert fs == TwoFrames() && [] + fs == fs;
    assert KeptBy(s) == [];
    RoomForAll(FRESH, fs);
    var t := NextKept(start, s, R(RouteAttach));
  }

  /** A client has attached and was sent both. */
  lemma TwoSent(start: State)
    requires start == Initial("s", 10)
    ensures ReachesKept(start, TwoThere().(link := TwoLink(false), box := Queued(TwoFrames()), router := WantFlush))
  {
    TwoThereIsReached(start);
    var s := NextKept(start, TwoThere(), R(RouteGet(None)));
    s := NextKept(start, s, R(RouteRead));
    assert s.router == Fetched(FromResult([1, 2], 2, false), false, None);
    AttachesFirst(start, s);
  }

  lemma TwoSettled(start: State)
    requires start == Initial("s", 10)
    ensures ReachesKept(start, TwoThere().(link := TwoLink(true), box := Queued(TwoFrames())))
  {
    TwoSent(start);
    var s := TwoThere().(link := TwoLink(false), box := Queued(TwoFrames()), router := WantFlush);
    s := NextKept(start, s, R(RouteFlush));
    s := NextKept(start, s, O(OpLook));
    s := NextKept(start, s, O(OpGet));
    s := NextKept(start, s, O(OpRead));
    s := NextKept(start, s, R(RouteCheck));
  }

  /** The third byte has arrived and the pump's flush is about to read it. */
  function ThirdThere(): State {
    TwoThere().(src := Source([1, 2, 3], false, 3), pump := Notifying, entry := Entry([1, 2, 3], [], 0, true),
                link := TwoLink(true), box := Queued(TwoFrames()), op := Busy(ByPump, false, HaveEntry(2)))
  }

  lemma ThirdIsThere(start: State)
    requires start == Initial("s", 10)
    ensures ReachesKept(start, ThirdThere())
  {
    TwoSettled(start);
    var s := TwoThere().(link := TwoLink(true), box := Queued(TwoFrames()));
    assert s.src.sent[2..3] == [3];
    s := NextKept(start, s, P(Take(1)));
    s := NextKept(start, s, P(Append));
    assert s.entry.live == [1, 2, 3];
    s := NextKept(start, s, P(Notify));
    s := NextKept(start, s, P(PumpFlush));
    s := NextKept(start, s, O(OpLook));
    s := NextKept(start, s, O(OpGet));
  }

  function ThirdQueued(): State {
    ThirdThere().(pump := Ranging, link := TwoLink(true).(last := 3, heldEnd := 3), op := Free,
                  box := Queued(TwoFrames() + [Output("s", [3], 3, false)]))
  }

  /** The third byte is in the queue. */
  lemma ThirdIsQueued(start: State)
    requires start == Initial("s", 10)
    ensures ReachesKept(start, ThirdQueued())
  {
    ThirdIsThere(start);
    var s := NextKept(start, ThirdThere(), O(OpRead));
    assert s.op.stage == HaveRead(FromResult([3], 3, false), false);
    s := NextKept(start, s, O(OpRecord));
    s := NextKept(start, s, O(OpSend));
  }

  /** The client, which has not seen it, attaches again from offset 2. */
  lemma AskedFromTwo(start: State)
    requires start == Initial("s", 10)
    ensures ReachesKept(start, ThirdQueued().(router := Fetched(FromResult([3], 3, false), false, Some(2))))
  {
    ThirdIsQueued(start);
    var s := NextKept(start, ThirdQueued(), R(RouteGet(Some(2))));
    s := NextKept(start, s, R(RouteRead));
    assert s.router == Fetched(FromResult([3], 3, false), false, Some(2));
  }

  /**
   A client that keeps its text and asks from where the text it has received ends, while a
   later frame is still queued for it, is sent a byte twice.
   */
  lemma ReattachRepeats() returns (s: State, t: State, kept: seq<Cell>)
    ensures ReachesKept(Initial("s", 10), s) && !s.link.spliced && s.router.Fetched?
    ensures s.router.asked == Some(2) && s.link.heldEnd == 3
    ensures Enabled(s, R(RouteAttach)) && t == Apply(s, R(RouteAttach)) && !t.box.closed
    ensures kept == KeptBy(t) && |kept| == 4 && kept[2] == kept[3] == Cell(2, 3)
  {
    var start := Initial("s", 10);
    AskedFromTwo(start);
    s := ThirdQueued().(router := Fetched(FromResult([3], 3, false), false, Some(2)));
    var before := s.box;
    assert before.Ok() && before.Accepted() == TwoFrames() + [Output("s", [3], 3, false)];
    KeptOfFour(before.Accepted());
    kept := KeptOfSeven(before);
    t := Apply(s, R(RouteAttach));
  }

  lemma KeptOfSeven(o: Outbound) returns (kept: seq<Cell>)
    requires o.Ok() && !o.closed && |o.queue| == 4
    requires |Kept(o.Accepted(), "s")| == 3 && Kept(o.Accepted(), "s")[2] == Cell(2, 3)
    ensures
      var box := OfferAll(o, ReplyFrames("s", FromResult([3], 3, false)));
      !box.closed && kept == Kept(box.Accepted(), "s")
    ensures |kept| == 4 && kept[2] == kept[3] == Cell(2, 3)
  {
    RoomForAll(o, ReplyFrames("s", FromResult([3], 3, false)));
    AttachKept(o, "s", FromResult([3], 3, false));
    kept := Kept(OfferAll(o, ReplyFrames("s", FromResult([3], 3, false))).Accepted(), "s");
  }

  lemma KeptOfFour(fs: seq<Frame>)
    requires fs == [AttachReply("s"), OtherFrame, Output("s", [1, 2], 2, false), Output("s", [3], 3, false)]
    ensures |Kept(fs, "s")| == 3 && Kept(fs, "s")[2] == Cell(2, 3)
  {
    KeptSnoc([], fs[0], "s");
    KeptSnoc([fs[0]], fs[1], "s");
    KeptSnoc([fs[0], fs[1]], fs[2], "s");
    KeptSnoc([fs[0], fs[1], fs[2]], fs[3], "s");
    assert [] + [fs[0]] == [fs[0]] && [fs[0]] + [fs[1]] == [fs[0], fs[1]];
    assert [fs[0], fs[1]] + [fs[2]] == [fs[0], fs[1], fs[2]];
    assert [fs[0], fs[1], fs[2]] + [fs[3]] == fs;
  }

  // ---------------------------------------------------------------- both sides of the clear

  /** Two bytes are out and the pump holds three more, past its abandoned check. */
  function Holds(): State {
    Initial("s", 10).(src := Source([1, 2, 7, 8, 9], false, 5), pump := Holding([7, 8, 9]),
                      entry := Entry([1, 2], [], 0, true))
  }

  lemma HoldsIsReached(start: State)
    requires start == Initial("s", 10)
    ensures ReachesKept(start, Holds())
  {
    StartsKept(start);
    var s := NextKept(start, start, P(Emit([1, 2, 7, 8, 9])));
    assert s.src.sent == [1, 2, 7, 8, 9] && s.src.sent[0..2] == [1, 2] && s.src.sent[2..5] == [7, 8, 9];
    s := NextKept(start, s, P(Take(2)));
    s := NextKept(start, s, P(Append));
    assert s.entry.live == [1, 2];
    s := NextKept(start, s, P(Notify));
    s := NextKept(start, s, P(Take(3)));
  }

  /** A client has attached and holds both. */
  lemma HeldBoth(start: State)
    requires start == Initial("s", 10)
    ensures ReachesKept(start, Holds().(link := TwoLink(true), box := Queued(TwoFrames())))
  {
    HoldsIsReached(start);
    var s := NextKept(start, Holds(), R(RouteGet(None)));
    s := NextKept(start, s, R(RouteRead));
    assert s.router == Fetched(FromResult([1, 2], 2, false), false, None);
    AttachesFirst(start, s);
    s := Holds().(link := TwoLink(false), box := Queued(TwoFrames()), router := WantFlush);
    s := NextKept(start, s, R(RouteFlush));
    s := NextKept(start, s, O(OpLook));
    s := NextKept(start, s, O(OpGet));
    s := NextKept(start, s, O(OpRead));
    s := NextKept(start, s, R(RouteCheck));
  }

  /** A Close gave up on the pump and has told the client that the session is closed. */
  function ToldClosed(): State {
    Holds().(link := TwoLink(true).(attached := false), box := Queued(TwoFrames() + [ClosedFrame("s")]),
             life := Life(Closed, true, false, 0, 0, 0, 1, NoSweep))
  }

  lemma ClosedIsTold(start: State)
    requires start == Initial("s", 10)
    ensures ReachesKept(start, ToldClosed())
  {
    HeldBoth(start);
    var s := Holds().(link := TwoLink(true), box := Queued(TwoFrames()));
    s := NextKept(start, s, C(CloseBegin));
    s := NextKept(start, s, C(CloseGiveUp));
    s := NextKept(start, s, C(CloseFinal));
    s := NextKept(start, s, C(CloseAnnounce));
    Announces(start, s);
  }

  lemma Announces(start: State, s: State)
    requires ReachesKept(start, s)
    requires s == Holds().(link := TwoLink(true), box := Queued(TwoFrames()), op := Busy(ByCloser, true, Start),
                           life := Life(Closed, true, false, 0, 0, 1, 0, NoSweep))
    ensures ReachesKept(start, ToldClosed())
  {
    var t := NextKept(start, s, O(OpLook));
    t := NextKept(start, t, O(OpGet));
    t := NextKept(start, t, O(OpRead));
    t := NextKept(start, t, O(OpDetach));
    t := NextKept(start, t, O(OpClosed));
  }

  /** It asks from where its text ends; the removal and the pump's last chunk come before the buffer is read. */
  function AskedAcross(): State {
    ToldClosed().(pump := Appended, entry := Entry([1, 2], [7, 8, 9], 1, false),
                  life := Life(Closed, true, false, 0, 0, 0, 0, Hooked),
                  router := Fetched(FromResult([9], 3, false), true, Some(2)))
  }

  lemma AskedIsReached(start: State)
    requires start == Initial("s", 10)
    ensures ReachesKept(start, AskedAcross())
  {
    ClosedIsTold(start);
    var s := NextKept(start, ToldClosed(), R(RouteGet(Some(2))));
    s := NextKept(start, s, C(CloseRemove));
    s := NextKept(start, s, P(Append));
    assert s.entry.late == [7, 8, 9];
    s := NextKept(start, s, R(RouteRead));
    assert s.router == Fetched(FromResult([9], 3, false), true, Some(2));
  }

  /**
   With a Close that gave up on its pump, a client that keeps its text and asks from exactly
   where the text accepted for it ends can be sent bytes of the other side of the clear: the
   offsets run on, but what it holds is a piece of neither stream.
   */
  lemma ReattachCrosses() returns (s: State, t: State, kept: seq<Cell>)
    ensures ReachesKept(Initial("s", 10), s) && !s.link.spliced && s.life.abandoned && s.router.Fetched?
    ensures s.router.asked == Some(s.link.heldEnd) && !s.router.reply.reset && s.router.replyLate && !s.link.heldLate
    ensures Enabled(s, R(RouteAttach)) && t == Apply(s, R(RouteAttach)) && !t.box.closed && !t.link.spliced
    ensures kept == KeptBy(t) && kept == [Cell(0, 1), Cell(1, 2), Cell(2, 9)]
    ensures Piece(kept, t.link.last) && !OnePiece(kept, t.entry.live, t.entry.late)
  {
    AskedIsReached(Initial("s", 10));
    s := AskedAcross();
    var o := s.box;
    assert o.Ok() && o.Accepted() == TwoFrames() + [ClosedFrame("s")];
    KeptOfClosed(o.Accepted());
    kept := KeptAcross(o);
    NeitherStream(kept);
    t := Apply(s, R(RouteAttach));
  }

  lemma KeptAcross(o: Outbound) returns (kept: seq<Cell>)
    requires o.Ok() && !o.closed && |o.queue| == 4 && Kept(o.Accepted(), "s") == [Cell(0, 1), Cell(1, 2)]
    ensures
      var box := OfferAll(o, ReplyFrames("s", FromResult([9], 3, false)));
      !box.closed && kept == Kept(box.Accepted(), "s")
    ensures kept == [Cell(0, 1), Cell(1, 2), Cell(2, 9)]
  {
    RoomForAll(o, ReplyFrames("s", FromResult([9], 3, false)));
    AttachKept(o, "s", FromResult([9], 3, false));
    kept := Kept(OfferAll(o, ReplyFrames("s", FromResult([9], 3, false))).Accepted(), "s");
    assert Cells([9], 3)[0] == Cell(2, 9);
  }

  lemma NeitherStream(kept: seq<Cell>)
    requires kept == [Cell(0, 1), Cell(1, 2), Cell(2, 9)]
    ensures Piece(kept, 3) && !OnePiece(kept, [1, 2], [7, 8, 9])
  {
    assert kept[0] == Cell(0, 1) && kept[2] == Cell(2, 9);
    assert !Copies(kept, [1, 2]) && !Copies(kept, [7, 8, 9]);
  }

  lemma KeptOfClosed(fs: seq<Frame>)
    requires fs == [AttachReply("s"), OtherFrame, Output("s", [1, 2], 2, false), ClosedFrame("s")]
    ensures Kept(fs, "s") == [Cell(0, 1), Cell(1, 2)]
  {
    KeptSnoc([], fs[0], "s");
    KeptSnoc([fs[0]], fs[1], "s");
    KeptSnoc([fs[0], fs[1]], fs[2], "s");
    KeptSnoc([fs[0], fs[1], fs[2]], fs[3], "s");
    assert [] + [fs[0]] == [fs[0]] && [fs[0]] + [fs[1]] == [fs[0], fs[1]];
    assert [fs[0], fs[1]] + [fs[2]] == [fs[0], fs[1], fs[2]];
    assert [fs[0], fs[1], fs[2]] + [fs[3]] == fs;
  }
}
