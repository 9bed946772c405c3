/**
 A client that keeps its text when it attaches again, as the protocol lets it: output frames
 are appended and only a reset clears. Each byte kept is labelled with the offset its frame
 gave it, so a byte sent twice and a byte left out both show.
 */
module FanoutKept {
  import opened Common
  import opened OutputRing
  import opened WsConn
  import opened Fanout
  import opened FanoutProofs

  datatype Cell = Cell(at: int, byte: Byte)

  /** The bytes of an output frame, which end at the frame's offset. */
  function Cells(data: seq<Byte>, offset: int): (cs: seq<Cell>)
    ensures |cs| == |data|
    ensures forall i :: 0 <= i < |cs| ==> cs[i] == Cell(offset - |data| + i, data[i])
  {
    seq(|data|, i requires 0 <= i < |data| => Cell(offset - |data| + i, data[i]))
  }

  function Keep(kept: seq<Cell>, f: Frame, me: string): seq<Cell> {
    if f.Output? && f.sid == me then (if f.reset then [] else kept) + Cells(f.data, f.offset) else kept
  }

  /** What the client has kept of session `me` after the frames `fs`. */
  function Kept(fs: seq<Frame>, me: string): seq<Cell>
    decreases |fs|
  {
    if fs == [] then [] else Keep(Kept(fs[..|fs| - 1], me), fs[|fs| - 1], me)
  }

  lemma {:induction false} KeptSnoc(fs: seq<Frame>, f: Frame, me: string)
    ensures Kept(fs + [f], me) == Keep(Kept(fs, me), f, me)
  {
    assert (fs + [f])[..|fs + [f]| - 1] == fs;
  }

  /** Consecutive offsets that end at `end`: nothing twice and nothing left out. */
  ghost predicate Piece(kept: seq<Cell>, end: int) {
    forall i :: 0 <= i < |kept| ==> kept[i].at == end - |kept| + i
  }

  /** Every byte is the stream's byte at its offset. */
  ghost predicate Copies(kept: seq<Cell>, stream: seq<Byte>) {
    forall i :: 0 <= i < |kept| ==> 0 <= kept[i].at < |stream| && kept[i].byte == stream[kept[i].at]
  }

  /** One contiguous piece of one of the two streams. */
  ghost predicate OnePiece(kept: seq<Cell>, live: seq<Byte>, late: seq<Byte>) {
    (exists end: int :: Piece(kept, end)) && (Copies(kept, live) || Copies(kept, late))
  }

  function KeptBy(s: State): seq<Cell> { Kept(s.box.Accepted(), s.me) }

  /** Where the bytes of a reply begin. */
  function ReplyStart(r: FromResult): int { r.offset - |r.data| }

  /** The reply starts the client over, or the client holds nothing, or it begins where the accepted text ends. */
  predicate Rejoins(s: State)
    requires s.router.Fetched?
  {
    s.router.reply.reset || KeptBy(s) == [] ||
    (ReplyStart(s.router.reply) == s.link.heldEnd && s.router.replyLate == s.link.heldLate)
  }

  /** Every attach of the run rejoins. */
  ghost predicate Continuing(s: State, steps: seq<Step>)
    decreases |steps|
  {
    steps == [] ||
    (Enabled(s, steps[0]) && (steps[0] == R(RouteAttach) ==> Rejoins(s)) && Continuing(Apply(s, steps[0]), steps[1..]))
  }

  ghost predicate KeptInv(s: State) {
    && (!s.link.spliced ==> KeptOk(KeptBy(s), s.box.closed, s.entry, s.link.heldEnd, s.link.heldLate))
    && AskedOk(s.router)
  }

  ghost predicate KeptOk(kept: seq<Cell>, closed: bool, e: Entry, end: int, fromLate: bool) {
    && OnePiece(kept, e.live, e.late)
    && (!closed ==> Piece(kept, end) && Copies(kept, e.Stream(fromLate)))
  }

  /** A reply that is no reset begins at the offset asked for. */
  predicate AskedOk(r: RouterPc) {
    r.Fetched? && r.asked.Some? && !r.reply.reset ==> ReplyStart(r.reply) == r.asked.value
  }

  // ---------------------------------------------------------------- one frame more

  lemma {:induction false} JoinsPiece(kept: seq<Cell>, data: seq<Byte>, offset: int, stream: seq<Byte>)
    requires EndsAt(data, stream, offset) && Piece(kept, offset - |data|) && Copies(kept, stream)
    ensures Piece(kept + Cells(data, offset), offset) && Copies(kept + Cells(data, offset), stream)
  {
    var all := kept + Cells(data, offset);
    forall i | 0 <= i < |all|
      ensures all[i].at == offset - |all| + i && 0 <= all[i].at < |stream| && all[i].byte == stream[all[i].at]
    {
      if i >= |kept| {
        assert all[i] == Cells(data, offset)[i - |kept|];
      }
    }
  }

  /** Nothing kept, or everything thrown away: the frame alone is a piece. */
  lemma {:induction false} FrameIsPiece(data: seq<Byte>, offset: int, stream: seq<Byte>)
    requires EndsAt(data, stream, offset)
    ensures Piece([] + Cells(data, offset), offset) && Copies([] + Cells(data, offset), stream)
  {
    JoinsPiece([], data, offset, stream);
  }

  /** A frame that begins elsewhere leaves a hole or repeats a byte. */
  lemma {:induction false} JoinsExactlyWhen(kept: seq<Cell>, end: int, data: seq<Byte>, offset: int)
    requires Piece(kept, end) && kept != []
    ensures Piece(kept + Cells(data, offset), offset) <==> offset - |data| == end
  {
    var all := kept + Cells(data, offset);
    assert all[|kept| - 1] == kept[|kept| - 1];
    forall i | 0 <= i < |all| ensures all[i].at == if i < |kept| then end - |kept| + i else offset - |all| + i {
      if i >= |kept| { assert all[i] == Cells(data, offset)[i - |kept|]; }
    }
  }

  lemma {:induction false} PieceGrows(kept: seq<Cell>, live: seq<Byte>, late: seq<Byte>,
                                      moreLive: seq<Byte>, moreLate: seq<Byte>)
    requires OnePiece(kept, live, late)
    ensures OnePiece(kept, live + moreLive, late + moreLate)
  {
    assert Copies(kept, live) ==> Copies(kept, live + moreLive);
    assert Copies(kept, late) ==> Copies(kept, late + moreLate);
  }

  // ---------------------------------------------------------------- steps

  /** Steps that change neither what was accepted nor what is kept of it. */
  predicate Aside(step: Step) {
    step != P(Append) && step != R(RouteAttach) && step != O(OpSend) && step != O(OpClosed) && !step.B?
  }

  ghost predicate SameKept(s: State, t: State) {
    && t.me == s.me && t.box == s.box && t.entry.live == s.entry.live && t.entry.late == s.entry.late
    && t.link.heldEnd == s.link.heldEnd && t.link.heldLate == s.link.heldLate
  }

  lemma {:induction false} AsideOpKeeps(s: State, step: OpStep)
    requires CanOp(s, step) && step != OpSend && step != OpClosed
    ensures SameKept(s, DoOp(s, step))
  {
    FlushedQuiet(s);
  }

  lemma {:induction false} AsideKeeps(s: State, step: Step)
    requires Enabled(s, step) && Aside(step)
    ensures SameKept(s, Apply(s, step))
  {
    if step.O? { AsideOpKeeps(s, step.o); }
  }

  lemma {:induction false} AskedStays(s: State, step: Step)
    requires Enabled(s, step) && AskedOk(s.router)
    ensures AskedOk(Apply(s, step).router)
  {
  }

  lemma {:induction false} AppendKeepsKept(s: State)
    requires KeptInv(s) && CanPump(s, Append)
    ensures KeptInv(DoPump(s, Append))
  {
    if !s.link.spliced {
      var t, chunk := DoPump(s, Append), s.pump.chunk;
      var moreLive, moreLate := if s.entry.registered then chunk else [], if s.entry.registered then [] else chunk;
      assert s.entry.live + [] == s.entry.live && s.entry.late + [] == s.entry.late;
      PieceGrows(KeptBy(s), s.entry.live, s.entry.late, moreLive, moreLate);
    }
  }

  lemma {:induction false} SendKeepsKept(s: State)
    requires BoxInv(s) && TextInv(s) && KeptInv(s) && CanOp(s, OpSend)
    ensures KeptInv(DoSend(s))
  {
    FlushedQuiet(s);
    AskedStays(s, O(OpSend));
    var MustSend(res, fromLate) := s.op.stage;
    var f := Output(s.me, res.data, res.offset, res.reset);
    OfferOk(s.box, f);
    KeptSnoc(s.box.Accepted(), f, s.me);
    if !s.link.spliced && Fits(s.box) {
      var before := if res.reset then [] else KeptBy(s);
      JoinsPiece(before, res.data, res.offset, s.entry.Stream(fromLate));
    }
  }

  lemma {:induction false} OtherFrameKeeps(s: State, f: Frame)
    requires s.box.Ok() && !(f.Output? && f.sid == s.me)
    ensures Kept(Offer(s.box, f).Accepted(), s.me) == KeptBy(s)
  {
    OfferOk(s.box, f);
    KeptSnoc(s.box.Accepted(), f, s.me);
  }

  lemma {:induction false} ClosedKeepsKept(s: State)
    requires BoxInv(s) && KeptInv(s) && CanOp(s, OpClosed)
    ensures KeptInv(DoOp(s, OpClosed))
  {
    OtherFrameKeeps(s, ClosedFrame(s.me));
    AskedStays(s, O(OpClosed));
  }

  lemma {:induction false} BoxKeepsKept(s: State, step: BoxStep)
    requires BoxInv(s) && KeptInv(s) && (step == Write ==> s.box.queue != [])
    ensures KeptInv(DoBox(s, step))
  {
    match step
    case Write => WriteOneOk(s.box);
    case OfferOther => OtherFrameKeeps(s, OtherFrame);
    case ShutConn =>
  }

  /** The first two frames of a reply carry no output. */
  lemma {:induction false} ReplyHead(fs: seq<Frame>, me: string)
    ensures Kept(fs + [AttachReply(me)], me) == Kept(fs, me)
    ensures Kept(fs + [AttachReply(me)] + [OtherFrame], me) == Kept(fs, me)
  {
    KeptSnoc(fs, AttachReply(me), me);
    KeptSnoc(fs + [AttachReply(me)], OtherFrame, me);
  }

  /** What the frames of a reply, or the first of them, do to the kept text. */
  lemma {:induction false} ReplyKept(fs: seq<Frame>, me: string, res: FromResult, pre: seq<Frame>)
    requires pre <= ReplyFrames(me, res)
    ensures Kept(fs + pre, me) ==
      if |pre| == 3 then (if res.reset then [] else Kept(fs, me)) + Cells(res.data, res.offset) else Kept(fs, me)
  {
    var two := fs + [AttachReply(me)] + [OtherFrame];
    ReplyHead(fs, me);
    if pre == [] {
      assert fs + pre == fs;
    } else if |pre| == 1 {
      assert fs + pre == fs + [AttachReply(me)];
    } else if |pre| == 2 {
      assert fs + pre == two;
    } else {
      var f := Output(me, res.data, res.offset, res.reset);
      KeptSnoc(two, f, me);
      assert fs + pre == two + [f];
    }
  }

  /** The kept text after an attach: the reply joined to it, or as it was when the connection is closed. */
  lemma {:induction false} AttachKept(o: Outbound, me: string, res: FromResult)
    requires o.Ok()
    ensures
      var box := OfferAll(o, ReplyFrames(me, res));
      Kept(box.Accepted(), me) ==
        if box.closed then Kept(o.Accepted(), me)
        else (if res.reset then [] else Kept(o.Accepted(), me)) + Cells(res.data, res.offset)
  {
    var fs := ReplyFrames(me, res);
    OfferAllOk(o, fs);
    var box := OfferAll(o, fs);
    var pre := box.Accepted()[|o.Accepted()|..];
    assert box.Accepted() == o.Accepted() + pre && pre <= fs;
    ReplyKept(o.Accepted(), me, res, pre);
    assert |fs| == 2 ==> Kept(o.Accepted(), me) + Cells(res.data, res.offset) == Kept(o.Accepted(), me);
  }

  lemma {:induction false} AttachKeepsKept(s: State)
    requires BoxInv(s) && StreamInv(s) && KeptInv(s) && CanRoute(s, RouteAttach) && Rejoins(s)
    ensures KeptInv(DoRoute(s, RouteAttach))
  {
    var res := s.router.reply;
    AttachKept(s.box, s.me, res);
    OfferAllOk(s.box, ReplyFrames(s.me, res));
    if !s.link.spliced && !OfferAll(s.box, ReplyFrames(s.me, res)).closed {
      var before := if res.reset then [] else KeptBy(s);
      JoinsPiece(before, res.data, res.offset, s.entry.Stream(s.router.replyLate));
    }
  }

  lemma {:induction false} StepKeepsKept(s: State, step: Step)
    requires Inv(s) && KeptInv(s) && Enabled(s, step) && (step == R(RouteAttach) ==> Rejoins(s))
    ensures KeptInv(Apply(s, step))
  {
    if Aside(step) {
      AsideKeeps(s, step);
      AskedStays(s, step);
      SplicedStays(s, step);
    } else {
      match step
      case P(p) => AppendKeepsKept(s);
      case R(r) => AttachKeepsKept(s);
      case O(o) => if o == OpSend { SendKeepsKept(s); } else { ClosedKeepsKept(s); }
      case B(b) => BoxKeepsKept(s, b);
    }
  }

  lemma {:induction false} SplicedStays(s: State, step: Step)
    requires Enabled(s, step)
    ensures s.link.spliced ==> Apply(s, step).link.spliced
  {
    if step != O(OpRead) { OnlyReadSplices(s, step); }
  }

  lemma {:induction false} RunKeepsKept(s: State, steps: seq<Step>, t: State)
    requires Inv(s) && KeptInv(s) && Run(s, steps, t) && Continuing(s, steps)
    ensures Inv(t) && KeptInv(t)
    decreases |steps|
  {
    if steps != [] {
      StepKeeps(s, steps[0]);
      StepKeepsKept(s, steps[0]);
      RunKeepsKept(Apply(s, steps[0]), steps[1..], t);
    }
  }

  lemma InitialKept(me: string, max: nat)
    ensures KeptInv(Initial(me, max))
  {
    var s := Initial(me, max);
    assert KeptBy(s) == [];
    assert Piece(KeptBy(s), 0) && Copies(KeptBy(s), s.entry.live);
  }

  // ---------------------------------------------------------------- theorems

  /**
   A client that keeps its text over any number of attaches holds one contiguous piece of
   the byte stream, no byte twice and no gap, in every run whose attaches rejoin; while the
   connection lives the piece ends at the offset the connection has recorded.
   */
  lemma KeptTextIsOnePiece(me: string, max: nat, steps: seq<Step>, s: State)
    requires Run(Initial(me, max), steps, s) && Continuing(Initial(me, max), steps) && !s.link.spliced
    ensures OnePiece(Kept(s.box.Accepted(), me), s.entry.live, s.entry.late)
    ensures !s.box.closed ==>
      && Piece(Kept(s.box.Accepted(), me), s.link.heldEnd)
      && Copies(Kept(s.box.Accepted(), me), s.entry.Stream(s.link.heldLate))
      && (s.link.attached && !MidSend(s) ==> s.link.heldEnd == s.link.last)
  {
    InitialInv(me, max);
    InitialKept(me, max);
    RunKeepsKept(Initial(me, max), steps, s);
    MeIsFixed(Initial(me, max), steps, s);
  }

  /** After an attach: the kept text is one piece that ends at the recorded offset, and all of it is the stream's. */
  ghost predicate Continued(t: State) {
    Piece(KeptBy(t), t.link.last) && Copies(KeptBy(t), t.entry.Stream(t.link.lastLate))
  }

  /** A piece and a frame copy a stream exactly when the frame begins at the piece's end and the piece is a copy. */
  lemma {:induction false} ExtendsExactlyWhen(kept: seq<Cell>, end: int, data: seq<Byte>, offset: int,
                                              stream: seq<Byte>)
    requires Piece(kept, end) && kept != [] && EndsAt(data, stream, offset)
    ensures
      var all := kept + Cells(data, offset);
      Piece(all, offset) && Copies(all, stream) <==> offset - |data| == end && Copies(kept, stream)
  {
    var all := kept + Cells(data, offset);
    JoinsExactlyWhen(kept, end, data, offset);
    assert forall i :: 0 <= i < |kept| ==> all[i] == kept[i];
    if offset - |data| == end && Copies(kept, stream) {
      JoinsPiece(kept, data, offset, stream);
    }
  }

  /**
   Exactly when an attach continues what the client kept: the reply is a reset, or the
   client holds nothing, or the reply begins where the text accepted for the client ends at
   that moment and comes from the stream that text is of. An older offset repeats bytes, a
   newer one leaves a gap, and a reply read from the buffer after the removal joins bytes of
   both sides of the clear (unless they happen to be the same). When no Close gave up on its
   pump the last cannot happen, and asking from where the accepted text ends is enough.
   */
  lemma ContinuesExactlyWhen(me: string, max: nat, steps: seq<Step>, s: State)
    requires Run(Initial(me, max), steps, s) && Continuing(Initial(me, max), steps) && !s.link.spliced
    requires Enabled(s, R(RouteAttach)) && !Apply(s, R(RouteAttach)).box.closed
    ensures
      var t, r, k := Apply(s, R(RouteAttach)), s.router, Kept(s.box.Accepted(), me);
      && (Continued(t) <==>
            || r.reply.reset || k == []
            || (ReplyStart(r.reply) == s.link.heldEnd && Copies(k, s.entry.Stream(r.replyLate))))
      && (r.asked.Some? && !r.reply.reset ==> ReplyStart(r.reply) == r.asked.value)
      && (r.replyLate == s.link.heldLate || !s.life.abandoned ==>
            (Continued(t) <==> r.reply.reset || k == [] || ReplyStart(r.reply) == s.link.heldEnd))
      && (r.asked.Some? && !s.life.abandoned ==>
            (Continued(t) <==> r.reply.reset || k == [] || r.asked == Some(s.link.heldEnd)))
  {
    KeptTextIsOnePiece(me, max, steps, s);
    InitialInv(me, max);
    InitialKept(me, max);
    RunKeepsKept(Initial(me, max), steps, s);
    MeIsFixed(Initial(me, max), steps, s);
    OfferAllOk(s.box, ReplyFrames(me, s.router.reply));
    AttachContinues(s);
    if ReplyStart(s.router.reply) == s.link.heldEnd && KeptBy(s) != [] { OrderlyReplies(s); }
  }

  lemma {:induction false} AttachContinues(s: State)
    requires BoxInv(s) && StreamInv(s) && KeptInv(s) && !s.link.spliced
    requires CanRoute(s, RouteAttach) && !DoRoute(s, RouteAttach).box.closed
    ensures Continued(DoRoute(s, RouteAttach)) <==>
      || s.router.reply.reset || KeptBy(s) == []
      || (ReplyStart(s.router.reply) == s.link.heldEnd && Copies(KeptBy(s), s.entry.Stream(s.router.replyLate)))
  {
    var res, k, stream := s.router.reply, KeptBy(s), s.entry.Stream(s.router.replyLate);
    OfferAllOk(s.box, ReplyFrames(s.me, res));
    AttachKept(s.box, s.me, res);
    if res.reset || k == [] {
      FrameIsPiece(res.data, res.offset, stream);
    } else {
      ExtendsExactlyWhen(k, s.link.heldEnd, res.data, res.offset, stream);
    }
  }

  /** Without a timed-out Close nothing follows the clear: a reply from the cleared buffer joins nothing held. */
  lemma {:induction false} OrderlyReplies(s: State)
    requires StreamInv(s) && KeptInv(s) && !s.link.spliced && !s.box.closed && s.router.Fetched?
    requires ReplyStart(s.router.reply) == s.link.heldEnd && KeptBy(s) != []
    ensures s.router.replyLate == s.link.heldLate || !s.life.abandoned ==>
      Copies(KeptBy(s), s.entry.Stream(s.router.replyLate))
  {
    var k := KeptBy(s);
    assert k[|k| - 1].at == s.link.heldEnd - 1 && 0 <= k[|k| - 1].at;
  }
}
