/**
 The fan-out machine and the connection object agree: the sections of a flush or a close,
 with nothing in between them, do to a connection what its method does.
 */
module FanoutObjects {
  import opened Common
  import opened OutputRing
  import opened WsConn
  import opened Fanout
  import opened FanoutWitness

  /** The connection as its object sees it, for the session followed. */
  function ViewOf(s: State): View {
    View(if s.link.attached then {s.me} else {}, {}, if s.link.attached then map[s.me := s.link.last] else map[], s.box)
  }

  /** What the registry answers for the session. */
  function Answer(s: State): Option<Backlog> {
    if s.entry.registered then Some(Backlog(s.entry.live, s.max)) else None
  }

  predicate AtStart(s: State) {
    s.op.Busy? && s.op.stage == Start && (s.op.owner == ByCloser ==> s.life.announcing > 0)
  }

  /** Where the operation stands when its flush is done. */
  predicate FlushDone(s: State, t: State)
    requires s.op.Busy?
  {
    && t.me == s.me && (t.op == if s.op.closing then Busy(s.op.owner, true, MustDetach) else Free)
    && (s.op.closing ==> t.life == s.life)
  }

  /** The record and the send. */
  lemma SendAlone(start: State, s: State) returns (t: State)
    requires Reaches(start, s) && s.op.Busy? && s.op.stage.HaveRead?
    requires (s.op.owner == ByCloser ==> s.life.announcing > 0) && s.link.attached
    ensures Reaches(start, t) && FlushDone(s, t)
    ensures
      var d := s.op.stage.read;
      ViewOf(t) == ViewOf(s).(lastOffset := map[s.me := d.offset],
                              box := Offer(s.box, Output(s.me, d.data, d.offset, d.reset)))
  {
    t := Next(start, s, O(OpRecord));
    t := Next(start, t, O(OpSend));
  }

  /** The read, the record and the send, for an attached and registered session. */
  lemma DeltaAlone(start: State, s: State) returns (t: State)
    requires Reaches(start, s) && s.op.Busy? && s.op.stage == HaveEntry(s.link.last)
    requires (s.op.owner == ByCloser ==> s.life.announcing > 0) && s.link.attached && s.entry.registered
    ensures Reaches(start, t) && FlushDone(s, t) && ViewOf(t) == AfterFlush(ViewOf(s), Answer(s), s.me)
  {
    var d := DeltaOf(s.entry.live, s.max, Some(s.link.last));
    t := Next(start, s, O(OpRead));
    if d.data != [] || d.reset {
      t := SendAlone(start, t);
    }
  }

  lemma FlushAlone(s: State) returns (t: State)
    requires AtStart(s)
    ensures Reaches(s, t) && FlushDone(s, t) && ViewOf(t) == AfterFlush(ViewOf(s), Answer(s), s.me)
  {
    assert Run(s, [], s);
    t := Next(s, s, O(OpLook));
    if s.link.attached {
      t := Next(s, t, O(OpGet));
      if s.entry.registered {
        assert ViewOf(t) == ViewOf(s) && Answer(t) == Answer(s);
        t := DeltaAlone(s, t);
      }
    }
  }

  lemma CloseAlone(s: State) returns (t: State)
    requires AtStart(s) && s.op.closing
    ensures Reaches(s, t) && t.op == Free && ViewOf(t) == AfterClose(ViewOf(s), Answer(s), s.me)
  {
    t := FlushAlone(s);
    var flushed := ViewOf(t);
    t := Next(s, t, O(OpDetach));
    assert ViewOf(t) == AfterDetach(flushed, s.me);
    t := Next(s, t, O(OpClosed));
  }

  /** A detach is one section and leaves nothing of the session on the connection. */
  lemma DetachAlone(s: State)
    requires Enabled(s, R(Detach))
    ensures
      var v := ViewOf(Apply(s, R(Detach)));
      v == AfterDetach(ViewOf(s), s.me) && s.me !in v.attached && s.me !in v.lastOffset && v.box == s.box
  {
    assert ViewOf(Apply(s, R(Detach))).attached == ViewOf(s).attached - {s.me};
    assert ViewOf(Apply(s, R(Detach))).lastOffset == ViewOf(s).lastOffset - {s.me};
  }

  /** So is an attach: the reply's offset is recorded and its frames are offered up to an overflow. */
  lemma AttachAlone(s: State)
    requires Enabled(s, R(RouteAttach))
    ensures
      var v, res := ViewOf(Apply(s, R(RouteAttach))), s.router.reply;
      && v.attached == {s.me} && v.lastOffset == map[s.me := res.offset]
      && v.box == OfferAll(s.box, [AttachReply(s.me), OtherFrame] +
           (if res.data == [] && !res.reset then [] else [Output(s.me, res.data, res.offset, res.reset)]))
  {
  }

  /** The connection's own traffic: the writer takes a frame, another frame is offered, or the channel is shut. */
  lemma TrafficAlone(s: State)
    ensures s.box.queue != [] ==> Apply(s, B(Write)).box.wire == s.box.wire + [s.box.queue[0]]
    ensures Apply(s, B(OfferOther)).box.offered == s.box.offered + [OtherFrame]
    ensures Apply(s, B(ShutConn)).box.closed
  {
  }
}
