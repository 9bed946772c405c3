/**
 One browser connection (internal/ws/conn.go): per-session attach state, the last offset
 sent for each attached session, and a bounded outbound queue drained by one writer.
 */
module WsConn {
  import opened Common
  import opened OutputRing

  const OUT_CAPACITY: nat := 256

  datatype Frame =
    | AttachReply(sid: string)
    | Output(sid: string, data: seq<Byte>, offset: int, reset: bool)
    | ClosedFrame(sid: string)
    | OtherFrame

  /**
   The outbound side. `queue` is the buffered channel and `closed` its flag; `wire` is what
   the writer has taken, `offered` every frame handed to enqueueLocked, and `closes` how
   often the channel was closed.
   */
  datatype Outbound = Outbound(queue: seq<Frame>, closed: bool, wire: seq<Frame>, offered: seq<Frame>, closes: nat) {

    /** What the client has received or will receive, in order. */
    function Accepted(): seq<Frame> { wire + queue }

    ghost predicate Ok() {
      && |queue| <= OUT_CAPACITY
      && Accepted() <= offered
      && (!closed ==> Accepted() == offered)
      && closes == (if closed then 1 else 0)
    }
  }

  const FRESH: Outbound := Outbound([], false, [], [], 0)

  predicate Fits(o: Outbound) { !o.closed && |o.queue| < OUT_CAPACITY }

  /** enqueueLocked: drop silently once closed, close the channel on overflow. */
  function Offer(o: Outbound, f: Frame): Outbound {
    if o.closed then o.(offered := o.offered + [f])
    else if |o.queue| < OUT_CAPACITY then o.(queue := o.queue + [f], offered := o.offered + [f])
    else o.(closed := true, closes := o.closes + 1, offered := o.offered + [f])
  }

  /** The catch-up loop of attachWithCatchUp: stops at the frame that overflows. */
  function OfferAll(o: Outbound, fs: seq<Frame>): Outbound
    decreases |fs|
  {
    if fs == [] then o
    else
      var o1 := Offer(o, fs[0]);
      if o1.closed && !o.closed then o1 else OfferAll(o1, fs[1..])
  }

  /** close(): releases the writer, once. */
  function Shut(o: Outbound): Outbound {
    if o.closed then o else o.(closed := true, closes := o.closes + 1)
  }

  /** The writer takes the oldest queued frame. */
  function WriteOne(o: Outbound): Outbound
    requires o.queue != []
  {
    o.(queue := o.queue[1..], wire := o.wire + [o.queue[0]])
  }

  lemma OfferOk(o: Outbound, f: Frame)
    requires o.Ok()
    ensures Offer(o, f).Ok()
    ensures Offer(o, f).Accepted() == if Fits(o) then o.Accepted() + [f] else o.Accepted()
    ensures o.Accepted() <= Offer(o, f).Accepted()
  {
    assert Fits(o) ==> o.wire + (o.queue + [f]) == (o.wire + o.queue) + [f];
  }

  lemma WriteOneOk(o: Outbound)
    requires o.Ok() && o.queue != []
    ensures WriteOne(o).Ok() && WriteOne(o).Accepted() == o.Accepted() && |WriteOne(o).wire| == |o.wire| + 1
  {
    assert (o.wire + [o.queue[0]]) + o.queue[1..] == o.wire + o.queue;
  }

  lemma {:induction false} OfferAllOk(o: Outbound, fs: seq<Frame>)
    requires o.Ok()
    ensures OfferAll(o, fs).Ok()
    ensures o.Accepted() <= OfferAll(o, fs).Accepted() <= o.Accepted() + fs
    ensures o.offered <= OfferAll(o, fs).offered <= o.offered + fs
    ensures o.closed ==> OfferAll(o, fs).closed && OfferAll(o, fs).Accepted() == o.Accepted()
    ensures !OfferAll(o, fs).closed ==> OfferAll(o, fs).Accepted() == o.Accepted() + fs
    ensures OfferAll(o, fs).closed && !o.closed ==> |OfferAll(o, fs).Accepted()| < |o.Accepted()| + |fs|
    ensures fs != [] ==> |OfferAll(o, fs).offered| > |o.offered|
    ensures fs != [] && Fits(o) ==> |OfferAll(o, fs).Accepted()| > |o.Accepted()|
    ensures !Fits(o) ==> OfferAll(o, fs).Accepted() == o.Accepted()
    decreases |fs|
  {
    if fs != [] {
      OfferOk(o, fs[0]);
      var o1 := Offer(o, fs[0]);
      assert [fs[0]] + fs[1..] == fs;
      assert o.Accepted() + [fs[0]] + fs[1..] == o.Accepted() + fs;
      assert o.offered + [fs[0]] + fs[1..] == o.offered + fs;
      if !(o1.closed && !o.closed) {
        OfferAllOk(o1, fs[1..]);
      }
    }
  }

  /** A burst that does not fit fills the queue, closes the channel with its next frame and goes no further. */
  lemma {:induction false} OverflowCuts(o: Outbound, fs: seq<Frame>)
    requires !o.closed && |o.queue| <= 256 < |o.queue| + |fs|
    ensures
      var t, n := OfferAll(o, fs), 256 - |o.queue|;
      && t.closed && t.closes == o.closes + 1 && t.wire == o.wire
      && t.queue == o.queue + fs[..n] && t.offered == o.offered + fs[..n + 1]
    decreases |fs|
  {
    if |o.queue| < 256 {
      OverflowCuts(Offer(o, fs[0]), fs[1..]);
      var n := 256 - |o.queue|;
      assert fs[..n] == [fs[0]] + fs[1..][..n - 1] && fs[..n + 1] == [fs[0]] + fs[1..][..n];
    } else {
      assert o.queue + fs[..0] == o.queue && fs[..1] == [fs[0]];
    }
  }

  /** On a closed channel a burst is dropped whole. */
  lemma {:induction false} ClosedDropsAll(o: Outbound, fs: seq<Frame>)
    requires o.closed
    ensures OfferAll(o, fs) == o.(offered := o.offered + fs)
    decreases |fs|
  {
    if fs == [] {
      assert o.offered + fs == o.offered;
    } else {
      ClosedDropsAll(Offer(o, fs[0]), fs[1..]);
      assert (o.offered + [fs[0]]) + fs[1..] == o.offered + fs;
    }
  }

  /** A burst that fits the queue is queued whole. */
  lemma {:induction false} RoomForAll(o: Outbound, fs: seq<Frame>)
    requires !o.closed && |o.queue| + |fs| <= OUT_CAPACITY
    ensures OfferAll(o, fs) == o.(queue := o.queue + fs, offered := o.offered + fs)
    decreases |fs|
  {
    if fs == [] {
      assert o.queue + fs == o.queue && o.offered + fs == o.offered;
    } else {
      RoomForAll(Offer(o, fs[0]), fs[1..]);
      assert (o.queue + [fs[0]]) + fs[1..] == o.queue + fs && (o.offered + [fs[0]]) + fs[1..] == o.offered + fs;
    }
  }

  /** What one frame does to the text a client holds for `me`: output is appended, a reset or an attach replaces. */
  function Receive(text: seq<Byte>, f: Frame, me: string): seq<Byte> {
    match f
    case AttachReply(sid) => if sid == me then [] else text
    case Output(sid, data, _, reset) => if sid != me then text else if reset then data else text + data
    case _ => text
  }

  /** The text a client holds for session `me` after the frames `fs`. */
  function Text(fs: seq<Frame>, me: string): seq<Byte>
    decreases |fs|
  {
    if fs == [] then [] else Receive(Text(fs[..|fs| - 1], me), fs[|fs| - 1], me)
  }

  /** An attach reply for `me` has been seen since the last closed frame for it. */
  predicate Live(fs: seq<Frame>, me: string)
    decreases |fs|
  {
    fs != [] &&
    match fs[|fs| - 1]
    case AttachReply(sid) => sid == me || Live(fs[..|fs| - 1], me)
    case ClosedFrame(sid) => sid != me && Live(fs[..|fs| - 1], me)
    case _ => Live(fs[..|fs| - 1], me)
  }

  /** Every output and every closed frame for `me` belongs to an attach not yet closed. */
  predicate Ordered(fs: seq<Frame>, me: string)
    decreases |fs|
  {
    fs != [] ==>
      && Ordered(fs[..|fs| - 1], me)
      && match fs[|fs| - 1]
        case Output(sid, _, _, _) => sid == me ==> Live(fs[..|fs| - 1], me)
        case ClosedFrame(sid) => sid == me ==> Live(fs[..|fs| - 1], me)
        case _ => true
  }

  /** One more frame: what it does to the text, to the attach state and to the order. */
  lemma Snoc(fs: seq<Frame>, f: Frame, me: string)
    ensures Text(fs + [f], me) == Receive(Text(fs, me), f, me)
    ensures Live(fs + [f], me) <==> f == AttachReply(me) || (Live(fs, me) && f != ClosedFrame(me))
    ensures Ordered(fs + [f], me) <==>
      Ordered(fs, me) && (f == ClosedFrame(me) || (f.Output? && f.sid == me) ==> Live(fs, me))
  {
    assert (fs + [f])[..|fs + [f]| - 1] == fs;
  }

  /** Ordered read off the positions: between a closed frame and the next output or closed frame lies a new attach. */
  lemma {:induction false} OrderedMeans(fs: seq<Frame>, me: string, i: nat, j: nat)
    requires Ordered(fs, me) && i < j < |fs|
    requires fs[i] == ClosedFrame(me)
    requires fs[j] == ClosedFrame(me) || (fs[j].Output? && fs[j].sid == me)
    ensures exists k :: i < k < j && fs[k] == AttachReply(me)
    decreases |fs|
  {
    var init := fs[..|fs| - 1];
    if j < |fs| - 1 {
      OrderedMeans(init, me, i, j);
      var k :| i < k < j && init[k] == AttachReply(me);
      assert fs[k] == AttachReply(me);
    } else {
      assert init[i] == ClosedFrame(me);
      var k := LastAttach(init, me);
      assert fs[k] == AttachReply(me);
    }
  }

  lemma {:induction false} LastAttach(fs: seq<Frame>, me: string) returns (k: nat)
    requires Live(fs, me)
    ensures k < |fs| && fs[k] == AttachReply(me)
    ensures forall i :: k < i < |fs| ==> fs[i] != ClosedFrame(me)
    decreases |fs|
  {
    var n := |fs| - 1;
    if fs[n] == AttachReply(me) {
      k := n;
    } else {
      k := LastAttach(fs[..n], me);
      forall i | k < i < |fs| ensures fs[i] != ClosedFrame(me) {
        if i < n { assert fs[..n][i] == fs[i]; }
      }
    }
  }

  /** Ordered is kept by prefixes, so it holds of what was accepted as well as of what was offered. */
  lemma {:induction false} OrderedPrefix(fs: seq<Frame>, gs: seq<Frame>, me: string)
    requires Ordered(gs, me) && fs <= gs
    ensures Ordered(fs, me)
    decreases |gs|
  {
    if |fs| < |gs| {
      assert fs <= gs[..|gs| - 1];
      OrderedPrefix(fs, gs[..|gs| - 1], me);
    } else {
      assert fs == gs;
    }
  }

  /** A connection's per-session state and its outbound side. */
  datatype View = View(attached: set<string>, controlled: set<string>, lastOffset: map<string, int>, box: Outbound)

  /** What the registry answers for a session: its whole output and how much of it the buffer keeps. */
  datatype Backlog = Backlog(stream: seq<Byte>, max: nat)

  /** flushOutput: the bytes past the recorded offset go out in one frame. */
  function AfterFlush(v: View, src: Option<Backlog>, sid: string): View {
    if sid !in v.attached || src.None? || sid !in v.lastOffset then v
    else
      var d := DeltaOf(src.value.stream, src.value.max, Some(v.lastOffset[sid]));
      if d.data == [] && !d.reset then v
      else v.(lastOffset := v.lastOffset[sid := d.offset], box := Offer(v.box, Output(sid, d.data, d.offset, d.reset)))
  }

  function AfterDetach(v: View, sid: string): View {
    v.(attached := v.attached - {sid}, controlled := v.controlled - {sid}, lastOffset := v.lastOffset - {sid})
  }

  /** closeSession: drain, detach, and a closed frame if the session was attached. */
  function AfterClose(v: View, src: Option<Backlog>, sid: string): View {
    var u := AfterDetach(AfterFlush(v, src, sid), sid);
    if sid in v.attached then u.(box := Offer(u.box, ClosedFrame(sid))) else u
  }

  /** Field by field: what a flush leaves, and the one frame it offers if anything lies past the recorded offset. */
  lemma FlushSays(v: View, src: Option<Backlog>, sid: string)
    ensures
      var t := AfterFlush(v, src, sid);
      && t.attached == v.attached && t.controlled == v.controlled
      && (if sid !in v.attached || src.None? || sid !in v.lastOffset then t == v
          else
            var d := DeltaOf(src.value.stream, src.value.max, Some(v.lastOffset[sid]));
            if d.data == [] && !d.reset then t == v
            else
              && t.lastOffset == v.lastOffset[sid := d.offset]
              && t.box.offered == v.box.offered + [Output(sid, d.data, d.offset, d.reset)])
  {
  }

  /** Field by field: a close leaves nothing of the session and offers the flush's frames and then a closed frame. */
  lemma CloseSays(v: View, src: Option<Backlog>, sid: string)
    ensures
      var t := AfterClose(v, src, sid);
      && t.attached == v.attached - {sid} && t.controlled == v.controlled - {sid}
      && t.lastOffset == v.lastOffset - {sid}
      && t.box.offered ==
           AfterFlush(v, src, sid).box.offered + (if sid in v.attached then [ClosedFrame(sid)] else [])
  {
    FlushSays(v, src, sid);
    assert AfterFlush(v, src, sid).lastOffset - {sid} == v.lastOffset - {sid};
  }

  /** A second close offers no second closed frame, whatever the registry then answers. */
  lemma CloseTwice(v: View, src: Option<Backlog>, later: Option<Backlog>, sid: string)
    ensures AfterClose(AfterClose(v, src, sid), later, sid) == AfterClose(v, src, sid)
  {
    var u := AfterClose(v, src, sid);
    assert u.attached - {sid} == u.attached && u.controlled - {sid} == u.controlled &&
        u.lastOffset - {sid} == u.lastOffset;
  }

  ghost function BacklogOf(entry: OutputBuffer?): Option<Backlog>
    reads entry
  {
    if entry == null then None else Some(Backlog(entry.stream, entry.maxSize))
  }

  class Conn {
    var attached: set<string>
    var controlled: set<string>
    var lastOffset: map<string, int>
    var out: seq<Frame>
    var closed: bool
    ghost var wire: seq<Frame>
    ghost var offered: seq<Frame>
    ghost var closes: nat

    ghost function Box(): Outbound
      reads this
    {
      Outbound(out, closed, wire, offered, closes)
    }

    ghost function Now(): View
      reads this
    {
      View(attached, controlled, lastOffset, Box())
    }

    /** An attached session always has a recorded offset, and only attached ones do. */
    ghost predicate Valid()
      reads this
    {
      Box().Ok() && lastOffset.Keys == attached
    }

    constructor ()
      ensures Valid() && attached == {} && controlled == {} && Box() == FRESH
    {
      attached, controlled, lastOffset := {}, {}, map[];
      out, closed := [], false;
      wire, offered, closes := [], [], 0;
    }

    /** False exactly when this frame overflowed the queue and so closed the channel. */
    method EnqueueLocked(raw: Frame) returns (ok: bool)
      requires Valid()
      modifies this`out, this`closed, this`offered, this`closes
      ensures Valid() && Box() == Offer(old(Box()), raw) && offered == old(offered) + [raw]
      ensures ok <==> closed == old(closed)
      ensures
        if old(closed) then closed && out == old(out) && closes == old(closes)
        else if |old(out)| < 256 then !closed && out == old(out) + [raw] && closes == old(closes)
        else closed && out == old(out) && closes == old(closes) + 1
    {
      OfferOk(Box(), raw);
      offered := offered + [raw];
      if closed { return true; }
      if |out| < OUT_CAPACITY {
        out := out + [raw];
        return true;
      }
      closed, closes := true, closes + 1;
      return false;
    }

    method Close()
      requires Valid()
      modifies this`closed, this`closes
      ensures Valid() && Box() == Shut(old(Box())) && closed
      ensures closes == old(closes) + (if old(closed) then 0 else 1)
    {
      if !closed {
        closed, closes := true, closes + 1;
      }
    }

    method AttachWithCatchUp(sid: string, control: bool, offset: int, frames: seq<Frame>)
      requires Valid()
      modifies this
      ensures Valid()
      ensures attached == old(attached) + {sid}
      ensures controlled == if control then old(controlled) + {sid} else old(controlled)
      ensures lastOffset == old(lastOffset)[sid := offset]
      ensures Box() == OfferAll(old(Box()), frames)
      ensures
        if old(closed) then closed && out == old(out)
        else if |old(out)| + |frames| <= 256 then !closed && out == old(out) + frames
        else closed && out == old(out) + frames[..256 - |old(out)|]
    {
      if closed {
        ClosedDropsAll(Box(), frames);
      } else if |out| + |frames| <= 256 {
        RoomForAll(Box(), frames);
      } else {
        OverflowCuts(Box(), frames);
      }
      attached := attached + {sid};
      if control { controlled := controlled + {sid}; }
      lastOffset := lastOffset[sid := offset];
      var i := 0;
      while i < |frames|
        invariant 0 <= i <= |frames|
        invariant Valid()
        invariant attached == old(attached) + {sid}
        invariant controlled == if control then old(controlled) + {sid} else old(controlled)
        invariant lastOffset == old(lastOffset)[sid := offset]
        invariant OfferAll(Box(), frames[i..]) == OfferAll(old(Box()), frames)
      {
        assert frames[i..] != [] && frames[i..][1..] == frames[i + 1..];
        var ok := EnqueueLocked(frames[i]);
        if !ok { return; }
        i := i + 1;
      }
    }

    method DetachLocked(sid: string) returns (was: bool)
      requires Valid()
      modifies this`attached, this`controlled, this`lastOffset
      ensures Valid() && was == (sid in old(attached)) && Now() == AfterDetach(old(Now()), sid)
      ensures attached == old(attached) - {sid} && controlled == old(controlled) - {sid}
      ensures lastOffset == old(lastOffset) - {sid}
    {
      was := sid in attached;
      attached, controlled, lastOffset := attached - {sid}, controlled - {sid}, lastOffset - {sid};
    }

    /**
     `entry` is what the lookup found, as it is when it is read: the session's buffer, none
     once the session was removed, or a cleared buffer when the removal came in between.
     */
    method FlushLocked(entry: OutputBuffer?, sid: string)
      requires Valid() && (entry != null ==> entry.Valid())
      modifies this
      ensures Valid() && Now() == AfterFlush(old(Now()), BacklogOf(entry), sid)
      ensures attached == old(attached) && controlled == old(controlled)
      ensures sid !in attached || entry == null ==> Now() == old(Now())
      ensures sid in attached && entry != null ==>
        var d := DeltaOf(entry.stream, entry.maxSize, Some(old(lastOffset)[sid]));
        && lastOffset == old(lastOffset)[sid := d.offset]
        && offered == old(offered) + (if d.data == [] && !d.reset then [] else [Output(sid, d.data, d.offset, d.reset)])
    {
      if sid !in attached || entry == null { return; }
      var last := lastOffset[sid];
      var res := entry.ReadFrom(Some(last));
      if |res.data| == 0 && !res.reset {
        assert lastOffset == lastOffset[sid := res.offset];
        return;
      }
      lastOffset := lastOffset[sid := res.offset];
      var _ := EnqueueLocked(Output(sid, res.data, res.offset, res.reset));
    }

    /** Drains, detaches and sends terminal:closed; nothing at all when the session is not attached. */
    method CloseSession(entry: OutputBuffer?, sid: string)
      requires Valid() && (entry != null ==> entry.Valid())
      modifies this
      ensures Valid() && Now() == AfterClose(old(Now()), BacklogOf(entry), sid)
      ensures attached == old(attached) - {sid} && controlled == old(controlled) - {sid}
      ensures lastOffset == old(lastOffset) - {sid}
      ensures sid !in old(attached) ==> Box() == old(Box())
      ensures sid in old(attached) ==> offered != [] && offered[|offered| - 1] == ClosedFrame(sid)
      ensures sid in old(attached) && entry == null ==> offered == old(offered) + [ClosedFrame(sid)]
      ensures sid in old(attached) && entry != null ==>
        var d := DeltaOf(entry.stream, entry.maxSize, Some(old(lastOffset)[sid]));
        offered == old(offered)
          + (if d.data == [] && !d.reset then [] else [Output(sid, d.data, d.offset, d.reset)]) + [ClosedFrame(sid)]
    {
      FlushLocked(entry, sid);
      var was := DetachLocked(sid);
      if was {
        var _ := EnqueueLocked(ClosedFrame(sid));
      }
    }
  }
}
