/**
 The hub (internal/ws/hub.go): which connections each event of the session manager reaches,
 and what it does to every one of them. Each loop runs over a snapshot of the connection set,
 with the session's entry as it is found throughout the loop.
 */
module Hub {
  import opened Common
  import opened OutputRing
  import opened WsConn

  class Hub {
    var conns: set<Conn>

    ghost predicate Valid()
      reads this, conns
    {
      forall c :: c in conns ==> c.Valid()
    }

    constructor ()
      ensures Valid() && conns == {}
    {
      conns := {};
    }

    method Add(c: Conn)
      requires Valid() && c.Valid()
      modifies this
      ensures Valid() && conns == old(conns) + {c}
    {
      conns := conns + {c};
    }

    method Remove(c: Conn)
      requires Valid()
      modifies this
      ensures Valid() && conns == old(conns) - {c}
    {
      conns := conns - {c};
    }

    /** New output: every attached connection is flushed, and no other is touched. */
    method OnOutput(entry: OutputBuffer?, sid: string)
      requires Valid() && (entry != null ==> entry.Valid())
      modifies conns
      ensures Valid()
      ensures forall c :: c in conns ==> c.Now() == AfterFlush(old(c.Now()), BacklogOf(entry), sid)
      ensures forall c :: c in conns ==> c.attached == old(c.attached) && c.controlled == old(c.controlled)
      ensures forall c :: c in conns && (sid !in c.attached || entry == null) ==> c.Now() == old(c.Now())
    {
      var left := conns;
      while left != {}
        invariant Valid() && left <= conns
        invariant forall c :: c in left ==> c.Now() == old(c.Now())
        invariant forall c :: c in conns - left ==> c.Now() == AfterFlush(old(c.Now()), BacklogOf(entry), sid)
        decreases left
      {
        var c :| c in left;
        left := left - {c};
        if sid in c.attached {
          c.FlushLocked(entry, sid);
        }
      }
      forall c | c in conns { FlushSays(old(c.Now()), BacklogOf(entry), sid); }
    }

    /** A status event: a final one closes the session on every connection; every connection gets a new session list. */
    method OnStatusChange(final: bool, entry: OutputBuffer?, sid: string)
      requires Valid() && (entry != null ==> entry.Valid())
      modifies conns
      ensures Valid()
      ensures forall c :: c in conns ==>
        var v := if final then AfterClose(old(c.Now()), BacklogOf(entry), sid) else old(c.Now());
        c.Now() == v.(box := Offer(v.box, OtherFrame))
      ensures forall c :: c in conns ==> Announced(old(c.Now()), c.Now(), final, sid)
    {
      var left := conns;
      while left != {}
        invariant Valid() && left <= conns
        invariant forall c :: c in left ==> c.Now() == old(c.Now())
        invariant forall c :: c in conns - left ==>
          var v := if final then AfterClose(old(c.Now()), BacklogOf(entry), sid) else old(c.Now());
          c.Now() == v.(box := Offer(v.box, OtherFrame))
        decreases left
      {
        var c :| c in left;
        left := left - {c};
        if final {
          c.CloseSession(entry, sid);
        }
        var _ := c.EnqueueLocked(OtherFrame);
      }
      forall c | c in conns ensures Announced(old(c.Now()), c.Now(), final, sid) {
        AnnouncedSays(old(c.Now()), BacklogOf(entry), final, sid);
      }
    }

    /** Drain, detach and closed frame for one connection, if it is attached. */
    method Drop(c: Conn, entry: OutputBuffer?, sid: string)
      requires c.Valid() && (entry != null ==> entry.Valid())
      modifies c
      ensures c.Valid() && sid !in c.attached && Swept(old(c.Now()), c.Now(), sid)
      ensures
        c.Now() == if sid in old(c.attached) then AfterClose(old(c.Now()), BacklogOf(entry), sid) else old(c.Now())
    {
      CloseSays(c.Now(), BacklogOf(entry), sid);
      if sid in c.attached {
        c.CloseSession(entry, sid);
      }
    }

    /** The session left the registry: whoever is attached even now is closed. */
    method OnRemoved(entry: OutputBuffer?, sid: string)
      requires Valid() && (entry != null ==> entry.Valid())
      modifies conns
      ensures Valid()
      ensures forall c :: c in conns ==> sid !in c.attached && Swept(old(c.Now()), c.Now(), sid)
      ensures forall c :: c in conns ==>
        c.Now() == if sid in old(c.attached) then AfterClose(old(c.Now()), BacklogOf(entry), sid) else old(c.Now())
    {
      var left := conns;
      while left != {}
        invariant Valid() && left <= conns
        invariant forall c :: c in left ==> c.Now() == old(c.Now())
        invariant forall c :: c in conns - left ==> sid !in c.attached && Swept(old(c.Now()), c.Now(), sid)
        invariant forall c :: c in conns - left ==>
          c.Now() == if sid in old(c.attached) then AfterClose(old(c.Now()), BacklogOf(entry), sid) else old(c.Now())
        decreases left
      {
        var c :| c in left;
        left := left - {c};
        Drop(c, entry, sid);
      }
    }
  }

  /**
   A list frame comes last. Before it, on a final status, an attached connection is offered
   the closed frame and has nothing of the session left; otherwise nothing else happens.
   */
  ghost predicate Announced(v: View, t: View, final: bool, sid: string) {
    && t.box.offered != [] && t.box.offered[|t.box.offered| - 1] == OtherFrame
    && (final ==>
          && t.attached == v.attached - {sid} && t.controlled == v.controlled - {sid}
          && t.lastOffset == v.lastOffset - {sid})
    && (final && sid in v.attached ==> |t.box.offered| >= 2 && t.box.offered[|t.box.offered| - 2] == ClosedFrame(sid))
    && (!final ==> t == v.(box := t.box))
    && (!final || sid !in v.attached ==> t.box.offered == v.box.offered + [OtherFrame])
  }

  /** Whoever was attached has nothing of the session left and is offered a closed frame last; others are untouched. */
  ghost predicate Swept(v: View, t: View, sid: string) {
    if sid in v.attached then
      && t.attached == v.attached - {sid} && t.controlled == v.controlled - {sid}
      && t.lastOffset == v.lastOffset - {sid}
      && t.box.offered != [] && t.box.offered[|t.box.offered| - 1] == ClosedFrame(sid)
    else t == v
  }

  lemma AnnouncedSays(v: View, src: Option<Backlog>, final: bool, sid: string)
    ensures
      var u := if final then AfterClose(v, src, sid) else v;
      Announced(v, u.(box := Offer(u.box, OtherFrame)), final, sid)
  {
    FlushSays(v, src, sid);
    CloseSays(v, src, sid);
  }
}
