/**
 The registry object itself (internal/terminal/manager.go): each method is the body of one
 critical section of Manager.mu and is proved to make the corresponding step of Sessions.
 */
module Manager {
  import opened Common
  import opened OutputRing
  import opened Sessions

  class Managed {
    const sessionId: string
    const account: string
    /** The OAuth client that owns an MCP session; none for other sources. */
    const mcpOwner: Option<string>
    const output: OutputBuffer
    var status: Status
    var closeReason: Reason
    var hasTransport: bool
    var hasCancel: bool
    ghost var trace: seq<Event>

    ghost function Life(): Life
      reads this
    {
      Sessions.Life(status, closeReason, trace)
    }

    constructor (id: string, account: string, owner: Option<string>, maxBuffer: int)
      ensures sessionId == id && this.account == account && mcpOwner == owner
      ensures Life() == Fresh(account).life && !hasTransport && hasCancel
      ensures fresh(output) && output.Valid() && output.stream == []
    {
      sessionId, this.account, mcpOwner := id, account, owner;
      output := new OutputBuffer(maxBuffer);
      status, closeReason, hasTransport, hasCancel, trace := Opening, "", false, true, [];
    }
  }

  class Registry {
    var destroyed: bool
    var terminals: map<string, Managed>

    /** Entries are filed under their own id and own distinct buffers. */
    ghost predicate Valid()
      reads this, terminals.Values, set id | id in terminals :: terminals[id].output
    {
      && (forall id :: id in terminals ==> terminals[id].sessionId == id && terminals[id].output.Valid())
      && (forall a, b :: a in terminals && b in terminals && a != b ==> terminals[a].output != terminals[b].output)
    }

    constructor ()
      ensures !destroyed && terminals == map[]
    {
      destroyed, terminals := false, map[];
    }

    /** Create's registration: refused once the flag is up, so no session follows a Destroy. */
    method Register(mg: Managed) returns (ok: bool)
      requires Valid() && mg.sessionId !in terminals && mg.output.Valid()
      requires forall id :: id in terminals ==> terminals[id].output != mg.output
      modifies this
      ensures Valid()
      ensures ok <==> !old(destroyed)
      ensures destroyed == old(destroyed)
      ensures terminals == if ok then old(terminals)[mg.sessionId := mg] else old(terminals)
    {
      if destroyed { return false; }
      terminals := terminals[mg.sessionId := mg];
      return true;
    }

    /** Create's adopt section: true when a Close moved the session first. */
    method Adopt(mg: Managed, connected: bool) returns (aborted: bool)
      modifies mg`hasTransport, mg`hasCancel
      ensures aborted <==> mg.status != Opening
      ensures !mg.hasCancel
      ensures mg.hasTransport <==> old(mg.hasTransport) || (connected && !aborted)
    {
      mg.hasCancel := false;
      aborted := mg.status != Opening;
      if connected && !aborted {
        mg.hasTransport := true;
      }
    }

    /** The transition and the event owed to the status hooks; none when it was absorbed. */
    method SetStatus(mg: Managed, status: Status, reason: Reason) returns (ev: Option<Event>)
      modifies mg`status, mg`closeReason, mg`trace
      ensures mg.Life() == Sessions.SetStatus(old(mg.Life()), status, reason)
      ensures mg.trace == old(mg.trace) + (if ev.Some? then [ev.value] else [])
      ensures ev.None? <==>
        || old(mg.status) == status || old(mg.status) == Closed || old(mg.status) == Error
        || (old(mg.status) == Closing && status == Open)
      ensures ev.None? ==> mg.status == old(mg.status) && mg.closeReason == old(mg.closeReason)
      ensures ev.Some? ==>
        && mg.status == status && ev.value == Event(status, old(mg.status), mg.closeReason)
        && mg.closeReason == if old(mg.closeReason) != "" then old(mg.closeReason) else reason
    {
      var prev := mg.status;
      if prev == status || prev == Closed || prev == Error || (prev == Closing && status == Open) {
        return None;
      }
      mg.status := status;
      if reason != "" && mg.closeReason == "" { mg.closeReason := reason; }
      ev := Some(Event(status, prev, mg.closeReason));
      mg.trace := mg.trace + [ev.value];
    }

    /** The guard and the closing transition in one section. */
    method BeginClosing(mg: Managed, reason: Reason) returns (ev: Option<Event>)
      modifies mg`status, mg`closeReason, mg`trace
      ensures mg.Life() == Sessions.BeginClosing(old(mg.Life()), reason)
      ensures ev.Some? <==> old(mg.status) != Closed && old(mg.status) != Closing
      ensures mg.trace == old(mg.trace) + (if ev.Some? then [ev.value] else [])
      ensures ev.None? ==> mg.status == old(mg.status) && mg.closeReason == old(mg.closeReason)
      ensures ev.Some? ==>
        && mg.status == Closing && ev.value == Event(Closing, old(mg.status), mg.closeReason)
        && mg.closeReason == if old(mg.closeReason) != "" then old(mg.closeReason) else reason
    {
      var prev := mg.status;
      if prev == Closed || prev == Closing { return None; }
      mg.status := Closing;
      if reason != "" && mg.closeReason == "" { mg.closeReason := reason; }
      ev := Some(Event(Closing, prev, mg.closeReason));
      mg.trace := mg.trace + [ev.value];
    }

    /** Clears and deletes in one section; true when this call performed the delete and so owes the hooks. */
    method RemoveEntry(sid: string) returns (removed: bool)
      requires Valid()
      modifies this`terminals, set id | id in terminals :: terminals[id].output
      ensures Valid()
      ensures removed <==> sid in old(terminals)
      ensures terminals == old(terminals) - {sid}
      ensures removed ==> old(terminals[sid]).output.stream == []
      ensures forall id :: id in terminals ==> unchanged(terminals[id].output)
    {
      removed := sid in terminals;
      if removed {
        terminals[sid].output.Clear();
        terminals := terminals - {sid};
      }
    }

    /** Drops an account's closed and errored sessions, each with its output. */
    method RemoveForAccount(account: string) returns (ids: set<string>)
      requires Valid()
      modifies this`terminals, set id | id in terminals :: terminals[id].output
      ensures Valid()
      ensures ids <= old(terminals).Keys
      ensures forall id :: id in old(terminals) ==>
        var mg := old(terminals)[id];
        id in ids <==> mg.account == account && (mg.status == Closed || mg.status == Error)
      ensures terminals == old(terminals) - ids
      ensures forall id :: id in ids ==> old(terminals)[id].output.stream == []
      ensures forall id :: id in terminals ==> unchanged(terminals[id].output)
    {
      ids := {};
      ghost var was := terminals;
      var todo := terminals.Keys;
      while todo != {}
        invariant Valid() && todo <= terminals.Keys && ids <= was.Keys - todo
        invariant forall id :: id in was && id !in todo ==>
          (id in ids <==> Purged(was[id].account, was[id].status, account))
        invariant terminals == was - ids
        invariant forall id :: id in ids ==> was[id].output.stream == []
        invariant forall id :: id in terminals ==> unchanged(terminals[id].output)
        decreases todo
      {
        var id :| id in todo;
        todo := todo - {id};
        if terminals[id].account == account && PostMortem(terminals[id].status) {
          var _ := RemoveEntry(id);
          ids := ids + {id};
        }
      }
    }

    /**
     Consent revocation's snapshot: the account's unfinished MCP sessions of one client, or of all
     when none is named.
     */
    method SessionsOfClient(account: string, client: string) returns (ids: set<string>)
      ensures ids <= terminals.Keys
      ensures forall id :: id in terminals ==>
        var mg := terminals[id];
        id in ids <==>
          && mg.account == account && mg.status != Closed && mg.mcpOwner.Some?
          && (client == "" || mg.mcpOwner.value == client)
    {
      ids := {};
      var todo := terminals.Keys;
      while todo != {}
        invariant todo <= terminals.Keys
        invariant ids == set id | id in terminals && id !in todo &&
          OwnedBy(terminals[id].account, terminals[id].mcpOwner, account, client) && terminals[id].status != Closed
        decreases |todo|
      {
        var id :| id in todo;
        todo := todo - {id};
        var mg := terminals[id];
        if mg.account == account && mg.mcpOwner.Some? && mg.status != Closed
           && (client == "" || mg.mcpOwner.value == client)
        {
          ids := ids + {id};
        }
      }
    }

    /** Destroy's section: the flag and the snapshot are taken together. */
    method Destroy() returns (ids: set<string>)
      modifies this`destroyed
      ensures destroyed && ids == terminals.Keys
    {
      destroyed := true;
      ids := terminals.Keys;
    }
  }

  predicate Purged(owner: string, st: Status, account: string) { owner == account && PostMortem(st) }

  predicate PostMortem(st: Status) { st == Closed || st == Error }

  predicate OwnedBy(sessionAccount: string, owner: Option<string>, account: string, client: string) {
    sessionAccount == account && owner.Some? && (client != "" ==> owner.value == client)
  }
}
