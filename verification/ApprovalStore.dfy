/**
 The pending-action store object (internal/approval/store.go). Each method is the locked
 part of the operation; the callbacks and events it owes are its results.
 */
module ApprovalStore {
  import opened Common
  import opened Approvals

  class PendingAction {
    const id: string
    const account: string
    const kind: Kind
    const expiresAt: int
    const connection: string
    var status: Status

    constructor (id: string, account: string, kind: Kind, connection: string, now: int)
      ensures this.id == id && status == Pending && expiresAt == now + 60_000
      ensures this.account == account && this.kind == kind && this.connection == connection
    {
      this.id, this.account, this.kind, this.connection := id, account, kind, connection;
      expiresAt, status := now + ACTION_TTL, Pending;
    }

    /** The action as the step model knows it. */
    ghost function Value(): Action
      reads this
    {
      Action(account, kind, status, expiresAt, connection, true)
    }
  }

  class Store {
    var actions: map<string, PendingAction>

    ghost predicate Valid()
      reads this
    {
      forall id :: id in actions ==> actions[id].id == id
    }

    constructor ()
      ensures Valid() && actions == map[]
    {
      actions := map[];
    }

    method Create(id: string, account: string, kind: Kind, connection: string, now: int) returns (a: PendingAction)
      requires Valid() && id !in actions
      modifies this
      ensures Valid() && fresh(a) && a.id == id && a.status == Pending && a.expiresAt == now + 60_000
      ensures a.account == account && a.kind == kind && a.connection == connection
      ensures actions == old(actions)[id := a]
    {
      a := new PendingAction(id, account, kind, connection, now);
      actions := actions[id := a];
    }

    /**
     The atomic claim. `claimed` is the action this call won; `late` is one whose deadline
     had passed, which this call expires itself. At most one of them is set, and only then
     did anything change.
     */
    method TakePending(id: string, kind: Option<Kind>, to: Outcome, now: int)
      returns (claimed: PendingAction?, late: PendingAction?, res: ClaimResult)
      requires Valid() && (to == Approved || to == Refused)
      modifies actions.Values
      ensures Valid()
      ensures
        if id !in actions || (kind.Some? && actions[id].kind != kind.value) then
          claimed == null && late == null && res == ClaimResult(false, false, Pending) && unchanged(actions.Values)
        else
          var a := actions[id];
          match TakeOutcome(old(a.Value()), to, now)
          case None =>
            claimed == null && late == null && res == ClaimResult(false, true, a.status) && unchanged(a)
          case Some(o) =>
            && a.Value() == old(a.Value()).(status := StatusFor(o))
            && (if o == TimedOut then claimed == null && late == a && res == ClaimResult(false, true, Expired)
                else claimed == a && late == null && res == ClaimResult(true, true, StatusFor(to)))
      ensures res.won ==>
        && id in actions && claimed == actions[id] && old(actions[id].status) == Pending && now < actions[id].expiresAt
        && actions[id].status == (if to == Approved then Completed else Denied)
        && res.found && res.status == actions[id].status
      ensures late != null ==>
        && id in actions && late == actions[id] && old(actions[id].status) == Pending && actions[id].expiresAt <= now
        && actions[id].status == Expired && res == ClaimResult(false, true, Expired)
      ensures id in actions && (kind.Some? ==> actions[id].kind == kind.value) && old(actions[id].status) == Pending ==>
        res.won || late != null
      ensures forall other :: other in actions && other != id ==> unchanged(actions[other])
    {
      if id !in actions || (kind.Some? && actions[id].kind != kind.value) {
        return null, null, ClaimResult(false, false, Pending);
      }
      var a := actions[id];
      if a.status == Pending && a.expiresAt <= now {
        a.status := Expired;
        return null, a, ClaimResult(false, true, Expired);
      }
      if a.status != Pending {
        return null, null, ClaimResult(false, true, a.status);
      }
      a.status := StatusFor(to);
      return a, null, ClaimResult(true, true, StatusFor(to));
    }

    /** Denies every pending action of a dead connection and returns exactly those. */
    method CancelForConnection(connection: string) returns (cancelled: set<PendingAction>)
      requires Valid()
      modifies actions.Values
      ensures Valid()
      ensures cancelled <= actions.Values
      ensures forall id :: id in actions ==>
        var a := actions[id];
        && (a in cancelled <==> old(a.status) == Pending && a.connection == connection)
        && a.status == if a in cancelled then Denied else old(a.status)
    {
      cancelled := {};
      var todo := actions.Keys;
      while todo != {}
        invariant todo <= actions.Keys && cancelled <= actions.Values
        invariant forall id :: id in actions ==>
          if id in todo then actions[id].status == old(actions[id].status) && actions[id] !in cancelled
          else
            && (actions[id] in cancelled <==>
                  old(actions[id].status) == Pending && actions[id].connection == connection)
            && actions[id].status == if actions[id] in cancelled then Denied else old(actions[id].status)
        decreases todo
      {
        var id :| id in todo;
        todo := todo - {id};
        var a := actions[id];
        if a.status == Pending && a.connection == connection {
          a.status := Denied;
          cancelled := cancelled + {a};
        }
      }
    }

    /**
     Expires what is overdue and deletes what is terminal and past its grace window, in one
     pass: an action overdue by more than the grace window is expired and deleted by the
     same sweep, and is still among the results.
     */
    method Sweep(now: int) returns (expired: set<PendingAction>)
      requires Valid()
      modifies this, actions.Values
      ensures Valid()
      ensures expired <= old(actions.Values)
      ensures forall id :: id in old(actions) ==>
        var a := old(actions)[id];
        && (a in expired <==> old(a.status) == Pending && a.expiresAt <= now)
        && a.status == (if a in expired then Expired else old(a.status))
        && (id in actions <==> a.status == Pending || now - a.expiresAt <= 120_000)
      ensures actions.Keys <= old(actions).Keys && forall id :: id in actions ==> actions[id] == old(actions)[id]
    {
      expired := {};
      ghost var was := actions;
      var todo := actions.Keys;
      while todo != {}
        invariant todo <= actions.Keys <= was.Keys && expired <= was.Values
        invariant forall id :: id in actions ==> actions[id] == was[id]
        invariant forall id :: id in was ==>
          if id in todo then was[id].status == old(was[id].status) && was[id] !in expired
          else Swept(was[id], old(was[id].status), was[id] in expired, id in actions, now)
        decreases todo
      {
        var id :| id in todo;
        todo := todo - {id};
        var a := actions[id];
        if a.status == Pending && a.expiresAt <= now {
          a.status := Expired;
          expired := expired + {a};
        }
        if a.status != Pending && now - a.expiresAt > CLEANUP_GRACE {
          actions := actions - {id};
        }
      }
    }
  }

  ghost predicate Swept(a: PendingAction, before: Status, isExpired: bool, kept: bool, now: int)
    reads a
  {
    && (isExpired <==> before == Pending && a.expiresAt <= now)
    && a.status == (if isExpired then Expired else before)
    && (kept <==> a.status == Pending || now - a.expiresAt <= CLEANUP_GRACE)
  }
}
