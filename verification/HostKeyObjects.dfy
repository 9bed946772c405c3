/**
 The objects of host-key pinning: a connection's HostKeyState with its verification
 callback (internal/sshx/hostkey.go) and the endpoints table (internal/store/endpoints.go).
 */
module HostKeyObjects {
  import opened Common
  import opened HostKeys

  class HostKeyState {
    var status: KeyStatus
    var observed: Key
    var pinned: bool
    var dial: Address

    ghost function Value(): HostState
      reads this
    {
      HostState(status, observed, pinned)
    }

    constructor (dial: Address)
      ensures Value() == HostState(Unseen, "", false) && this.dial == dial
    {
      status, observed, pinned, this.dial := Unseen, "", false, dial;
    }

    /** The callback of one key exchange; false aborts the handshake. */
    method Verify(pin: Option<Pin>, key: Key) returns (ok: bool)
      modifies this`status, this`observed
      ensures (Value(), ok) == HostKeys.Verify(old(Value()), pin, key)
      ensures old(status) != Unseen ==>
        (ok <==> key == old(observed)) && status == old(status) && observed == old(observed)
      ensures old(status) == Unseen && pin.None? ==> ok && status == New && observed == key
      ensures old(status) == Unseen && pin.Some? && pin.value.key.Some? ==> (ok <==> key == pin.value.key.value)
      ensures old(status) == Unseen && pin.Some? && pin.value.key.None? ==> (ok <==> pin.value.fp == Sha256(key))
      ensures old(status) == Unseen && pin.Some? ==>
        if ok then status == Known && observed == key else status == Unseen && observed == old(observed)
    {
      if status != Unseen {
        return observed == key;
      }
      if pin.None? {
        status, observed := New, key;
        return true;
      }
      var match_ := pin.value.fp == Sha256(key);
      if pin.value.key.Some? {
        match_ := pin.value.key.value == key;
      }
      if !match_ {
        return false;
      }
      status, observed := Known, key;
      return true;
    }

    method MarkPinned()
      modifies this`pinned
      ensures pinned && Value() == old(Value()).(pinned := true)
    {
      pinned := true;
    }

    /** The fail-closed check of Connect: a provisional key without a pin is never let through. */
    method Established() returns (ok: bool)
      ensures ok <==> status != New || pinned
    {
      ok := !(status == New && !pinned);
    }
  }

  datatype PinError = NotFound | AddressChanged | AlreadyPinned

  /** One row of the endpoints table. */
  datatype Record = Record(account: string, addr: Address, pin: Option<Pin>)

  class Endpoints {
    var rows: map<string, Record>

    constructor ()
      ensures rows == map[]
    {
      rows := map[];
    }

    /** UPDATE ... WHERE host_key_fingerprint IS NULL AND host AND port: the rows changed. */
    method PinStatement(id: string, addr: Address, pin: Pin) returns (changed: bool)
      modifies this
      ensures changed <==> id in old(rows) && old(rows)[id].pin.None? && old(rows)[id].addr == addr
      ensures rows == if changed then old(rows)[id := old(rows)[id].(pin := Some(pin))] else old(rows)
    {
      changed := id in rows && rows[id].pin.None? && rows[id].addr == addr;
      if changed {
        rows := rows[id := rows[id].(pin := Some(pin))];
      }
    }

    /**
     PinHostKey. `meanwhile` is the table as other statements have left it when the second
     statement runs, which it does only if the first changed nothing. Success means exactly
     that the write landed on an unpinned row at this address, or that this fingerprint is
     found there; a pin that is there is never replaced.
     */
    method PinHostKey(id: string, addr: Address, pin: Pin, meanwhile: map<string, Record>)
      returns (err: Option<PinError>)
      modifies this
      ensures
        if id in old(rows) && old(rows)[id].pin.None? && old(rows)[id].addr == addr then
          err == None && rows == old(rows)[id := old(rows)[id].(pin := Some(pin))]
        else
          && rows == meanwhile
          && (err == None <==>
                id in rows && rows[id].addr == addr && rows[id].pin.Some? && rows[id].pin.value.fp == pin.fp)
          && (err == Some(NotFound) <==> id !in rows)
          && (err == Some(AddressChanged) <==> id in rows && rows[id].addr != addr)
    {
      var changed := PinStatement(id, addr, pin);
      if changed { return None; }
      rows := meanwhile;
      if id !in rows { return Some(NotFound); }
      if rows[id].addr != addr { return Some(AddressChanged); }
      if rows[id].pin.Some? && rows[id].pin.value.fp == pin.fp { return None; }
      return Some(AlreadyPinned);
    }

    /** A host or port change drops the pin in the same statement. */
    method Update(id: string, account: string, addr: Address) returns (found: bool)
      modifies this
      ensures found <==> id in old(rows) && old(rows)[id].account == account
      ensures rows.Keys == old(rows).Keys
      ensures !found ==> rows == old(rows)
      ensures found ==> rows[id].addr == addr && rows[id].account == account
      ensures found ==> rows[id].pin == (if old(rows)[id].addr == addr then old(rows)[id].pin else None)
      ensures forall e :: e in rows && e != id ==> rows[e] == old(rows)[e]
    {
      found := id in rows && rows[id].account == account;
      if found {
        rows := rows[id := Record(account, addr, if rows[id].addr == addr then rows[id].pin else None)];
      }
    }

    /** Account-scoped; false when there was no pin to forget. */
    method ClearHostKey(id: string, account: string) returns (cleared: bool)
      modifies this
      ensures cleared <==> id in old(rows) && old(rows)[id].account == account && old(rows)[id].pin.Some?
      ensures rows == if cleared then old(rows)[id := old(rows)[id].(pin := None)] else old(rows)
    {
      cleared := id in rows && rows[id].account == account && rows[id].pin.Some?;
      if cleared {
        rows := rows[id := rows[id].(pin := None)];
      }
    }
  }
}
