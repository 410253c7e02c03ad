/**
 The copy-on-write buffer behind a cached block: `share` hands a snapshot to the device driver, and a
 later write must not change it.  The reference count of the shared memory is explicit.
 */
module CowBuffer {
  import opened Basics

  /** Shared memory with its number of owners: the buffer and the snapshots handed out. */
  class Shared {
    const data: array<nat>
    var strong: nat

    constructor (data: array<nat>)
      ensures this.data == data && strong == 1
    {
      this.data, strong := data, 1;
    }
  }

  datatype NoMemory = ENOMEM

  class Buffer {
    var data: array<nat>    // the bytes, in either mode
    var shared: Shared?     // `Shared` mode: the counted owner of `data`; null in `Unique` mode
    ghost var held: multiset<array<nat>> // memory of the snapshots still held by the driver

    ghost predicate Valid()
      reads this, shared
    {
      if shared == null then held[data] == 0
      else shared.data == data && shared.strong == 1 + held[data]
    }

    constructor (bytes: nat)
      ensures Valid() && fresh(data) && data.Length == bytes && held == multiset{} && shared == null
    {
      data, shared, held := new nat[bytes], null, multiset{};
    }

    /** `share` */
    method Share() returns (snapshot: array<nat>)
      requires Valid()
      modifies this`shared, this`held, shared
      ensures Valid() && data == old(data) && snapshot == data
      ensures held == old(held) + multiset{snapshot}
    {
      if shared == null {
        shared := new Shared(data);
      }
      shared.strong := shared.strong + 1;
      held := held + multiset{data};
      snapshot := data;
    }

    /** The driver is done with a snapshot. */
    method Release(snapshot: array<nat>)
      requires Valid() && snapshot in held
      modifies this`held, shared
      ensures Valid() && data == old(data) && held == old(held) - multiset{snapshot}
    {
      if shared != null && snapshot == data {
        shared.strong := shared.strong - 1;
      }
      held := held - multiset{snapshot};
    }

    /** `access_rw_u8`: memory that only this buffer owns, with the same bytes; no copy is made when no
        snapshot is held.  `memory` tells whether an allocation would succeed. */
    method AccessRw(memory: bool) returns (r: Result<array<nat>, NoMemory>)
      requires Valid()
      modifies this`data, this`shared
      ensures Valid() && held == old(held) && data[..] == old(data[..])
      ensures r.Failure? <==> old(shared) != null && old(data) in held && !memory
      ensures r.Failure? ==> data == old(data) && shared == old(shared)
      ensures r.Success? ==> r.value == data && data !in held && shared == null
      ensures data == old(data) || fresh(data)
      ensures old(data) !in held ==> data == old(data)
    {
      if shared != null {
        if shared.strong == 1 {
          shared := null;
        } else {
          if !memory { return Failure(ENOMEM); }
          var copy := new nat[data.Length];
          var i := 0;
          while i < data.Length
            invariant 0 <= i <= data.Length && copy[..i] == data[..i]
            modifies copy
          {
            copy[i] := data[i];
            i := i + 1;
          }
          assert copy[..] == data[..];
          data, shared := copy, null;
        }
      }
      r := Success(data);
    }

    /** A write through `access_rw`: it changes one byte of the buffer and no snapshot, whenever that
        was taken. */
    method Write(i: nat, v: nat, memory: bool) returns (ok: bool)
      requires Valid() && i < data.Length
      modifies this`data, this`shared, data
      ensures Valid() && held == old(held)
      ensures data[..] == if ok then old(data[..])[i := v] else old(data[..])
      ensures forall s :: s in held ==> s[..] == old(s[..])
      ensures !ok <==> old(shared) != null && old(data) in held && !memory
    {
      var r := AccessRw(memory);
      ok := r.Success?;
      if ok {
        data[i] := v;
      }
    }
  }
}
