/** The warm pool of `hyperbox-server/src/pool.rs`: what a call does when it runs alone. */
module Pool {
  import opened Types

  datatype Checkout = Got(id: SandboxId) | Failed(error: Error) | Panicked

  /** No sandbox is in the pool twice, and everything in it was issued by the backend. */
  ghost predicate Tidy(available: seq<SandboxId>, inUse: set<SandboxId>, issued: nat) {
    && (forall i, j | 0 <= i < j < |available| :: available[i] != available[j])
    && (forall i | 0 <= i < |available| :: available[i] !in inUse && available[i] < issued)
    && (forall id <- inUse :: id < issued)
  }

  /** The ids the backend hands out from `lo` up to `hi`, in that order. */
  ghost function Fresh(lo: nat, hi: nat): (r: seq<SandboxId>)
    requires lo <= hi
    ensures |r| == hi - lo && forall i | 0 <= i < |r| :: r[i] == lo + i
  {
    seq(hi - lo, i requires 0 <= i < hi - lo => lo + i)
  }

  class WarmPoolManager {
    const target: nat
    var available: seq<SandboxId>
    var inUse: set<SandboxId>
    /** The backend's ids: those from here on are fresh. */
    var issued: nat
    /** While false, the backend only fails when it must. */
    var faults: bool

    ghost predicate Valid()
      reads this
    {
      Tidy(available, inUse, issued)
    }

    constructor (target: nat)
      ensures Valid() && this.target == target && available == [] && inUse == {}
    {
      this.target, available, inUse, issued := target, [], {}, 0;
    }

    method Create() returns (r: Result<SandboxId>)
      modifies this`issued
      ensures r.Ok? ==> r.value == old(issued) && issued == old(issued) + 1
      ensures r.Err? ==> faults && issued == old(issued)
    {
      var fails := *;
      if fails && faults { return Err(Fault); }
      issued := issued + 1;
      r := Ok(issued - 1);
    }

    /** New sandboxes go to the back until the target is reached; a failure keeps what there is. */
    method Fill() returns (r: Result<()>)
      requires Valid()
      modifies this`available, this`issued
      ensures Valid() && issued >= old(issued)
      ensures available == old(available) + Fresh(old(issued), issued)
      ensures |available| <= target || issued == old(issued)
      ensures r.Ok? ==> |available| >= target
      ensures r.Err? ==> faults && |available| < target
    {
      while |available| < target
        invariant Valid() && issued >= old(issued)
        invariant available == old(available) + Fresh(old(issued), issued)
        invariant |available| <= target || issued == old(issued)
      {
        var lease := Create();
        if lease.Err? { return Err(lease.error); }
        available := available + [lease.value];
        assert Fresh(old(issued), issued) == Fresh(old(issued), issued - 1) + [issued - 1];
      }
      r := Ok(());
    }

    /** A checkout that runs alone panics exactly if the pool is empty and is never filled;
        otherwise, unless the backend fails, it hands out the front of the filled pool. */
    method CheckoutSandbox() returns (r: Checkout)
      requires Valid()
      modifies this`available, this`inUse, this`issued
      ensures Valid() && issued >= old(issued)
      ensures r.Panicked? <==> old(available) == [] && target == 0
      ensures r.Failed? ==> faults && old(available) == []
      ensures old(available) != [] ==> issued == old(issued)
      ensures r.Got? ==> r.id !in old(inUse) && inUse == old(inUse) + {r.id}
      ensures r.Got? ==> [r.id] + available == old(available) + Fresh(old(issued), issued)
      ensures r.Got? && old(available) == [] ==> |available| == target - 1
      ensures !r.Got? ==> inUse == old(inUse) && available == old(available) + Fresh(old(issued), issued)
    {
      if available == [] {
        var filled := Fill();
        if filled.Err? { return Failed(filled.error); }
      }
      if available == [] { return Panicked; }
      var id := available[0];
      available := available[1..];
      inUse := inUse + {id};
      r := Got(id);
    }

    /** The pool is not filled here; an empty one falls back to restoring a snapshot. */
    method CheckoutOrRestore() returns (r: Result<SandboxId>)
      requires Valid()
      modifies this`available, this`inUse, this`issued
      ensures Valid() && issued >= old(issued)
      ensures r.Err? ==> faults && old(available) == [] == available && inUse == old(inUse) && issued == old(issued)
      ensures r.Ok? ==> r.value !in old(inUse) && inUse == old(inUse) + {r.value}
      ensures r.Ok? ==> [r.value] + available == old(available) + Fresh(old(issued), issued)
      ensures old(available) != [] ==> r.Ok? && issued == old(issued)
    {
      if available != [] {
        var id := available[0];
        available := available[1..];
        inUse := inUse + {id};
        return Ok(id);
      }
      var restored := Create();
      if restored.Err? { return Err(restored.error); }
      inUse := inUse + {restored.value};
      r := Ok(restored.value);
    }

    /** Releasing what is not in use does nothing. */
    method Release(id: SandboxId)
      requires Valid()
      modifies this`available, this`inUse
      ensures Valid()
      ensures id in old(inUse) ==> inUse == old(inUse) - {id} && available == old(available) + [id]
      ensures id !in old(inUse) ==> inUse == old(inUse) && available == old(available)
    {
      if id in inUse {
        inUse := inUse - {id};
        available := available + [id];
      }
    }
  }
}
