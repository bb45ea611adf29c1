/**
 * The owning COM pointer of the D3D backend (D3DPtr.h): a `UniquePtr` owns
 * one reference to a COM object and gives it back with `Release` exactly
 * once, when it is reset, reassigned or destroyed.  Reference-count traffic
 * is recorded in a `RefLog` so that "released exactly once" can be
 * stated.
 */
module D3DPtr {
  /** A raw interface pointer: null, or a live COM object named by its address. */
  datatype Ptr = Null | Obj(addr: nat)

  /** One reference-count call issued on a COM object. */
  datatype RefEvent = AddRef(target: Ptr) | Release(target: Ptr)

  /** The reference-count calls issued so far, in order (a record kept by the model). */
  class RefLog {
    var events: seq<RefEvent>

    constructor ()
      ensures events == []
    {
      events := [];
    }
  }

  /** The calls issued when ownership of `p` is given up: one Release unless `p` is null. */
  function ReleaseOf(p: Ptr): seq<RefEvent>
  {
    if p.Obj? then [Release(p)] else []
  }

  /** Number of Release calls on `p` recorded in `es`. */
  function ReleaseCount(es: seq<RefEvent>, p: Ptr): nat
  {
    if |es| == 0 then 0
    else ReleaseCount(es[..|es| - 1], p) + (if es[|es| - 1] == Release(p) then 1 else 0)
  }

  /** Recording one more event counts it for the pointer it releases and no other. */
  lemma ReleaseCountSnoc(es: seq<RefEvent>, e: RefEvent)
    ensures forall p :: ReleaseCount(es + [e], p) == ReleaseCount(es, p) + (if e == Release(p) then 1 else 0)
  {
    assert (es + [e])[..|es|] == es;
  }

  class UniquePtr {
    /** The owned pointer (`ptr_`). */
    var ptr: Ptr

    /** `UniquePtr()` and `UniquePtr(nullptr)`. */
    constructor Empty()
      ensures ptr == Null
    {
      ptr := Null;
    }

    /** `explicit UniquePtr(T* p)`: adopts the reference the caller holds. */
    constructor Adopt(p: Ptr)
      ensures ptr == p
    {
      ptr := p;
    }

    /** Move construction: takes the pointer and leaves `other` null; no reference-count call. */
    constructor Move(other: UniquePtr)
      modifies other
      ensures ptr == old(other.ptr) && other.ptr == Null
    {
      ptr := other.ptr;
      new;
      other.ptr := Null;
    }

    function Get(): Ptr
      reads this
    {
      ptr
    }

    /** `explicit operator bool`. */
    predicate IsSet()
      reads this
    {
      ptr.Obj?
    }

    /** `release()`: hands the pointer to the caller without releasing it. */
    method Detach() returns (p: Ptr)
      modifies this
      ensures p == old(ptr) && ptr == Null
    {
      p := ptr;
      ptr := Null;
    }

    /** `reset(p)`: installs `p`, then releases the previously owned object, if any. */
    method Reset(p: Ptr, log: RefLog)
      modifies this, log
      ensures ptr == p
      ensures log.events == old(log.events) + ReleaseOf(old(ptr))
    {
      var previous := ptr;
      ptr := p;
      if previous.Obj? {
        log.events := log.events + [Release(previous)];
      }
    }

    /** Move assignment `reset(p.release())`; assigning a pointer to itself changes nothing. */
    method MoveAssign(other: UniquePtr, log: RefLog)
      modifies this, other, log
      ensures other != this ==> ptr == old(other.ptr) && other.ptr == Null
      ensures other != this ==> log.events == old(log.events) + ReleaseOf(old(ptr))
      ensures other == this ==> ptr == old(ptr) && log.events == old(log.events)
    {
      var p := other.Detach();
      Reset(p, log);
    }

    /** `operator=(nullptr)`. */
    method AssignNull(log: RefLog)
      modifies this, log
      ensures ptr == Null
      ensures log.events == old(log.events) + ReleaseOf(old(ptr))
    {
      Reset(Null, log);
    }

    /** The destructor: releases the owned object, if any. */
    method Destroy(log: RefLog)
      modifies log
      ensures log.events == old(log.events) + ReleaseOf(ptr)
    {
      if ptr.Obj? {
        log.events := log.events + [Release(ptr)];
      }
    }

    /** `Share()`: a second owner of the same object, after one AddRef. */
    method Share(log: RefLog) returns (shared: UniquePtr)
      modifies log
      ensures fresh(shared) && shared.ptr == ptr
      ensures log.events == old(log.events) + (if ptr.Obj? then [AddRef(ptr)] else [])
    {
      if ptr.Obj? {
        log.events := log.events + [AddRef(ptr)];
      }
      shared := new UniquePtr.Adopt(ptr);
    }
  }

  /**
   * `ToAddr(p)`: a temporary whose address is handed to a D3D creation call
   * as the `T**` out-parameter; when it goes away it stores what was written
   * into the owning pointer, and only if that is non-null.
   */
  class ToAddr {
    const target: UniquePtr
    var temp: Ptr

    constructor (target: UniquePtr)
      ensures this.target == target && temp == Null
    {
      this.target := target;
      temp := Null;
    }

    /** The creation call writing through the out-parameter. */
    method Write(p: Ptr)
      modifies this
      ensures temp == p
    {
      temp := p;
    }

    /** The destructor: `if (temp_) ptr_.reset(temp_)`. */
    method Destroy(log: RefLog)
      modifies target, log
      ensures target.ptr == (if old(temp).Obj? then old(temp) else old(target.ptr))
      ensures log.events == old(log.events) + (if old(temp).Obj? then ReleaseOf(old(target.ptr)) else [])
    {
      if temp.Obj? {
        target.Reset(temp, log);
      }
    }
  }

  /**
   * One owner's life: adopt `a`, move it into a second owner, reassign that
   * owner to `b`, then destroy both.  Each object is released exactly once and
   * the moved-from owner releases nothing.
   */
  method OwnershipLifetime(a: nat, b: nat) returns (releasesOfA: nat, releasesOfB: nat, total: nat)
    requires a != b
    ensures releasesOfA == 1 && releasesOfB == 1 && total == 2
  {
    var log := new RefLog();
    var first := new UniquePtr.Adopt(Obj(a));
    var second := new UniquePtr.Move(first);
    second.Reset(Obj(b), log);
    second.Destroy(log);
    first.Destroy(log);
    var es := log.events;
    var none: seq<RefEvent> := [];
    assert es == none + [Release(Obj(a))] + [Release(Obj(b))];
    ReleaseCountSnoc(none, Release(Obj(a)));
    ReleaseCountSnoc(none + [Release(Obj(a))], Release(Obj(b)));
    releasesOfA := ReleaseCount(log.events, Obj(a));
    releasesOfB := ReleaseCount(log.events, Obj(b));
    total := |log.events|;
  }
}
