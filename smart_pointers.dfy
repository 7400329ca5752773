/** The handles and control blocks of a single-threaded reference-counting
    library: `SharedPtr` (owning handle), `WeakPtr` (observing handle), two
    kinds of control block, the self-reference capability and the factories.

    Every block keeps, as ghost state, the set of owning handles and the set
    of observing handles that refer to it, the log of `destroy` calls (what
    each one tore down) and the number of `deallocate` calls. `Block.Valid`
    ties the counters to those sets and the lifecycle to the counters, and
    every operation of a handle says how the block's `State()` moves, in
    terms of the transitions of module `Lifecycle`. */
module SmartPointers {
  import opened Lifecycle

  /** The template's value type `T`; a single value type is modelled. */
  type Value = int

  /** The deleter a split block calls on its pointer (`std::default_delete`
      unless the caller supplies one). */
  datatype Deleter = DefaultDelete | CustomDeleter(id: nat)

  /** The allocator a block's storage comes from (`std::allocator` unless the
      caller supplies one). */
  datatype Allocator = DefaultAllocator | CustomAllocator(id: nat)

  /** A raw `T*`: null, an address the caller obtained elsewhere, or the
      address of the value stored just past a block's own record
      (`reinterpret_cast<T*>(cb + 1)`). */
  datatype Ptr = Null | Raw(addr: nat) | Inside(block: Block)

  /** The two control blocks: `MakeSharedControlBlock` is built by the
      factories, with the value constructed at `this + 1`, just past the
      block's record; `ControlBlock` holds an adopted pointer and its deleter. */
  datatype Kind = Combined(value: Value) | Split(held: Ptr, deleter: Deleter)

  /** `BaseControlBlock` with its two variants. */
  class Block {
    var shared: nat
    var weak: nat
    const kind: Kind
    const alloc: Allocator

    ghost var owners: set<Shared>
    ghost var observers: set<Weak>
    /** What each `destroy()` call tore down, in order. */
    ghost var torn: seq<Ptr>
    /** How many times `deallocate()` has run. */
    ghost var freed: nat

    ghost function State(): Counts
      reads this
    {
      Counts(shared, weak, |torn|, freed)
    }

    /** What `destroy()` tears down: the value in place for a combined block,
        the adopted pointer (through the deleter) for a split block. */
    function Victim(): Ptr {
      match kind
      case Combined(_) => Inside(this)
      case Split(p, _) => p
    }

    ghost function Repr(): set<object>
      reads this
    {
      {this} + owners + observers
    }

    ghost predicate Valid()
      reads this, owners, observers
    {
      && shared == |owners|
      && weak == |observers|
      && (forall o :: o in owners ==> o.cb == this)
      && (forall w :: w in observers ==> w.cb == this)
      && Consistent(State())
      && torn == (if shared == 0 then [Victim()] else [])
    }

    /** Just built with counts (1, 0), and not yet handed to a handle. */
    ghost predicate Unclaimed()
      reads this
    {
      shared == 1 && weak == 0 && owners == {} && observers == {} && torn == [] && freed == 0
    }

    /** `MakeSharedControlBlock(1, 0, alloc, args...)`: the value is built at
        `this + 1`, just past the block's record. */
    constructor ForValue(v: Value, a: Allocator)
      ensures kind == Combined(v) && alloc == a && Unclaimed()
    {
      shared, weak := 1, 0;
      kind, alloc := Combined(v), a;
      owners, observers, torn, freed := {}, {}, [], 0;
    }

    /** `ControlBlock(1, 0, ptr, del, alloc)`: adopts a pointer and its deleter. */
    constructor ForPointer(p: Ptr, d: Deleter, a: Allocator)
      ensures kind == Split(p, d) && alloc == a && Unclaimed()
    {
      shared, weak := 1, 0;
      kind, alloc := Split(p, d), a;
      owners, observers, torn, freed := {}, {}, [], 0;
    }

    /** `destroy()`: the value's destructor or the deleter, recorded only. */
    method Destroy()
      modifies this`torn
      ensures torn == old(torn) + [Victim()]
    {
      torn := torn + [Victim()];
    }

    /** `deallocate()`: returns the block's storage to its allocator, recorded only. */
    method Deallocate()
      modifies this`freed
      ensures freed == old(freed) + 1
    {
      freed := freed + 1;
    }

    /** The block gained owner `h`. */
    twostate predicate Retained(new h: Shared)
      reads this
    {
      State() == Retain(old(State())) && owners == old(owners) + {h} && observers == old(observers)
    }

    /** The block lost owner `h`, with the release protocol run. */
    twostate predicate Released(h: Shared)
      reads this
    {
      && old(shared) > 0
      && State() == Release(old(State()))
      && owners == old(owners) - {h}
      && observers == old(observers)
    }

    /** The block gained observer `w`. */
    twostate predicate Observed(new w: Weak)
      reads this
    {
      State() == Observe(old(State())) && observers == old(observers) + {w} && owners == old(owners)
    }

    /** The block lost observer `w`, with the release protocol run. */
    twostate predicate Unobserved(w: Weak)
      reads this
    {
      && old(weak) > 0
      && State() == Unobserve(old(State()))
      && observers == old(observers) - {w}
      && owners == old(owners)
    }

    /** Nothing about the block changed, nor the links of its handles. */
    twostate predicate Unmoved()
      reads this, owners, observers
    {
      && shared == old(shared) && weak == old(weak) && torn == old(torn) && freed == old(freed)
      && owners == old(owners) && observers == old(observers)
      && LinksKeptBut({})
    }

    /** Every handle on the block, except those in `moved`, kept its link. */
    twostate predicate LinksKeptBut(moved: set<object>)
      reads this, owners, observers
    {
      && (forall o :: o in owners && o !in moved && old(allocated(o)) ==> o.cb == old(o.cb))
      && (forall w :: w in observers && w !in moved && old(allocated(w)) ==> w.cb == old(w.cb))
    }

    /** Neither the counts nor the handles on the block changed. */
    twostate predicate Kept()
      reads this
    {
      State() == old(State()) && owners == old(owners) && observers == old(observers)
    }

    /** Ownership passed from handle `source` to handle `target`; no count moved. */
    twostate predicate OwnerMoved(source: Shared, new target: Shared)
      reads this
    {
      State() == old(State()) && owners == old(owners) - {source} + {target} && observers == old(observers)
    }

    /** Observation passed from handle `source` to handle `target`; no count moved. */
    twostate predicate ObserverMoved(source: Weak, new target: Weak)
      reads this
    {
      State() == old(State()) && observers == old(observers) - {source} + {target} && owners == old(owners)
    }
  }

  /** After `swap` exchanged the fields of owners `a` and `b` (and the ghost
      owner sets were rebound when the blocks differ), both are valid again. */
  twostate lemma OwnersSwapped(a: Shared, new b: Shared)
    requires old(allocated(b))
    requires old(a.Valid()) && old(b.Valid())
    requires a.ptr == old(b.ptr) && a.cb == old(b.cb) && b.ptr == old(a.ptr) && b.cb == old(a.cb)
    requires old(a.cb) != null ==> old(a.cb).LinksKeptBut({a, b})
    requires old(b.cb) != null ==> old(b.cb).LinksKeptBut({a, b})
    requires old(a.cb) == old(b.cb) && a.cb != null ==> unchanged(a.cb)
    requires old(a.cb) != old(b.cb) && old(a.cb) != null ==>
      old(a.cb).OwnerMoved(a, b) && old(a.cb).torn == old(a.cb.torn)
    requires old(a.cb) != old(b.cb) && old(b.cb) != null ==>
      old(b.cb).OwnerMoved(b, a) && old(b.cb).torn == old(b.cb.torn)
    ensures a.Valid() && b.Valid()
    ensures old(a.cb) != old(b.cb) ==>
        && (old(a.cb) != null ==> old(a.cb).OwnerMoved(a, b))
        && (old(b.cb) != null ==> old(b.cb).OwnerMoved(b, a))
  {
    var c, d := old(a.cb), old(b.cb);
    if c != d {
      if c != null { OwnerRebound(c, a, b); }
      if d != null { OwnerRebound(d, b, a); }
    }
    OwnerValid(a);
    OwnerValid(b);
  }

  /** A block whose share passed from `source` to `target` is valid again. */
  twostate lemma OwnerRebound(b: Block, new source: Shared, new target: Shared)
    requires old(allocated(source)) && old(allocated(target))
    requires old(b.Valid())
    requires source in old(b.owners) && target !in old(b.owners)
    requires b.owners == old(b.owners) - {source} + {target}
    requires b.observers == old(b.observers) && b.State() == old(b.State()) && b.torn == old(b.torn)
    requires target.cb == b
    requires b.LinksKeptBut({target})
    ensures b.Valid() && b.OwnerMoved(source, target)
  {
    RemoveOne(old(b.owners), source);
  }

  /** An owner listed on its valid block is valid. */
  lemma OwnerValid(h: Shared)
    requires h.cb == null ==> h.ptr == Null
    requires h.cb != null ==> h in h.cb.owners && h.cb.Valid()
    ensures h.Valid()
  {
  }

  /** After the private `swap` exchanged the fields of observers `a` and `b`,
      both are valid again. */
  twostate lemma ObserversSwapped(a: Weak, new b: Weak)
    requires old(allocated(b))
    requires old(a.Valid()) && old(b.Valid())
    requires a.ptr == old(b.ptr) && a.cb == old(b.cb) && b.ptr == old(a.ptr) && b.cb == old(a.cb)
    requires old(a.cb) != null ==> old(a.cb).LinksKeptBut({a, b})
    requires old(b.cb) != null ==> old(b.cb).LinksKeptBut({a, b})
    requires old(a.cb) == old(b.cb) && a.cb != null ==> unchanged(a.cb)
    requires old(a.cb) != old(b.cb) && old(a.cb) != null ==>
      old(a.cb).ObserverMoved(a, b) && old(a.cb).torn == old(a.cb.torn)
    requires old(a.cb) != old(b.cb) && old(b.cb) != null ==>
      old(b.cb).ObserverMoved(b, a) && old(b.cb).torn == old(b.cb.torn)
    ensures a.Valid() && b.Valid()
    ensures old(a.cb) != old(b.cb) ==>
        && (old(a.cb) != null ==> old(a.cb).ObserverMoved(a, b))
        && (old(b.cb) != null ==> old(b.cb).ObserverMoved(b, a))
  {
    var c, d := old(a.cb), old(b.cb);
    if c != d {
      if c != null { ObserverRebound(c, a, b); }
      if d != null { ObserverRebound(d, b, a); }
    }
    ObserverValid(a);
    ObserverValid(b);
  }

  /** A block whose observation passed from `source` to `target` is valid again. */
  twostate lemma ObserverRebound(b: Block, new source: Weak, new target: Weak)
    requires old(allocated(source)) && old(allocated(target))
    requires old(b.Valid())
    requires source in old(b.observers) && target !in old(b.observers)
    requires b.observers == old(b.observers) - {source} + {target}
    requires b.owners == old(b.owners) && b.State() == old(b.State()) && b.torn == old(b.torn)
    requires target.cb == b
    requires b.LinksKeptBut({target})
    ensures b.Valid() && b.ObserverMoved(source, target)
  {
    RemoveOne(old(b.observers), source);
  }

  /** An observer listed on its valid block is valid. */
  lemma ObserverValid(h: Weak)
    requires h.cb == null ==> h.ptr == Null
    requires h.cb != null ==> h in h.cb.observers && h.cb.Valid()
    ensures h.Valid()
  {
  }

  /** An owner none of whose links changed is still valid. */
  twostate lemma OwnerFramed(h: Shared)
    requires old(h.Valid())
    requires h.ptr == old(h.ptr) && h.cb == old(h.cb)
    requires h.cb != null ==> h.cb.Unmoved()
    ensures h.Valid()
  {
  }

  /** A second handle on a valid owner's block, listed among its owners, is valid. */
  lemma CoOwnerValid(h: Shared, g: Shared)
    requires h.Valid() && g.cb == h.cb
    requires g.cb == null ==> g.ptr == Null
    requires g.cb != null ==> g in g.cb.owners
    ensures g.Valid()
  {
  }

  /** An observer none of whose links changed is still valid. */
  twostate lemma ObserverFramed(h: Weak)
    requires old(h.Valid())
    requires h.ptr == old(h.ptr) && h.cb == old(h.cb)
    requires h.cb != null ==> h.cb.Unmoved()
    ensures h.Valid()
  {
  }

  /** A second handle on a valid observer's block, listed among its observers, is valid. */
  lemma CoObserverValid(h: Weak, g: Weak)
    requires h.Valid() && g.cb == h.cb
    requires g.cb == null ==> g.ptr == Null
    requires g.cb != null ==> g in g.cb.observers
    ensures g.Valid()
  {
  }

  /** Removing a member of a set leaves one element fewer. */
  lemma RemoveOne<T>(s: set<T>, x: T)
    requires x in s
    ensures |s - {x}| == |s| - 1
  {
  }

  /** `SharedPtr<T>`: a `(ptr, cb)` pair owning one share of block `cb`. */
  class Shared {
    var ptr: Ptr
    var cb: Block?

    ghost predicate Valid()
      reads this, cb, if cb == null then {} else cb.Repr()
    {
      && (cb == null ==> ptr == Null)
      && (cb != null ==> this in cb.owners && cb.Valid())
    }

    ghost predicate IsEmpty()
      reads this
    {
      ptr == Null && cb == null
    }

    /** `SharedPtr()`. */
    constructor Empty()
      ensures Valid() && IsEmpty()
    {
      ptr, cb := Null, null;
    }

    /** `SharedPtr(T* ptr, const Deleter& del, Alloc alloc)` and its `Y*` form:
        allocate a split block with counts (1, 0) that holds `p`. */
    constructor Adopt(p: Ptr, d: Deleter, a: Allocator)
      ensures Valid() && ptr == p && cb != null && fresh(cb)
      ensures cb.kind == Split(p, d) && cb.alloc == a
      ensures cb.State() == Created && cb.owners == {this} && cb.observers == {}
    {
      ptr := p;
      cb := new Block.ForPointer(p, d, a);
      new;
      cb.owners := {this};
    }

    /** `SharedPtr(MakeSharedControlBlock<T, Alloc>*)`, used by the factories:
        takes over the block's initial share; `ptr` stays null. */
    constructor FromBlock(b: Block)
      requires b.kind.Combined? && b.Unclaimed()
      modifies b
      ensures Valid() && ptr == Null && cb == b
      ensures b.State() == Created && b.owners == {this} && b.observers == {}
    {
      ptr, cb := Null, b;
      new;
      b.owners := {this};
    }

    /** `SharedPtr(const SharedPtr&)`: shares the block, one more owner; an
        empty source gives an empty handle. */
    constructor Copy(src: Shared)
      requires src.Valid()
      modifies src.cb
      ensures Valid() && src.Valid()
      ensures ptr == src.ptr && cb == src.cb
      ensures src.cb != null ==> src.cb.Retained(this)
    {
      ptr, cb := src.ptr, src.cb;
      new;
      if cb != null {
        cb.shared := cb.shared + 1;
        cb.owners := cb.owners + {this};
      }
    }

    /** `SharedPtr(const SharedPtr<Y>&)`: the same without the null check, so
        the source must not be empty. */
    constructor CopyRelated(src: Shared)
      requires src.Valid() && src.cb != null
      modifies src.cb
      ensures Valid() && src.Valid()
      ensures ptr == src.ptr && cb == src.cb
      ensures src.cb.Retained(this)
    {
      ptr, cb := src.ptr, src.cb;
      new;
      src.cb.shared := src.cb.shared + 1;
      src.cb.owners := src.cb.owners + {this};
    }

    /** `SharedPtr(SharedPtr&&)` and its `SharedPtr<Y>&&` form: takes the pair
        over and leaves the source empty; no count changes. */
    constructor Move(src: Shared)
      requires src.Valid()
      modifies src, src.cb
      ensures Valid() && src.Valid() && src.IsEmpty()
      ensures ptr == old(src.ptr) && cb == old(src.cb)
      ensures cb != null ==> cb.OwnerMoved(src, this)
    {
      ptr, cb := src.ptr, src.cb;
      new;
      if cb != null {
        cb.owners := cb.owners - {src} + {this};
      }
      src.ptr, src.cb := Null, null;
    }

    /** The private `SharedPtr(WeakPtr<T>)`, which receives its argument by
        value: empty when `w` is empty or its block has expired; otherwise one
        more owner of the same block, with a null `ptr` resolved to the value
        stored in the block. */
    constructor Upgrade(w: Weak)
      requires w.Valid()
      modifies w.cb
      ensures Valid() && w.Valid()
      ensures w.cb == null ==> IsEmpty()
      ensures w.cb != null && old(w.cb.shared) == 0 ==> IsEmpty() && unchanged(w.cb)
      ensures w.cb != null && old(w.cb.shared) > 0 ==>
        && cb == w.cb
        && ptr == (if w.ptr != Null then w.ptr else Inside(w.cb))
        && w.cb.Retained(this)
    {
      ptr, cb := w.ptr, w.cb;
      new;
      if cb != null {
        if cb.shared == 0 {
          ptr, cb := Null, null;
        } else {
          if ptr == Null {
            ptr := Inside(cb);
          }
          cb.shared := cb.shared + 1;
          cb.owners := cb.owners + {this};
        }
      } else {
        ptr := Null;
      }
    }

    /** `clear()`, which the destructor runs: nothing on an empty handle;
        otherwise one owner fewer, `destroy` when it was the last one, and
        `deallocate` after it when no observer is left either. */
    method Clear()
      requires Valid()
      modifies this, cb
      ensures Valid() && IsEmpty()
      ensures old(cb) != null ==> old(cb).Valid() && old(cb).Released(this)
    {
      if cb == null {
        return;
      }
      RemoveOne(cb.owners, this);
      cb.shared := cb.shared - 1;
      cb.owners := cb.owners - {this};
      if cb.shared == 0 {
        cb.Destroy();
        if cb.weak == 0 {
          cb.Deallocate();
        }
      }
      ptr, cb := Null, null;
    }

    /** `swap`: exchanges both fields; no count changes. */
    method Swap(other: Shared)
      requires Valid() && other.Valid()
      modifies this, other, cb, other.cb
      ensures Valid() && other.Valid()
      ensures ptr == old(other.ptr) && cb == old(other.cb)
      ensures other.ptr == old(ptr) && other.cb == old(cb)
      ensures old(cb) == old(other.cb) && cb != null ==> unchanged(cb)
      ensures old(cb) != old(other.cb) ==>
        && (old(cb) != null ==> old(cb).OwnerMoved(this, other))
        && (old(other.cb) != null ==> old(other.cb).OwnerMoved(other, this))
    {
      var c, d := cb, other.cb;
      if c != d {
        if c != null {
          c.owners := c.owners - {this} + {other};
        }
        if d != null {
          d.owners := d.owners - {other} + {this};
        }
      }
      ptr, other.ptr := other.ptr, ptr;
      cb, other.cb := other.cb, cb;
      OwnersSwapped(this, other);
    }

    /** `operator=(const SharedPtr&)`: returns at once on self-assignment;
        otherwise copies the source into a temporary, swaps, and releases
        the temporary, which now holds the old share. */
    method CopyAssign(src: Shared)
      requires Valid() && src.Valid()
      modifies this, cb, src.cb
      ensures Valid() && src.Valid()
      ensures ptr == old(src.ptr) && cb == old(src.cb)
      ensures old(cb) == src.cb && cb != null ==> cb.Kept()
      ensures old(cb) != src.cb ==>
        && (src.cb != null ==> src.cb.Valid() && src.cb.Retained(this))
        && (old(cb) != null ==> old(cb).Valid() && old(cb).Released(this))
    {
      if this != src {
        label Before:
        var copy := new Shared.Copy(src);
        if cb != src.cb { OwnerFramed@Before(this); } else { CoOwnerValid(src, this); }
        assert src !in {this, copy} && src as object !in {cb, copy.cb};
        label Mid:
        Replace(copy);
        assert unchanged@Mid(src);
        CoOwnerValid(this, src);
        if old@Before(cb) == src.cb && cb != null {
          ReleaseUndoesRetain(old@Before(cb.State()));
        }
      }
    }

    /** `operator=(const SharedPtr<Y>&)`: the same copy-and-swap without the
        self-assignment test, through the unchecked related-type copy. */
    method CopyAssignRelated(src: Shared)
      requires Valid() && src.Valid() && src.cb != null
      modifies this, cb, src.cb
      ensures Valid() && src.Valid()
      ensures ptr == old(src.ptr) && cb == old(src.cb)
      ensures old(cb) == src.cb ==> cb.Kept()
      ensures old(cb) != src.cb ==>
        && src.cb.Valid() && src.cb.Retained(this)
        && (old(cb) != null ==> old(cb).Valid() && old(cb).Released(this))
    {
      label Before:
      var copy := new Shared.CopyRelated(src);
      if cb != src.cb { OwnerFramed@Before(this); } else { CoOwnerValid(src, this); }
      assert src != copy && src as object !in {cb, copy.cb};
      label Mid:
      Replace(copy);
      assert src != this ==> unchanged@Mid(src);
      CoOwnerValid(this, src);
      if old@Before(cb) == src.cb {
        ReleaseUndoesRetain(old@Before(cb.State()));
      }
    }

    /** `operator=(SharedPtr&&)` and its `SharedPtr<Y>&&` form: moves the
        source into a temporary, swaps, and releases the temporary. */
    method MoveAssign(src: Shared)
      requires Valid() && src.Valid()
      modifies this, cb, src, src.cb
      ensures Valid() && src.Valid()
      ensures ptr == old(src.ptr) && cb == old(src.cb)
      ensures src == this && cb != null ==> cb.Kept()
      ensures src != this ==> src.IsEmpty()
      ensures src != this && old(cb) != old(src.cb) ==>
        && (old(src.cb) != null ==> old(src.cb).Valid() && old(src.cb).OwnerMoved(src, this))
        && (old(cb) != null ==> old(cb).Valid() && old(cb).Released(this))
      ensures src != this && old(cb) == old(src.cb) && cb != null ==> cb.Released(src)
    {
      label Before:
      var copy := new Shared.Move(src);
      if src != this {
        if cb != old@Before(src.cb) { OwnerFramed@Before(this); } else { OwnerValid(this); }
        assert src !in {this, copy} && src as object !in {cb, copy.cb};
      }
      Replace(copy);
    }

    /** The tail the assignments share: `swap` with the temporary `tmp`, then
        `tmp`'s destructor, which releases the share it now holds. */
    method Replace(tmp: Shared)
      requires Valid() && tmp.Valid() && tmp != this
      modifies this, tmp, cb, tmp.cb
      ensures Valid() && tmp.IsEmpty()
      ensures ptr == old(tmp.ptr) && cb == old(tmp.cb)
      ensures old(cb) == old(tmp.cb) && cb != null ==> cb.Released(tmp)
      ensures old(cb) != old(tmp.cb) ==>
        && (cb != null ==> cb.OwnerMoved(tmp, this))
        && (old(cb) != null ==> old(cb).Valid() && old(cb).Released(this))
    {
      Swap(tmp);
      tmp.Clear();
    }

    /** `operator*` and `operator->`: the stored pointer, or else the value
        stored in the block; the handle must not be empty. */
    method Deref() returns (p: Ptr)
      requires Valid() && cb != null
      ensures p != Null
      ensures ptr != Null ==> p == ptr
      ensures ptr == Null ==> p == Inside(cb)
    {
      if ptr != Null {
        return ptr;
      }
      return Inside(cb);
    }

    /** `use_count()`: the number of owning handles on the block, 0 if empty. */
    method UseCount() returns (n: nat)
      requires Valid()
      ensures cb == null ==> n == 0
      ensures cb != null ==> n == |cb.owners| && n >= 1
    {
      if cb == null {
        return 0;
      }
      return cb.shared;
    }

    /** `get()`: the stored pointer if non-null, else the value stored in the
        block if there is a block, else null. */
    method Get() returns (p: Ptr)
      requires Valid()
      ensures p == Null <==> ptr == Null && cb == null
      ensures ptr != Null ==> p == ptr
      ensures ptr == Null && cb != null ==> p == Inside(cb)
    {
      if ptr != Null {
        return ptr;
      }
      if cb != null {
        return Inside(cb);
      }
      return Null;
    }

    /** `reset()`: swaps with an empty temporary and releases that: the
        handle ends empty and its old block loses exactly one owner. */
    method Reset()
      requires Valid()
      modifies this, cb
      ensures Valid() && IsEmpty()
      ensures old(cb) != null ==> old(cb).Valid() && old(cb).Released(this)
    {
      var tmp := new Shared.Empty();
      tmp.Swap(this);
      tmp.Clear();
    }

    /** `reset(Y* ptr, Deleter del, Alloc alloc)`: adopts `p` into a fresh
        split block, swaps, and releases the old share. */
    method ResetTo(p: Ptr, d: Deleter, a: Allocator)
      requires Valid()
      modifies this, cb
      ensures Valid() && ptr == p && cb != null && fresh(cb)
      ensures cb.kind == Split(p, d) && cb.alloc == a
      ensures cb.State() == Created && cb.owners == {this} && cb.observers == {}
      ensures old(cb) != null ==> old(cb).Valid() && old(cb).Released(this)
    {
      var tmp := new Shared.Adopt(p, d, a);
      tmp.Swap(this);
      tmp.Clear();
    }
  }

  /** `WeakPtr<T>`: a `(ptr, cb)` pair observing block `cb`. */
  class Weak {
    var ptr: Ptr
    var cb: Block?

    ghost predicate Valid()
      reads this, cb, if cb == null then {} else cb.Repr()
    {
      && (cb == null ==> ptr == Null)
      && (cb != null ==> this in cb.observers && cb.Valid())
    }

    ghost predicate IsEmpty()
      reads this
    {
      ptr == Null && cb == null
    }

    /** `WeakPtr()`. */
    constructor Empty()
      ensures Valid() && IsEmpty()
    {
      ptr, cb := Null, null;
    }

    /** `WeakPtr(const SharedPtr<T>&)`: observes the owner's block, with the
        owner's `get()` as pointer; no null check, so the owner must not be
        empty. */
    constructor FromShared(sp: Shared)
      requires sp.Valid() && sp.cb != null
      modifies sp.cb
      ensures Valid() && sp.Valid()
      ensures cb == sp.cb && ptr == (if sp.ptr != Null then sp.ptr else Inside(sp.cb))
      ensures sp.cb.Observed(this)
    {
      var p := sp.Get();
      ptr, cb := p, sp.cb;
      new;
      cb.weak := cb.weak + 1;
      cb.observers := cb.observers + {this};
    }

    /** `WeakPtr(const SharedPtr<Y>&)`: the same, with a null check. */
    constructor FromRelatedShared(sp: Shared)
      requires sp.Valid()
      modifies sp.cb
      ensures Valid() && sp.Valid()
      ensures sp.cb == null ==> IsEmpty()
      ensures sp.cb != null ==>
        && cb == sp.cb && ptr == (if sp.ptr != Null then sp.ptr else Inside(sp.cb))
        && sp.cb.Observed(this)
    {
      var p := sp.Get();
      ptr, cb := p, sp.cb;
      new;
      if cb != null {
        cb.weak := cb.weak + 1;
        cb.observers := cb.observers + {this};
      }
    }

    /** `WeakPtr(const WeakPtr&)`: one more observer of the same block; no
        null check, so the source must not be empty. */
    constructor Copy(src: Weak)
      requires src.Valid() && src.cb != null
      modifies src.cb
      ensures Valid() && src.Valid()
      ensures ptr == src.ptr && cb == src.cb
      ensures src.cb.Observed(this)
    {
      ptr, cb := src.ptr, src.cb;
      new;
      cb.weak := cb.weak + 1;
      cb.observers := cb.observers + {this};
    }

    /** `WeakPtr(const WeakPtr<Y>&)`: the same, with a null check. */
    constructor CopyRelated(src: Weak)
      requires src.Valid()
      modifies src.cb
      ensures Valid() && src.Valid()
      ensures ptr == src.ptr && cb == src.cb
      ensures src.cb != null ==> src.cb.Observed(this)
    {
      ptr, cb := src.ptr, src.cb;
      new;
      if cb != null {
        src.cb.weak := src.cb.weak + 1;
        src.cb.observers := src.cb.observers + {this};
      }
    }

    /** `WeakPtr(WeakPtr&&)` and its `WeakPtr<Y>&&` form: takes the pair over
        and leaves the source empty; no count changes. */
    constructor Move(src: Weak)
      requires src.Valid()
      modifies src, src.cb
      ensures Valid() && src.Valid() && src.IsEmpty()
      ensures ptr == old(src.ptr) && cb == old(src.cb)
      ensures cb != null ==> cb.ObserverMoved(src, this)
    {
      ptr, cb := src.ptr, src.cb;
      new;
      if cb != null {
        cb.observers := cb.observers - {src} + {this};
      }
      src.cb, src.ptr := null, Null;
    }

    /** `clear()`, which the destructor runs: nothing on an empty handle;
        otherwise one observer fewer, and `deallocate` when both counts are
        now zero. It never runs `destroy`. */
    method Clear()
      requires Valid()
      modifies this, cb
      ensures Valid() && IsEmpty()
      ensures old(cb) != null ==> old(cb).Valid() && old(cb).Unobserved(this)
    {
      if cb == null {
        return;
      }
      RemoveOne(cb.observers, this);
      cb.weak := cb.weak - 1;
      cb.observers := cb.observers - {this};
      if cb.shared == 0 && cb.weak == 0 {
        cb.Deallocate();
      }
      ptr, cb := Null, null;
    }

    /** The private `swap`: exchanges both fields; no count changes. */
    method Swap(other: Weak)
      requires Valid() && other.Valid()
      modifies this, other, cb, other.cb
      ensures Valid() && other.Valid()
      ensures ptr == old(other.ptr) && cb == old(other.cb)
      ensures other.ptr == old(ptr) && other.cb == old(cb)
      ensures old(cb) == old(other.cb) && cb != null ==> unchanged(cb)
      ensures old(cb) != old(other.cb) ==>
        && (old(cb) != null ==> old(cb).ObserverMoved(this, other))
        && (old(other.cb) != null ==> old(other.cb).ObserverMoved(other, this))
    {
      var c, d := cb, other.cb;
      if c != d {
        if c != null {
          c.observers := c.observers - {this} + {other};
        }
        if d != null {
          d.observers := d.observers - {other} + {this};
        }
      }
      ptr, other.ptr := other.ptr, ptr;
      cb, other.cb := other.cb, cb;
      ObserversSwapped(this, other);
    }

    /** `operator=(const WeakPtr&)`: returns at once on self-assignment;
        otherwise copy-and-swap through the unchecked copy, so a distinct
        source must not be empty. */
    method CopyAssign(src: Weak)
      requires Valid() && src.Valid()
      requires src != this ==> src.cb != null
      modifies this, cb, src.cb
      ensures Valid() && src.Valid()
      ensures ptr == old(src.ptr) && cb == old(src.cb)
      ensures old(cb) == src.cb && cb != null ==> cb.Kept()
      ensures old(cb) != src.cb ==>
        && src.cb.Valid() && src.cb.Observed(this)
        && (old(cb) != null ==> old(cb).Valid() && old(cb).Unobserved(this))
    {
      if this != src {
        label Before:
        var copy := new Weak.Copy(src);
        if cb != src.cb { ObserverFramed@Before(this); } else { CoObserverValid(src, this); }
        assert src !in {this, copy} && src as object !in {cb, copy.cb};
        label Mid:
        Replace(copy);
        assert unchanged@Mid(src);
        CoObserverValid(this, src);
        if old@Before(cb) == src.cb {
          UnobserveUndoesObserve(old@Before(cb.State()));
        }
      }
    }

    /** `operator=(const WeakPtr<Y>&)`: copy-and-swap through the checked
        related-type copy, without the self-assignment test. */
    method CopyAssignRelated(src: Weak)
      requires Valid() && src.Valid()
      modifies this, cb, src.cb
      ensures Valid() && src.Valid()
      ensures ptr == old(src.ptr) && cb == old(src.cb)
      ensures old(cb) == src.cb && cb != null ==> cb.Kept()
      ensures old(cb) != src.cb ==>
        && (src.cb != null ==> src.cb.Valid() && src.cb.Observed(this))
        && (old(cb) != null ==> old(cb).Valid() && old(cb).Unobserved(this))
    {
      label Before:
      var copy := new Weak.CopyRelated(src);
      if cb != src.cb { ObserverFramed@Before(this); } else { CoObserverValid(src, this); }
      assert src != copy && src as object !in {cb, copy.cb};
      label Mid:
      Replace(copy);
      assert src != this ==> unchanged@Mid(src);
      CoObserverValid(this, src);
      if old@Before(cb) == src.cb && cb != null {
        UnobserveUndoesObserve(old@Before(cb.State()));
      }
    }

    /** `operator=(WeakPtr&&)` and its `WeakPtr<Y>&&` form: moves the source
        into a temporary, swaps, and releases the temporary. */
    method MoveAssign(src: Weak)
      requires Valid() && src.Valid()
      modifies this, cb, src, src.cb
      ensures Valid() && src.Valid()
      ensures ptr == old(src.ptr) && cb == old(src.cb)
      ensures src == this && cb != null ==> cb.Kept()
      ensures src != this ==> src.IsEmpty()
      ensures src != this && old(cb) != old(src.cb) ==>
        && (old(src.cb) != null ==> old(src.cb).Valid() && old(src.cb).ObserverMoved(src, this))
        && (old(cb) != null ==> old(cb).Valid() && old(cb).Unobserved(this))
      ensures src != this && old(cb) == old(src.cb) && cb != null ==> cb.Unobserved(src)
    {
      label Before:
      var copy := new Weak.Move(src);
      if src != this {
        if cb != old@Before(src.cb) { ObserverFramed@Before(this); } else { ObserverValid(this); }
        assert src !in {this, copy} && src as object !in {cb, copy.cb};
      }
      Replace(copy);
    }

    /** The tail the assignments share: the private `swap` with the temporary
        `tmp`, then `tmp`'s destructor, which drops what it now observes. */
    method Replace(tmp: Weak)
      requires Valid() && tmp.Valid() && tmp != this
      modifies this, tmp, cb, tmp.cb
      ensures Valid() && tmp.IsEmpty()
      ensures ptr == old(tmp.ptr) && cb == old(tmp.cb)
      ensures old(cb) == old(tmp.cb) && cb != null ==> cb.Unobserved(tmp)
      ensures old(cb) != old(tmp.cb) ==>
        && (cb != null ==> cb.ObserverMoved(tmp, this))
        && (old(cb) != null ==> old(cb).Valid() && old(cb).Unobserved(this))
    {
      Swap(tmp);
      tmp.Clear();
    }

    /** `use_count()`: the number of owners of the observed block (not of
        observers), 0 if empty. */
    method UseCount() returns (n: nat)
      requires Valid()
      ensures cb == null ==> n == 0
      ensures cb != null ==> n == |cb.owners|
    {
      if cb == null {
        return 0;
      }
      return cb.shared;
    }

    /** `expired()`: no owner is left, which for a non-empty handle means the
        value has been torn down. */
    method Expired() returns (e: bool)
      requires Valid()
      ensures e <==> cb == null || cb.owners == {}
      ensures cb != null ==> (e <==> cb.torn == [cb.Victim()])
    {
      var n := UseCount();
      e := n == 0;
    }

    /** `lock()`: an empty owner when expired; otherwise one more owner of the
        same block, through a by-value copy of this observer. */
    method Lock() returns (s: Shared)
      requires Valid()
      modifies cb
      ensures Valid() && fresh(s) && s.Valid()
      ensures cb == null ==> s.IsEmpty()
      ensures cb != null && old(cb.shared) == 0 ==> s.IsEmpty() && unchanged(cb)
      ensures cb != null && old(cb.shared) > 0 ==>
        && s.cb == cb
        && s.ptr == (if ptr != Null then ptr else Inside(cb))
        && cb.Valid() && cb.Retained(s)
    {
      var expired := Expired();
      if expired {
        s := new Shared.Empty();
        return;
      }
      var arg := new Weak.Copy(this);
      s := new Shared.Upgrade(arg);
      arg.Clear();
    }
  }

  /** `EnableSharedFromThis<T>`: a value embeds an observer of its own block.
      No constructor of an owning handle ever binds it, so it stays empty. */
  class SelfReference {
    const wptr: Weak

    ghost predicate Valid()
      reads this, wptr
    {
      wptr.IsEmpty()
    }

    constructor ()
      ensures Valid() && fresh(wptr)
    {
      wptr := new Weak.Empty();
    }

    /** `shared_from_this()`: `lock()` on the embedded observer, which is
        never bound, so the result is always an empty handle. */
    method SharedFromThis() returns (s: Shared)
      requires Valid()
      ensures Valid() && fresh(s) && s.Valid() && s.IsEmpty()
    {
      s := wptr.Lock();
    }
  }

  /** `allocateShared<T>(alloc, args...)`: storage for one combined block,
      the block built there with counts (1, 0) and the value built just past
      its record; the handle's `ptr` stays null. */
  method AllocateShared(a: Allocator, v: Value) returns (s: Shared)
    ensures fresh(s) && s.Valid() && s.ptr == Null && s.cb != null && fresh(s.cb)
    ensures s.cb.kind == Combined(v) && s.cb.alloc == a
    ensures s.cb.State() == Created && s.cb.owners == {s} && s.cb.observers == {}
  {
    var b := new Block.ForValue(v, a);
    s := new Shared.FromBlock(b);
  }

  /** `makeShared<T>(args...)`: the same with the default allocator. */
  method MakeShared(v: Value) returns (s: Shared)
    ensures fresh(s) && s.Valid() && s.ptr == Null && s.cb != null && fresh(s.cb)
    ensures s.cb.kind == Combined(v) && s.cb.alloc == DefaultAllocator
    ensures s.cb.State() == Created && s.cb.owners == {s} && s.cb.observers == {}
  {
    var b := new Block.ForValue(v, DefaultAllocator);
    s := new Shared.FromBlock(b);
  }

  /** A block whose storage has been released has no handle left on it. */
  lemma NoOwnerAfterDeallocate(h: Shared)
    requires h.Valid() && h.cb != null
    ensures h.cb.freed == 0 && h.cb.shared >= 1
  {
    RemoveOne(h.cb.owners, h);
  }

  /** The same for an observer: while it observes the block, `deallocate`
      has not run. */
  lemma NoObserverAfterDeallocate(h: Weak)
    requires h.Valid() && h.cb != null
    ensures h.cb.freed == 0 && h.cb.weak >= 1
  {
    RemoveOne(h.cb.observers, h);
  }
}
