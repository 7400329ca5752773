/** The two-counter release protocol of one control block, on values.

    A control block carries a count of owning handles (`shared`) and a count
    of observing handles (`weak`). Its value is torn down (`destroy`) when the
    last owner lets go, and its own storage is released (`deallocate`) when
    both counts are zero. `Counts` records the two counters together with how
    many times each lifecycle operation has run, so that "exactly once" and
    "never before" can be stated about any history of handle operations. */
module Lifecycle {

  datatype Counts = Counts(shared: nat, weak: nat, destroys: nat, deallocs: nat)

  /** Every block starts with one owner and no observer: the adopting
      constructor and both factories build it with counts (1, 0). */
  const Created: Counts := Counts(1, 0, 0, 0)

  /** What the counters imply about the lifecycle: the value has been torn
      down exactly when no owner is left, and the storage released exactly
      when neither owners nor observers are left. */
  ghost predicate Consistent(c: Counts) {
    && c.destroys == (if c.shared == 0 then 1 else 0)
    && c.deallocs == (if c.shared == 0 && c.weak == 0 then 1 else 0)
  }

  /** `++cb->shared`: one more owner. */
  function Retain(c: Counts): (r: Counts)
    ensures r.shared == c.shared + 1 && r.weak == c.weak
    ensures r.destroys == c.destroys && r.deallocs == c.deallocs
  {
    c.(shared := c.shared + 1)
  }

  /** `++cb->weak`: one more observer. */
  function Observe(c: Counts): (r: Counts)
    ensures r.weak == c.weak + 1 && r.shared == c.shared
    ensures r.destroys == c.destroys && r.deallocs == c.deallocs
  {
    c.(weak := c.weak + 1)
  }

  /** An owner lets go: decrement `shared`; on reaching zero run `destroy`,
      and then `deallocate` as well if no observer is left. */
  function Release(c: Counts): (r: Counts)
    requires c.shared > 0
    ensures r.shared == c.shared - 1 && r.weak == c.weak
    ensures r.destroys == c.destroys + 1 <==> r.shared == 0
    ensures c.destroys <= r.destroys <= c.destroys + 1
    ensures c.deallocs <= r.deallocs <= c.deallocs + 1
    ensures r.deallocs == c.deallocs + 1 <==> r.shared == 0 && r.weak == 0
  {
    var s := c.shared - 1;
    c.(shared := s,
       destroys := if s == 0 then c.destroys + 1 else c.destroys,
       deallocs := if s == 0 && c.weak == 0 then c.deallocs + 1 else c.deallocs)
  }

  /** An observer lets go: decrement `weak`, and run `deallocate` if both
      counts are now zero. It never runs `destroy`. */
  function Unobserve(c: Counts): (r: Counts)
    requires c.weak > 0
    ensures r.weak == c.weak - 1 && r.shared == c.shared && r.destroys == c.destroys
    ensures c.deallocs <= r.deallocs <= c.deallocs + 1
    ensures r.deallocs == c.deallocs + 1 <==> r.shared == 0 && r.weak == 0
  {
    var w := c.weak - 1;
    c.(weak := w,
       deallocs := if c.shared == 0 && w == 0 then c.deallocs + 1 else c.deallocs)
  }

  /** `lock()` on an observer: nothing when the block has expired; otherwise
      the observer is copied into the by-value parameter of the upgrading
      constructor, the new owner is counted, and the copy is dropped. */
  function Lock(c: Counts): (r: Counts)
    requires c.weak > 0
    ensures r.weak == c.weak && r.shared >= c.shared
    ensures r.destroys == c.destroys && r.deallocs == c.deallocs
  {
    if c.shared == 0 then c else Unobserve(Retain(Observe(c)))
  }

  /** The operations handles perform on a block. Moves and swaps transfer a
      handle without touching any count, so they are not events. */
  datatype Event =
    | CopyOwner     // a new owner copied from an existing owner
    | DropOwner     // an owner is cleared (destructor, reset, assignment)
    | ObserveOwner  // an observer formed from an existing owner
    | CopyObserver  // an observer copied from an existing observer
    | DropObserver  // an observer is cleared
    | LockObserver  // lock() called on an existing observer

  /** One event, when the handle it needs exists: an owner for the first
      three, an observer for the last three. `None` when it does not. */
  function Step(c: Counts, e: Event): (r: Option<Counts>)
    ensures r.Some? <==> if NeedsOwner(e) then c.shared > 0 else c.weak > 0
    ensures r.Some? ==> c.destroys <= r.value.destroys <= c.destroys + 1
    ensures r.Some? ==> c.deallocs <= r.value.deallocs <= c.deallocs + 1
  {
    match e
    case CopyOwner => if c.shared > 0 then Some(Retain(c)) else None
    case DropOwner => if c.shared > 0 then Some(Release(c)) else None
    case ObserveOwner => if c.shared > 0 then Some(Observe(c)) else None
    case CopyObserver => if c.weak > 0 then Some(Observe(c)) else None
    case DropObserver => if c.weak > 0 then Some(Unobserve(c)) else None
    case LockObserver => if c.weak > 0 then Some(Lock(c)) else None
  }

  /** The first three events act through an owner, the last three through
      an observer. */
  predicate NeedsOwner(e: Event) {
    e.CopyOwner? || e.DropOwner? || e.ObserveOwner?
  }

  /** A history of events, left to right; `None` as soon as one of them
      needs a handle that does not exist. The lifecycle logs only grow. */
  function Run(c: Counts, events: seq<Event>): (r: Option<Counts>)
    ensures events == [] ==> r == Some(c)
    ensures r.Some? ==> c.destroys <= r.value.destroys && c.deallocs <= r.value.deallocs
    decreases |events|
  {
    if events == [] then Some(c)
    else match Step(c, events[0])
      case None => None
      case Some(d) => Run(d, events[1..])
  }

  datatype Option<T> = None | Some(value: T)

  /** Copy-and-swap assignment between two owners of the same block counts
      the copy and then drops the old owner: the block ends as it began. */
  lemma ReleaseUndoesRetain(c: Counts)
    requires c.shared > 0
    ensures Release(Retain(c)) == c
  {
  }

  /** The observer copied for the upgrade is dropped again, and nothing is
      deallocated on the way: `lock()` on a live block adds one owner, no more. */
  lemma LockAddsOneOwner(c: Counts)
    requires c.weak > 0
    ensures c.shared > 0 ==> Lock(c) == Retain(c)
    ensures c.shared == 0 ==> Lock(c) == c
  {
  }

  /** Copy-and-swap assignment between two observers of the same block
      counts the copy and then drops the old observer: the block ends as it
      began, and nothing is deallocated on the way. */
  lemma UnobserveUndoesObserve(c: Counts)
    requires c.weak > 0
    ensures Unobserve(Observe(c)) == c
  {
  }

  /** Every enabled event keeps the counters and the lifecycle in step. */
  lemma StepConsistent(c: Counts, e: Event)
    requires Consistent(c)
    requires Step(c, e).Some?
    ensures Consistent(Step(c, e).value)
  {
  }

  /** Any history keeps the counters and the lifecycle in step. */
  lemma {:induction false} RunConsistent(c: Counts, events: seq<Event>)
    requires Consistent(c)
    requires Run(c, events).Some?
    ensures Consistent(Run(c, events).value)
    decreases |events|
  {
    if events != [] {
      StepConsistent(c, events[0]);
      RunConsistent(Step(c, events[0]).value, events[1..]);
    }
  }

  /** From creation, whatever the handles do: `destroy` has run at most once,
      and it has run exactly when the last owner is gone. */
  lemma DestroyedExactlyOnce(events: seq<Event>)
    requires Run(Created, events).Some?
    ensures Run(Created, events).value.destroys <= 1
    ensures Run(Created, events).value.destroys == 1 <==> Run(Created, events).value.shared == 0
  {
    RunConsistent(Created, events);
  }

  /** From creation, whatever the handles do: `deallocate` has run at most
      once, exactly when both counts are zero, and never before `destroy`. */
  lemma DeallocatedExactlyOnceAfterDestroy(events: seq<Event>)
    requires Run(Created, events).Some?
    ensures Run(Created, events).value.deallocs <= 1
    ensures Run(Created, events).value.deallocs <= Run(Created, events).value.destroys
    ensures var d := Run(Created, events).value;
      d.deallocs == 1 <==> d.shared == 0 && d.weak == 0
  {
    RunConsistent(Created, events);
  }

  /** Once `deallocate` has run no handle refers to the block any more: no
      further event is possible, so it stays the last operation on the block. */
  lemma {:induction false} NothingAfterDeallocate(c: Counts, events: seq<Event>)
    requires Consistent(c) && c.deallocs == 1
    ensures Run(c, events).Some? <==> events == []
  {
    if events != [] {
      assert Step(c, events[0]).None?;
    }
  }

  /** Once the last owner is gone the block stays expired: no history brings
      an owner back, and `destroy` never runs a second time. */
  lemma {:induction false} ExpiredForever(c: Counts, events: seq<Event>)
    requires c.shared == 0
    requires Run(c, events).Some?
    ensures Run(c, events).value.shared == 0
    ensures Run(c, events).value.destroys == c.destroys
    decreases |events|
  {
    if events != [] {
      var d := Step(c, events[0]).value;
      assert d.shared == 0 && d.destroys == c.destroys;
      ExpiredForever(d, events[1..]);
    }
  }
}
