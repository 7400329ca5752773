# shared_ptr: control blocks, owning and observing handles

A model of the header-only C++ reference-counting library in
`smart_pointers.h`. It has these parts:

- **Control blocks.** A `BaseControlBlock` holds two counters, `shared` and `weak`. It comes in two kinds:
  - `MakeSharedControlBlock` is the block the factories build; its constructor places the value at `this + 1`, just past the block's own record;
  - `ControlBlock` keeps an adopted pointer and its deleter.
- **Owning handle.** `SharedPtr` is a `(ptr, cb)` pair that owns a share of a block.
- **Observing handle.** `WeakPtr` is the same pair, but it observes the block.
- **Other entry points.** `EnableSharedFromThis::shared_from_this` and the factories `makeShared` and `allocateShared`.

When an owner lets go, `shared` drops by one. At zero, the block runs `destroy` (the value's destructor or the deleter). Once both counters are zero, it runs `deallocate` (frees its storage).

The project has two modules.

- `Lifecycle` (`lifecycle.dfy`) describes the release protocol on values:
  - `Counts` holds the two counters together with how many times `destroy` and `deallocate` have run;
  - there is one transition per handle event;
  - `Run` plays any history of events;
  - lemmas prove that `destroy` runs exactly once and `deallocate` exactly once;
  - they also prove that deallocation never comes before destruction, and that an expired block stays expired.
- `SmartPointers` (`smart_pointers.dfy`) describes the library imperatively:
  - `Block` is a class with the two counters, its kind and its allocator. It records who refers to it as ghost state: the set of owning handles, the set of observing handles, the log of what each `destroy` tore down, and the number of `deallocate` calls.
  - `Block.Valid()` says several things: `shared` is the number of owners, `weak` is the number of observers, every listed handle points back at the block, and the lifecycle agrees with the counters (`Lifecycle.Consistent`).
  - `Shared` and `Weak` are classes with the fields `ptr` and `cb`. Every member keeps the handles and blocks it touches valid. Every member states its new `(ptr, cb)` pair and how each block's `State()` moves, using the `Lifecycle` transitions (`Retain`, `Release`, `Observe`, `Unobserve`) or "unchanged".

A raw `T*` is the datatype `Ptr`:

- `Null`;
- `Raw(addr)`, an address obtained elsewhere;
- `Inside(b)`, the address of the value stored just past block `b`'s record.

The inputs that only pass through are kept as tags: the value (an `int`), the deleter and the allocator.

Where the code and the usual description of `shared_ptr` disagree, the model follows the code:

- **`shared_from_this` always returns an empty handle.** No constructor of `SharedPtr` ever binds the `wptr` member of `EnableSharedFromThis`. `SelfReference.Valid` records that the member is empty.
- **Three constructors have no null check**, so the model requires a non-empty source for each:
  - `WeakPtr(const SharedPtr<T>&)`;
  - `WeakPtr(const WeakPtr&)`;
  - the related-type copy `SharedPtr(const SharedPtr<Y>&)`.

  So does everything reached through them: copy-assignment of a `WeakPtr` from a distinct, empty source dereferences null.
- **`get()` and `lock()` resolve a null `ptr` to `Inside(cb)` on a split block too.** A split block holds a null pointer when null was adopted. The code's `static_cast` to the combined block assumes the combined kind and does not check.
- **`lock()` passes the observer by value.** `lock()` hands the private upgrading constructor a by-value copy of the observer. So `weak` goes up by one and comes back down. `Lifecycle.LockAddsOneOwner` shows that the net effect is exactly one more owner.

## Model

| member | source | states |
|---|---|---|
| Lifecycle.RunConsistent | smart_pointers.h:338-351 | Over any history of copy, drop, observe, lock and clear events, `destroy` has run once exactly when no owner is left. `deallocate` has run once exactly when neither owners nor observers are left. |
| Lifecycle.DestroyedExactlyOnce | smart_pointers.h:342-344 | From a new block with counts (1, 0), under any history, `destroy` runs at most once, and it has run if and only if `shared` is 0. |
| Lifecycle.DeallocatedExactlyOnceAfterDestroy | smart_pointers.h:345-346 | From a new block, under any history, `deallocate` runs at most once and never before `destroy`. It has run if and only if both counters are 0. |
| Lifecycle.Retain | smart_pointers.h:195-202 | A copied owner or an upgrade adds one to `shared` and touches nothing else; it never runs `destroy` or `deallocate`. |
| Lifecycle.Observe | smart_pointers.h:410-436 | A new observer adds one to `weak` and touches nothing else. |
| Lifecycle.Release | smart_pointers.h:342-347 | An owner letting go takes one from `shared`, leaves `weak` alone, runs `destroy` once if and only if `shared` reaches 0, and runs `deallocate` once if and only if both counts are then 0. Otherwise neither log changes. |
| Lifecycle.Unobserve | smart_pointers.h:523-525 | An observer letting go takes one from `weak`, never runs `destroy`, and runs `deallocate` once if and only if both counts are then 0. Otherwise the log does not change. |
| Lifecycle.Lock | smart_pointers.h:504-510 | `lock()`, with its by-value copy into the upgrading constructor of lines 321-335, leaves `weak` and the lifecycle logs as they were and never lowers `shared`. |
| Lifecycle.Step | smart_pointers.h:195-525 | One handle event is possible if and only if the handle it acts through exists (an owner for copy, drop and observe-from-owner; an observer for the rest). It runs `destroy` and `deallocate` each at most once. |
| Lifecycle.Run | smart_pointers.h:195-525 | An empty history leaves the counts as they were. In any possible history the `destroy` and `deallocate` logs only grow. |
| Lifecycle.NothingAfterDeallocate | smart_pointers.h:519-529 | After `deallocate` no event is possible, because no handle is left on the block. |
| Lifecycle.ExpiredForever | smart_pointers.h:320-335 | Once `shared` is 0, no history raises it again or runs `destroy` again: an upgrade of an expired block yields nothing. |
| Lifecycle.ReleaseUndoesRetain | smart_pointers.h:222-230 | Copy-and-swap assignment between owners of the same block ends with the block's counts and history as they were. |
| Lifecycle.UnobserveUndoesObserve | smart_pointers.h:452-460 | Copy-and-swap assignment between observers of the same block ends with the block as it was, with no deallocation. |
| Lifecycle.LockAddsOneOwner | smart_pointers.h:504-510 | `lock()` on a live block is exactly one more owner, even though it copies and drops an observer on the way. On an expired block it changes nothing. |
| Lifecycle.StepConsistent | smart_pointers.h:195-525 | Each single handle event keeps the counters and the lifecycle in step. |
| SmartPointers.Block.ForValue | smart_pointers.h:41-46 | A combined block stores the value, starts with counts (1, 0), has no handles and has no history. |
| SmartPointers.Block.ForPointer | smart_pointers.h:73-74 | A split block stores the adopted pointer and deleter, starts with counts (1, 0), has no handles and has no history. |
| SmartPointers.Block.Destroy | smart_pointers.h:49-81 | `destroy()` tears down the value or the held pointer, appending it to the block's log. |
| SmartPointers.Block.Deallocate | smart_pointers.h:53-80 | `deallocate()` increases the count of storage releases by one. |
| SmartPointers.Shared.Empty | smart_pointers.h:159-160 | A default owner is empty and valid. |
| SmartPointers.Shared.Adopt | smart_pointers.h:162-188 | Adopting `p` creates a fresh split block holding `p` with counts (1, 0). The new handle is its only owner and `ptr == p`. |
| SmartPointers.Shared.FromBlock | smart_pointers.h:315-318 | Only a new combined block can be passed in. The handle takes over that block's initial share, `ptr` stays null, and the handle becomes the block's only owner. |
| SmartPointers.Shared.Copy | smart_pointers.h:198-204 | The copy has the source's pair, and the source's block gains exactly this owner (`shared` + 1). Copying an empty source changes no count. |
| SmartPointers.Shared.CopyRelated | smart_pointers.h:190-196 | The same copy without a null check; it requires a non-empty source. |
| SmartPointers.Shared.Move | smart_pointers.h:206-220 | The new handle takes the pair and replaces the source among the block's owners. The source ends empty and no count changes. |
| SmartPointers.Shared.Upgrade | smart_pointers.h:320-335 | An empty or expired weak source gives an empty owner and leaves the block untouched. Otherwise the result shares the block with one more owner, and a null `ptr` becomes `Inside(cb)`. |
| SmartPointers.Shared.Clear | smart_pointers.h:337-351 | Clearing an empty handle does nothing. Otherwise the block loses exactly this owner under `Release`: `destroy` runs if the count reaches 0, and then `deallocate` if `weak` is 0 too. The handle ends empty. |
| SmartPointers.Shared.Swap | smart_pointers.h:309-313 | Both pairs are exchanged and no count changes. When the blocks differ, each block's owner set swaps one handle for the other. |
| SmartPointers.Shared.CopyAssign | smart_pointers.h:222-230 | The target ends with the source's pair. If it already shared the source's block, the block is unchanged (this covers self-assignment). Otherwise the new block gains this owner and the old block releases it. |
| SmartPointers.Shared.CopyAssignRelated | smart_pointers.h:232-239 | The same for the related-type assignment, with no self-test and a non-empty source. |
| SmartPointers.Shared.MoveAssign | smart_pointers.h:241-255 | The target ends with the source's old pair and the source ends empty. The source's block moves this owner across, and the target's old block releases it. When both were on the same block, that block loses one owner. Self-move changes nothing. |
| SmartPointers.Shared.Replace | smart_pointers.h:227-229 | Swapping with the temporary and then destroying it: the target gets the temporary's pair, and its old share is released from the old block. |
| SmartPointers.Shared.Deref | smart_pointers.h:257-271 | `*`/`->` on a non-empty handle is never null. It is the stored pointer, or else the value inside the block. |
| SmartPointers.Shared.UseCount | smart_pointers.h:278-283 | 0 on an empty handle. Otherwise the number of owning handles on the block, which is at least 1. |
| SmartPointers.Shared.Get | smart_pointers.h:285-294 | Null exactly when the handle is empty. Otherwise the stored pointer, or else `Inside(cb)` when the stored pointer is null. |
| SmartPointers.Shared.Reset | smart_pointers.h:296-299 | The handle ends empty, and its old block loses exactly this owner under `Release`. |
| SmartPointers.Shared.ResetTo | smart_pointers.h:301-307 | The handle ends as the only owner of a fresh split block holding `p`. The old block loses this owner under `Release`. |
| SmartPointers.Weak.Empty | smart_pointers.h:407-408 | A default observer is empty and valid. |
| SmartPointers.Weak.FromShared | smart_pointers.h:410-413 | Observes the owner's block, with the owner's `get()` as pointer. `weak` goes up by exactly 1 and `shared` stays the same. The owner must not be empty. |
| SmartPointers.Weak.FromRelatedShared | smart_pointers.h:415-422 | The same with a null check: an empty owner gives an empty observer. |
| SmartPointers.Weak.Copy | smart_pointers.h:424-427 | Gives one more observer on the same block and the same pair. The source must not be empty. |
| SmartPointers.Weak.CopyRelated | smart_pointers.h:429-436 | The same with a null check: an empty source gives an empty observer and no count changes. |
| SmartPointers.Weak.Move | smart_pointers.h:438-450 | The new handle takes the pair and replaces the source among the observers. The source ends empty and no count changes. |
| SmartPointers.Weak.Clear | smart_pointers.h:518-529 | Clearing an empty handle does nothing. Otherwise the block loses exactly this observer under `Unobserve`: `deallocate` runs if both counts are now 0, and `destroy` never runs. The handle ends empty. |
| SmartPointers.Weak.Swap | smart_pointers.h:512-516 | Both pairs are exchanged and no count changes. When the blocks differ, each block's observer set swaps one handle for the other. |
| SmartPointers.Weak.CopyAssign | smart_pointers.h:452-460 | The target ends with the source's pair. If it already observed the source's block, the block is unchanged (this covers self-assignment). Otherwise the new block gains this observer and the old block drops it. |
| SmartPointers.Weak.CopyAssignRelated | smart_pointers.h:462-469 | The same through the null-checked related-type copy, with no self-test. |
| SmartPointers.Weak.MoveAssign | smart_pointers.h:471-484 | The target ends with the source's old pair and the source ends empty. The observer moves across, and the old block drops the target under `Unobserve`. Self-move changes nothing. |
| SmartPointers.Weak.Replace | smart_pointers.h:457-459 | Swapping with the temporary and then destroying it: the target gets the temporary's pair, and its old observation is dropped. |
| SmartPointers.Weak.UseCount | smart_pointers.h:491-497 | 0 on an empty handle. Otherwise the number of owners (not observers) of the block. |
| SmartPointers.Weak.Expired | smart_pointers.h:499-502 | True if and only if there is no block or no owner is left. On a non-empty handle, that is exactly when the block's value has been torn down. |
| SmartPointers.Weak.Lock | smart_pointers.h:504-510 | An empty or expired observer gives an empty owner, and the block is untouched. Otherwise the result is on the same block with exactly one more owner, and a null `ptr` becomes `Inside(cb)`. |
| SmartPointers.SelfReference.constructor | smart_pointers.h:536-537 | The embedded observer starts empty. |
| SmartPointers.SelfReference.SharedFromThis | smart_pointers.h:531-541 | `shared_from_this()` always yields a valid, empty owner, because the embedded observer is never bound. |
| SmartPointers.AllocateShared | smart_pointers.h:543-554 | Creates a fresh combined block holding the value, with the given allocator and counts (1, 0). The result is its only owner and has a null `ptr`. |
| SmartPointers.MakeShared | smart_pointers.h:556-570 | The same with the default allocator. |
| SmartPointers.NoOwnerAfterDeallocate | smart_pointers.h:342-347 | While an owner refers to a block, that block has not been deallocated and `shared >= 1`. |
| SmartPointers.NoObserverAfterDeallocate | smart_pointers.h:523-525 | While an observer refers to a block, that block has not been deallocated and `weak >= 1`. |

## Left out

- Allocator machinery is not modelled. This covers `allocator_traits` rebinding, placement `new`, the `this + 1` value storage and `[[no_unique_address]]`. An allocator is a tag on the block, and the in-block value is `Inside(b)`.
- The deleter call and the value's destructor are foreign code. `destroy` only records what it tore down, and `deallocate` only counts its calls.
- Template covariance (`Y*` to `T*`) is compile-time only, and a single value type is modelled. The related-type overloads appear as separate members only where their bodies differ (a null check, or no self-assignment test). Elsewhere one member stands for both forms.
- The `static_cast` to `MakeSharedControlBlock<T>` in `operator*`, `operator->`, `get` and the upgrading constructor is read as "the value stored in the block". It is undefined when the block is a split one, and the model still returns `Inside(cb)` there.
- `operator*` and `operator->` return the same address, so `Deref` stands for both. Dereferencing an empty handle is undefined, so `Deref` requires a non-empty one.
- The factories reserve storage for one `MakeSharedControlBlock` only (lines 550 and 564), a record with no `T` member, yet its constructor builds the value at `this + 1` (lines 44-45), past the end of that storage. The model treats the value as part of the combined block and does not capture this out-of-bounds placement.
- `get`, `operator*`, `operator->` and the upgrading constructor find the value through `static_cast<MakeSharedControlBlock<T>*>` (lines 262, 270, 291 and 328), that is, with the default allocator's layout. After `allocateShared` with an allocator that changes the block's size, the address they compute is not where the value was built. The model returns `Inside(cb)` whatever the allocator, so it does not capture this wrong address.
- `Block.Destroy`: the model assumes that `destroy()` (the value's destructor or the deleter) performs no handle operation on the same block. The source does not ensure this. A value that holds the last `WeakPtr` to its own block deallocates the block from inside `destroy()` (lines 523-525). `SharedPtr::clear` then reads `cb->weak` from freed storage (line 345) and may deallocate a second time. `Lifecycle.DestroyedExactlyOnce` and `Lifecycle.DeallocatedExactlyOnceAfterDestroy` hold only under this assumption.
- Exceptions from allocation or from building the value are not modelled: the code has no recovery path.
- Thread safety is not modelled, because the counters are plain integers. The unused `<iostream>` include is also left out.
- `size_t` wrap-around is not modelled: counters are unbounded naturals, since an overflow would need more handles than memory can hold.
- Assignment operators return `*this`; the model's methods return nothing, since the reference carries no information.
- Destructors run implicitly at scope end in C++. In the model, the `Clear` methods stand for destructors, and the temporaries in assignment, `reset` and `lock` are cleared explicitly.
