/** The parts of the reducer that work in place: the three-form effect collection, and the
    activating state whose waiters are pushed and retained. Each is proved against the plain
    sequence or the pure decision it stands for. */
module EffectBatch {
  import opened Common
  import opened Lifecycle

  datatype EffectStorage<T> = Empty | One(effect: T) | Many(effects: seq<T>) {
    function Contents(): seq<T> {
      match this
      case Empty => []
      case One(effect) => [effect]
      case Many(effects) => effects
    }

    /** Zero and one effect are never kept in a list. */
    predicate Compact() {
      Many? ==> |effects| >= 2
    }
  }

  /** A sequence of effects has one compact form, so its form depends on its length alone. */
  lemma StorageIsCanonical<T>(a: EffectStorage<T>, b: EffectStorage<T>)
    requires a.Compact() && b.Compact()
    ensures a == b <==> a.Contents() == b.Contents()
    ensures (a.Empty? <==> |a.Contents()| == 0) && (a.One? <==> |a.Contents()| == 1)
  {
    if a.One? && b.One? && a.Contents() == b.Contents() {
      assert a.Contents()[0] == b.Contents()[0];
    }
  }

  class SlotEffectBatch<T> {
    var storage: EffectStorage<T>

    ghost predicate Valid()
      reads this
    {
      storage.Compact()
    }

    ghost function Contents(): seq<T>
      reads this
    {
      storage.Contents()
    }

    constructor ()
      ensures Valid() && Contents() == []
    {
      storage := Empty;
    }

    constructor OfOne(effect: T)
      ensures Valid() && Contents() == [effect]
    {
      storage := One(effect);
    }

    method Push(effect: T)
      requires Valid()
      modifies this
      ensures Valid() && Contents() == old(Contents()) + [effect]
    {
      match storage {
        case Empty => storage := One(effect);
        case One(first) => storage := Many([first, effect]);
        case Many(effects) => storage := Many(effects + [effect]);
      }
    }

    method Extend(effects: seq<T>)
      requires Valid()
      modifies this
      ensures Valid() && Contents() == old(Contents()) + effects
    {
      for i := 0 to |effects|
        invariant Valid() && Contents() == old(Contents()) + effects[..i]
      {
        Push(effects[i]);
      }
    }

    method IntoVec() returns (effects: seq<T>)
      requires Valid()
      ensures effects == Contents()
    {
      match storage {
        case Empty => effects := [];
        case One(effect) => effects := [effect];
        case Many(all) => effects := all;
      }
    }

    /** Append everything `rhs` holds. */
    method Add(rhs: SlotEffectBatch<T>)
      requires Valid() && rhs.Valid() && rhs != this
      modifies this
      ensures Valid() && Contents() == old(Contents()) + rhs.Contents()
    {
      match rhs.storage {
        case Empty =>
        case One(effect) => Push(effect);
        case Many(effects) => Extend(effects);
      }
    }
  }

  type Batch<C, E, L> = SlotEffectBatch<SlotEffect<C, E, L>>

  /** The activating state, which retains its waiters in place. */
  class ActivatingSlot<C, E, L> {
    const activationId: Identity
    const waiterLimit: Positive
    var waiters: seq<Waiter<C>>

    /** The slot value this object holds. */
    ghost function Value(): EntitySlot<C, E, L>
      reads this
    {
      EntitySlot.Activating(activationId, waiters, waiterLimit)
    }

    constructor (activationId: Identity, waiters: seq<Waiter<C>>, waiterLimit: Positive)
      ensures Value() == EntitySlot.Activating(activationId, waiters, waiterLimit)
    {
      this.activationId := activationId;
      this.waiters := waiters;
      this.waiterLimit := waiterLimit;
    }

    /** Keep the waiters of every other dispatch, in order. */
    method RetainOthers(d: Identity)
      modifies this
      ensures waiters == WithoutWaiter(old(waiters), d)
    {
      var kept: seq<Waiter<C>> := [];
      for i := 0 to |waiters|
        invariant waiters == old(waiters)
        invariant kept == WithoutWaiter(waiters[..i], d)
      {
        assert waiters[..i + 1][..i] == waiters[..i];
        if waiters[i].dispatchId != d {
          kept := kept + [waiters[i]];
        }
      }
      assert waiters[..|waiters|] == waiters;
      waiters := kept;
    }

    /** One delivery per waiter, in arrival order, and as many reservations. */
    method Finish(endpoint: E, lease: L) returns (next: EntitySlot<C, E, L>, effects: Batch<C, E, L>)
      ensures fresh(effects) && effects.Valid()
      ensures next == EntitySlot.Active(activationId, endpoint, lease, ReservationCount.FromLen(|waiters|))
      ensures effects.Contents() == DeliverAll(waiters, activationId, endpoint)
    {
      effects := new SlotEffectBatch();
      for i := 0 to |waiters|
        invariant fresh(effects) && effects.Valid()
        invariant effects.Contents() == DeliverAll<C, E, L>(waiters, activationId, endpoint)[..i]
      {
        effects.Push(Deliver(activationId, waiters[i].dispatchId, endpoint, waiters[i].command));
      }
      next := EntitySlot.Active(activationId, endpoint, lease, ReservationCount.FromLen(|waiters|));
    }

    /** One refusal per waiter, in arrival order, then the removal. */
    method Fail() returns (next: EntitySlot<C, E, L>, effects: Batch<C, E, L>)
      ensures fresh(effects) && effects.Valid()
      ensures next.Inactive? && effects.Contents() == RejectAll(waiters) + [Remove(activationId)]
    {
      effects := new SlotEffectBatch();
      for i := 0 to |waiters|
        invariant fresh(effects) && effects.Valid()
        invariant effects.Contents() == RejectAll<C, E, L>(waiters)[..i]
      {
        effects.Push(Reject(waiters[i].dispatchId, waiters[i].command, Unavailable));
      }
      effects.Push(Remove(activationId));
      next := EntitySlot.Inactive;
    }

    /** The state kept as it is now, with nothing or one refusal to interpret. */
    method Kept(refused: Option<SlotEffect<C, E, L>>) returns (next: EntitySlot<C, E, L>, effects: Batch<C, E, L>)
      ensures fresh(effects) && effects.Valid() && next == Value()
      ensures effects.Contents() == if refused.Some? then [refused.value] else []
    {
      next := EntitySlot.Activating(activationId, waiters, waiterLimit);
      if refused.Some? {
        effects := new SlotEffectBatch.OfOne(refused.value);
      } else {
        effects := new SlotEffectBatch();
      }
    }

    /** The in-place decision is the pure one. */
    method Decide(event: SlotEvent<C, E, L>) returns (next: EntitySlot<C, E, L>, effects: Batch<C, E, L>)
      modifies this
      ensures fresh(effects) && effects.Valid()
      ensures Decision(next, effects.Contents()) == Reduce(old(Value()), event)
    {
      match event {
        case Dispatch(d, command) =>
          if |waiters| < waiterLimit {
            waiters := waiters + [Waiter(d, command)];
            next, effects := Kept(None);
          } else {
            next, effects := Kept(Some(Reject(d, command, Busy)));
          }
        case CancelWaiter(g, d) =>
          if g == activationId {
            RetainOthers(d);
          }
          next, effects := Kept(None);
        case ActivationSucceeded(g, endpoint, lease) =>
          if g == activationId {
            next, effects := Finish(endpoint, lease);
          } else {
            next, effects := Kept(Some(Retire(g, lease, Forced(DrainFailure(Retirement, 0)))));
          }
        case ActivationFailed(g) =>
          if g == activationId {
            next, effects := Fail();
          } else {
            next, effects := Kept(None);
          }
        case ClaimActivation(_, d, command, _) => next, effects := Kept(Some(Reject(d, command, Busy)));
        case DeliveryResolved(_, failure) =>
          next, effects := Kept(
            if failure.Some? then Some(Reject(failure.value.dispatchId, failure.value.command, Unavailable)) else None);
        case _ => next, effects := Kept(None);
      }
    }
  }

  /** Fold facts through a slot, adding up the effects of every decision. */
  method DecideEvery<C, E, L>(state: EntitySlot<C, E, L>, events: seq<SlotEvent<C, E, L>>)
    returns (next: EntitySlot<C, E, L>, effects: Batch<C, E, L>)
    ensures fresh(effects) && effects.Valid()
    ensures Decision(next, effects.Contents()) == DecideAll(state, events)
  {
    hide Reduce;
    next := state;
    effects := new SlotEffectBatch();
    for i := 0 to |events|
      invariant fresh(effects) && effects.Valid()
      invariant Decision(next, effects.Contents()) == DecideAll(state, events[..i])
    {
      assert events[..i + 1][..i] == events[..i];
      var decision := Reduce(next, events[i]);
      var more := new SlotEffectBatch();
      more.Extend(decision.effects);
      effects.Add(more);
      next := decision.state;
    }
    assert events[..|events|] == events;
  }
}
