/**
 * The new-block signal: one module-level counter that every
 * `useBlockchainEvents()` caller shares and any of them may increment.
 */
module BlockchainEvents {

  /** The module-level `newBlockEvent` ref, with the number of triggers so far. */
  class Counter {
    var value: int
    ghost var triggers: nat

    /** The counter always equals the number of triggers since the module was loaded. */
    ghost predicate Valid()
      reads this
    {
      value == triggers
    }

    /** Module load: the counter starts at 0. */
    constructor()
      ensures Valid() && value == 0 && triggers == 0
    {
      value := 0;
      triggers := 0;
    }
  }

  /** What one `useBlockchainEvents()` call returns. */
  class Handle {
    const newBlockEvent: Counter

    constructor(shared: Counter)
      ensures newBlockEvent == shared
    {
      newBlockEvent := shared;
    }

    /** `triggerNewBlockEvent`: one more than before, never less. */
    method TriggerNewBlockEvent()
      requires newBlockEvent.Valid()
      modifies newBlockEvent
      ensures newBlockEvent.Valid()
      ensures newBlockEvent.value == old(newBlockEvent.value) + 1
      ensures newBlockEvent.triggers == old(newBlockEvent.triggers) + 1
    {
      newBlockEvent.value := newBlockEvent.value + 1;
      newBlockEvent.triggers := newBlockEvent.triggers + 1;
    }
  }

  /** The module itself: its one counter, handed to every caller. */
  class EventsModule {
    const newBlockEvent: Counter

    constructor()
      ensures newBlockEvent.Valid() && newBlockEvent.value == 0
    {
      newBlockEvent := new Counter();
    }

    /** `useBlockchainEvents()`: a new handle over the same counter. */
    method UseBlockchainEvents() returns (h: Handle)
      ensures fresh(h) && h.newBlockEvent == newBlockEvent
    {
      h := new Handle(newBlockEvent);
    }

    /** A trigger through one caller's handle is seen through another's. */
    method TriggerSeenByOthers() returns (seenBySecond: int)
      requires newBlockEvent.Valid()
      modifies newBlockEvent
      ensures newBlockEvent.Valid()
      ensures newBlockEvent.value == old(newBlockEvent.value) + 1
      ensures newBlockEvent.triggers == old(newBlockEvent.triggers) + 1
      ensures seenBySecond == newBlockEvent.value
    {
      var first := UseBlockchainEvents();
      var second := UseBlockchainEvents();
      first.TriggerNewBlockEvent();
      seenBySecond := second.newBlockEvent.value;
    }
  }
}
