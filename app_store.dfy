/** The global application store: a loading flag, an error message and three counters. */
module App {
  import opened Wrappers

  /** The store's fields, as a value. */
  datatype StoreState = StoreState(
    isLoading: bool,
    error: Option<string>,
    latestBlockNumber: int,
    totalBlocks: int,
    totalTransactions: int)

  datatype Stats = Stats(latestBlockNumber: int, totalBlocks: int, totalTransactions: int)

  const InitialState := StoreState(false, None, 0, 0, 0)

  /** The `hasError` getter: an error is set, the empty message included. */
  predicate HasError(state: StoreState) {
    state.error != None
  }

  /** `setError('')` still counts as an error: the getter tests against null, not emptiness. */
  lemma EmptyMessageIsAnError(state: StoreState)
    ensures HasError(state.(error := Some("")))
    ensures !HasError(state.(error := None))
    ensures !HasError(InitialState)
  {
  }

  class AppStore {
    var isLoading: bool
    var error: Option<string>
    var latestBlockNumber: int
    var totalBlocks: int
    var totalTransactions: int

    function State(): StoreState
      reads this
    {
      StoreState(isLoading, error, latestBlockNumber, totalBlocks, totalTransactions)
    }

    /** The state factory: not loading, no error, every counter 0. */
    constructor()
      ensures State() == InitialState
    {
      isLoading := false;
      error := None;
      latestBlockNumber := 0;
      totalBlocks := 0;
      totalTransactions := 0;
    }

    /** `hasError` read on the live store. */
    function HasErrorNow(): (b: bool)
      reads this
      ensures b <==> HasError(State())
    {
      error != None
    }

    method SetLoading(loading: bool)
      modifies this
      ensures State() == old(State()).(isLoading := loading)
    {
      isLoading := loading;
    }

    method SetError(error: Option<string>)
      modifies this
      ensures State() == old(State()).(error := error)
      ensures HasErrorNow() <==> error.Some?
    {
      this.error := error;
    }

    /** Copies the three counters; the loading flag and the error stay as they were. */
    method UpdateStats(stats: Stats)
      modifies this
      ensures State() == old(State()).(latestBlockNumber := stats.latestBlockNumber,
                                        totalBlocks := stats.totalBlocks,
                                        totalTransactions := stats.totalTransactions)
    {
      latestBlockNumber := stats.latestBlockNumber;
      totalBlocks := stats.totalBlocks;
      totalTransactions := stats.totalTransactions;
    }

    /** Clears the error: afterwards `hasError` is false; clearing again changes nothing. */
    method ClearError()
      modifies this
      ensures State() == old(State()).(error := None)
      ensures !HasErrorNow()
      ensures old(error) == None ==> State() == old(State())
    {
      error := None;
    }
  }
}
