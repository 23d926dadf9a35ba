/**
 * Search: classify a raw query as a block number, a hash or neither, then
 * look it up and either navigate to the matching detail page or show an
 * error message.
 */
module Search {
  import opened Wrappers
  import opened Text
  import opened Regex
  import opened Helpers
  import opened Query
  import Blocks
  import Transactions

  datatype QueryType = BlockNumber | Hash | Invalid

  const EmptyQueryMessage := "Please enter a search query"
  const BlockNotFoundMessage := "Block not found"
  const HashNotFoundMessage := "Hash not found. Please verify the transaction or block hash."
  const InvalidQueryMessage := "Invalid search query. Please enter a block number or a transaction/block hash."
  /** Shown when a lookup throws; neither lookup ever does. */
  const SearchFailedMessage := "Search failed. Please try again."

  /** The string the classifier tests: trimmed, then every comma removed. */
  function Normalize(query: string): string {
    RemoveCommas(Trim(query))
  }

  /**
   * `detectQueryType`: the normalised query is a block number when it matches
   * `^\d+$`, else a hash when it matches `^0x[a-fA-F0-9]{64}$`, else invalid.
   */
  function DetectQueryType(query: string): (t: QueryType)
    ensures t == BlockNumber <==> IsValidBlockNumber(Normalize(query))
    ensures t == Hash <==> IsValidTransactionHash(Normalize(query))
  {
    var trimmed := Normalize(query);
    ValidatorsDisjoint(trimmed);
    if IsValidBlockNumber(trimmed) then BlockNumber
    else if IsValidTransactionHash(trimmed) then Hash
    else Invalid
  }

  /**
   * The classes by the shape of the normalised query: one or more ASCII
   * digits; `0x` then exactly 64 hex digits of either case; anything else.
   */
  lemma ClassificationShape(query: string)
    ensures var n := Normalize(query);
      && (DetectQueryType(query) == BlockNumber <==> |n| >= 1 && AllDigits(n))
      && (DetectQueryType(query) == Hash <==> |n| == 66 && n[..2] == "0x" && AllHexDigits(n[2..]))
      && (DetectQueryType(query) == Invalid <==> !IsValidBlockNumber(n) && !IsValidTransactionHash(n))
  {
    var n := Normalize(query);
    BlockNumberShape(n);
    TransactionHashShape(n);
    ValidatorsDisjoint(n);
  }

  /** Commas anywhere in a digit string are ignored: `123,456` is block 123456. */
  lemma ThousandsSeparatorsIgnored(a: string, b: string)
    requires |a| >= 1 && AllDigits(a) && |b| >= 1 && AllDigits(b)
    ensures DetectQueryType(a + "," + b) == BlockNumber
    ensures Normalize(a + "," + b) == a + b
  {
    var q := a + "," + b;
    assert q[0] == a[0] && q[|q| - 1] == b[|b| - 1];
    TrimUnchanged(q);
    var cb := "," + b;
    assert q == a + cb;
    RemoveCommasAppend(a, cb);
    assert cb[0] == ',' && cb[1..] == b;
    assert RemoveCommas(cb) == RemoveCommas(b);
    NoCommaInDigits(a);
    NoCommaInDigits(b);
    assert Normalize(q) == a + b;
    var n := a + b;
    assert forall i :: 0 <= i < |n| ==> IsDigit(n[i]) by {
      forall i | 0 <= i < |n| ensures IsDigit(n[i]) {
        if i < |a| { assert n[i] == a[i]; } else { assert n[i] == b[i - |a|]; }
      }
    }
    ClassificationShape(q);
  }

  lemma NoCommaInDigits(s: string)
    requires AllDigits(s)
    ensures RemoveCommas(s) == s
  {
    assert ',' !in s by {
      forall i | 0 <= i < |s| ensures s[i] != ',' { assert IsDigit(s[i]); }
    }
  }

  // ---------------------------------------------------------------------------
  // One search, as a value.

  /** A lookup the search performs, with the argument it passes. */
  datatype Lookup = TransactionLookup(hash: string) | BlockLookup(identifier: Blocks.Identifier)

  /** How a search ends: a blank query, a navigation, or an error message. */
  datatype Outcome = Blank | Navigated(path: string) | Failed(message: string)

  datatype SearchTrace = SearchTrace(lookups: seq<Lookup>, outcome: Outcome)

  type TransactionNetwork = Variables -> ExecuteOutcome<Transactions.TransactionQueryResult>
  type BlockNetwork = Variables -> ExecuteOutcome<Blocks.BlockQueryResult>

  /** The block number a block-number query denotes: `parseInt` of the normalised query. */
  function ParsedBlockNumber(query: string): nat
    requires DetectQueryType(query) == BlockNumber
  {
    ClassificationShape(query);
    DecimalValue(Normalize(query))
  }

  /** The lookups `search` performs and how it ends, for the given network answers. */
  function SearchRun(query: string, txNetwork: TransactionNetwork, blockNetwork: BlockNetwork): (run: SearchTrace)
    ensures run.outcome == Blank <==> Trim(query) == []
    ensures run.outcome == Blank ==> run.lookups == []
    ensures run.outcome.Navigated? ==> 1 <= |run.lookups|
    ensures |run.lookups| <= 2
  {
    if Trim(query) == [] then SearchTrace([], Blank)
    else match DetectQueryType(query)
      case BlockNumber =>
        var n := ParsedBlockNumber(query);
        var lookups := [BlockLookup(Blocks.NumberId(n))];
        if Blocks.FetchBlockByIdentifier(Blocks.NumberId(n), blockNetwork).Some?
        then SearchTrace(lookups, Navigated("/blocks/" + NatToDecimal(n)))
        else SearchTrace(lookups, Failed(BlockNotFoundMessage))
      case Hash =>
        var q := Trim(query);
        if Transactions.FetchTransactionByHash(q, txNetwork).Some?
        then SearchTrace([TransactionLookup(q)], Navigated("/transactions/" + q))
        else
          var lookups := [TransactionLookup(q), BlockLookup(Blocks.StringId(q))];
          if Blocks.FetchBlockByIdentifier(Blocks.StringId(q), blockNetwork).Some?
          then SearchTrace(lookups, Navigated("/blocks/" + q))
          else SearchTrace(lookups, Failed(HashNotFoundMessage))
      case Invalid => SearchTrace([], Failed(InvalidQueryMessage))
  }

  /** A blank query is rejected before any classification or lookup; no other query is. */
  lemma BlankQueryRejected(query: string, txNetwork: TransactionNetwork, blockNetwork: BlockNetwork)
    ensures var run := SearchRun(query, txNetwork, blockNetwork);
      && (run.outcome == Blank <==> AllWhitespace(query))
      && (run.outcome == Blank ==> run.lookups == [])
  {
    TrimEmptyIff(query);
  }

  /**
   * A block-number query makes one lookup, by the parsed number, whose
   * identifier is that number's decimal text; it navigates to that block's
   * page exactly when the lookup finds a block, else reports it not found.
   */
  lemma BlockNumberSearch(query: string, txNetwork: TransactionNetwork, blockNetwork: BlockNetwork)
    requires Trim(query) != [] && DetectQueryType(query) == BlockNumber
    ensures var run := SearchRun(query, txNetwork, blockNetwork);
      var n := ParsedBlockNumber(query);
      && run.lookups == [BlockLookup(Blocks.NumberId(n))]
      && Blocks.IdentifierString(Blocks.NumberId(n)) == NatToDecimal(n)
      && DecimalValue(NatToDecimal(n)) == n
      && (run.outcome == Navigated("/blocks/" + NatToDecimal(n))
          <==> Blocks.FetchBlockByIdentifier(Blocks.NumberId(n), blockNetwork).Some?)
      && (run.outcome.Failed? <==> run.outcome == Failed(BlockNotFoundMessage))
      && (Blocks.FetchBlockByIdentifier(Blocks.NumberId(n), blockNetwork).None? ==> run.outcome == Failed(BlockNotFoundMessage))
      && (Canonical(Normalize(query)) ==> NatToDecimal(n) == Normalize(query))
  {
    var n := ParsedBlockNumber(query);
    Blocks.NumberAndTextAgree(n);
    ClassificationShape(query);
    if Canonical(Normalize(query)) {
      CanonicalRoundTrip(Normalize(query));
    }
  }

  /**
   * A hash query looks up a transaction first, with the trimmed query, commas
   * kept; it looks up a block only when no transaction was found. It
   * navigates with the trimmed query to the transaction, else to the block,
   * else reports the hash not found.
   */
  lemma HashSearch(query: string, txNetwork: TransactionNetwork, blockNetwork: BlockNetwork)
    requires Trim(query) != [] && DetectQueryType(query) == Hash
    ensures var run := SearchRun(query, txNetwork, blockNetwork);
      var q := Trim(query);
      var tx := Transactions.FetchTransactionByHash(q, txNetwork);
      var block := Blocks.FetchBlockByIdentifier(Blocks.StringId(q), blockNetwork);
      && |run.lookups| >= 1 && run.lookups[0] == TransactionLookup(q)
      && (|run.lookups| == 2 <==> tx.None?)
      && (tx.None? ==> run.lookups[1] == BlockLookup(Blocks.StringId(q)))
      && Blocks.IdentifierString(Blocks.StringId(q)) == Normalize(query)
      && (run.outcome == Navigated("/transactions/" + q) <==> tx.Some?)
      && (run.outcome == Navigated("/blocks/" + q) <==> tx.None? && block.Some?)
      && (run.outcome == Failed(HashNotFoundMessage) <==> tx.None? && block.None?)
  {
    var q := Trim(query);
    assert ("/transactions/" + q)[1] == 't';
    assert ("/blocks/" + q)[1] == 'b';
  }

  /** A query that is neither a block number nor a hash is rejected without any lookup. */
  lemma InvalidSearch(query: string, txNetwork: TransactionNetwork, blockNetwork: BlockNetwork)
    requires Trim(query) != [] && DetectQueryType(query) == Invalid
    ensures SearchRun(query, txNetwork, blockNetwork) == SearchTrace([], Failed(InvalidQueryMessage))
    ensures !IsValidBlockNumber(Normalize(query)) && !IsValidTransactionHash(Normalize(query))
  {
    ClassificationShape(query);
  }

  /**
   * Every navigation follows a successful lookup of what it names, made last;
   * every error is one of the three messages, never the one for a thrown lookup.
   */
  lemma NavigationFollowsHit(query: string, txNetwork: TransactionNetwork, blockNetwork: BlockNetwork)
    ensures var run := SearchRun(query, txNetwork, blockNetwork);
      && (run.outcome.Navigated? ==>
            |run.lookups| >= 1 && LookupHits(run.lookups[|run.lookups| - 1], txNetwork, blockNetwork))
      && (run.outcome.Failed? ==>
            run.outcome.message in {BlockNotFoundMessage, HashNotFoundMessage, InvalidQueryMessage})
      && run.outcome != Failed(SearchFailedMessage)
  {
    var run := SearchRun(query, txNetwork, blockNetwork);
    if run.outcome.Failed? {
      var m := run.outcome.message;
      assert m == BlockNotFoundMessage || m == HashNotFoundMessage || m == InvalidQueryMessage;
      assert |SearchFailedMessage| == 32;
      assert |BlockNotFoundMessage| == 15 && |HashNotFoundMessage| == 60 && |InvalidQueryMessage| == 78;
    }
  }

  predicate LookupHits(lookup: Lookup, txNetwork: TransactionNetwork, blockNetwork: BlockNetwork) {
    match lookup
    case TransactionLookup(h) => Transactions.FetchTransactionByHash(h, txNetwork).Some?
    case BlockLookup(id) => Blocks.FetchBlockByIdentifier(id, blockNetwork).Some?
  }

  /**
   * A comma inside a hash query passes classification, but the transaction
   * lookup and the navigation path receive the query with its comma.
   */
  lemma CommaInHashQuery() returns (query: string)
    ensures DetectQueryType(query) == Hash
    ensures ',' in Trim(query) && !IsValidTransactionHash(Trim(query))
  {
    var digits := seq(64, _ => 'a');
    query := "0x," + digits;
    assert query[0] == '0' && query[|query| - 1] == 'a';
    TrimUnchanged(query);
    assert query == "0x" + ("," + digits);
    RemoveCommasAppend("0x", "," + digits);
    assert ("," + digits)[1..] == digits;
    assert ',' !in digits;
    var n := "0x" + digits;
    assert Normalize(query) == n;
    assert n[2..] == digits && n[..2] == "0x";
    ClassificationShape(query);
    TransactionHashShape(query);
    assert query[2] == ',';
  }

  // ---------------------------------------------------------------------------
  // The composable's state.

  /** The router: the paths pushed so far. */
  class Router {
    var history: seq<string>

    constructor()
      ensures history == []
    {
      history := [];
    }

    /** `router.push(path)` */
    method Push(path: string)
      modifies this
      ensures history == old(history) + [path]
    {
      history := history + [path];
    }
  }

  /** A lookup as it was made, with the search state at that moment. */
  datatype LookupCall = LookupCall(lookup: Lookup, searching: bool, searchError: Option<string>)

  function MadeWhileSearching(lookups: seq<Lookup>): (calls: seq<LookupCall>)
    ensures |calls| == |lookups|
    ensures forall i :: 0 <= i < |lookups| ==> calls[i] == LookupCall(lookups[i], true, None)
  {
    seq(|lookups|, i requires 0 <= i < |lookups| => LookupCall(lookups[i], true, None))
  }

  /** The `searching` and `searchError` refs of one `useSearch()` instance. */
  class SearchState {
    var searching: bool
    var searchError: Option<string>
    const router: Router
    /** Every lookup made so far, in order. */
    ghost var calls: seq<LookupCall>

    constructor(router: Router)
      ensures this.router == router
      ensures !searching && searchError == None && calls == []
    {
      this.router := router;
      searching := false;
      searchError := None;
      calls := [];
    }

    /**
     * `search(query)`: a blank query only sets the empty-query message.
     * Otherwise `searching` is raised and the error cleared before any lookup,
     * the lookups and the outcome are those of `SearchRun`, a navigation
     * leaves no error and an error means no navigation, and `searching` is
     * lowered again on every path.
     */
    method Search(query: string, txNetwork: TransactionNetwork, blockNetwork: BlockNetwork)
      modifies this, router
      ensures var run := SearchRun(query, txNetwork, blockNetwork);
        && (run.outcome == Blank ==>
              searching == old(searching) && searchError == Some(EmptyQueryMessage)
              && router.history == old(router.history) && calls == old(calls))
        && (run.outcome != Blank ==> !searching && calls == old(calls) + MadeWhileSearching(run.lookups))
        && (run.outcome.Navigated? ==>
              router.history == old(router.history) + [run.outcome.path] && searchError == None)
        && (run.outcome.Failed? ==>
              router.history == old(router.history) && searchError == Some(run.outcome.message))
    {
      if Trim(query) == [] {
        searchError := Some(EmptyQueryMessage);
        return;
      }

      searching := true;
      searchError := None;

      var queryType := DetectQueryType(query);

      // Each path below lowers `searching` before it leaves, as the `finally` block does.
      if queryType == BlockNumber {
        var blockNumber := ParsedBlockNumber(query);
        calls := calls + [LookupCall(BlockLookup(Blocks.NumberId(blockNumber)), searching, searchError)];
        var block := Blocks.FetchBlockByIdentifier(Blocks.NumberId(blockNumber), blockNetwork);
        if block.Some? {
          router.Push("/blocks/" + NatToDecimal(blockNumber));
        } else {
          searchError := Some(BlockNotFoundMessage);
        }
      } else if queryType == Hash {
        var trimmedQuery := Trim(query);

        calls := calls + [LookupCall(TransactionLookup(trimmedQuery), searching, searchError)];
        var tx := Transactions.FetchTransactionByHash(trimmedQuery, txNetwork);
        if tx.Some? {
          router.Push("/transactions/" + trimmedQuery);
          searching := false;
          return;
        }

        calls := calls + [LookupCall(BlockLookup(Blocks.StringId(trimmedQuery)), searching, searchError)];
        var block := Blocks.FetchBlockByIdentifier(Blocks.StringId(trimmedQuery), blockNetwork);
        if block.Some? {
          router.Push("/blocks/" + trimmedQuery);
          searching := false;
          return;
        }

        searchError := Some(HashNotFoundMessage);
      } else {
        searchError := Some(InvalidQueryMessage);
      }
      searching := false;
    }
  }
}
