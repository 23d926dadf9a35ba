/**
 * The block accessors: the paginated list (`useBlocks`), the one-shot lookup
 * by number or hash (`fetchBlockByIdentifier`) and the detail accessor
 * (`useFetchBlockDetail`). The network is the function `network`, from the
 * variables sent to the outcome of `execute()`.
 */
module Blocks {
  import opened Wrappers
  import opened Text
  import opened Query

  datatype Block = Block(number: int, timestamp: int, transactionCount: int, createdAt: string)

  /** The detail record: the source imports a type it never defines, so only its number is kept, the rest opaque. */
  datatype BlockDetail = BlockDetail(number: int, fields: map<string, string>)

  datatype BlocksQueryResult = BlocksQueryResult(blocks: Connection<Block>)
  datatype BlockQueryResult = BlockQueryResult(block: Option<Block>)
  datatype BlockDetailQueryResult = BlockDetailQueryResult(blockDetail: Option<BlockDetail>)

  const DefaultLimit := 20
  const DefaultOffset := 0
  const BlocksFallback := "Failed to fetch blocks"
  const BlockDetailFallback := "Failed to fetch block details"

  // ---------------------------------------------------------------------------
  // useBlocks

  /** The variables of the list query: `{ limit, offset }`. */
  function BlocksVariables(limit: int := DefaultLimit, offset: int := DefaultOffset): (v: Variables)
    ensures v.Keys == {"limit", "offset"}
    ensures v["limit"] == NumberValue(limit) && v["offset"] == NumberValue(offset)
  {
    map["limit" := NumberValue(limit), "offset" := NumberValue(offset)]
  }

  /** The override map `refetch(newLimit?, newOffset?)` passes to `execute`. */
  function BlocksOverrides(newLimit: Option<int>, newOffset: Option<int>): (v: Variables)
    ensures "limit" in v <==> newLimit.Some?
    ensures "offset" in v <==> newOffset.Some?
    ensures v.Keys <= {"limit", "offset"}
  {
    OptionalEntry("limit", NumberArg(newLimit)) + OptionalEntry("offset", NumberArg(newOffset))
  }

  /** `refetch`: starts from `{}` and sets each argument that is not `undefined`. */
  method BlocksRefetchVariables(newLimit: Option<int> := None, newOffset: Option<int> := None)
    returns (variables: Variables)
    ensures variables == BlocksOverrides(newLimit, newOffset)
    ensures newLimit.Some? ==> variables["limit"] == NumberValue(newLimit.value)
    ensures newOffset.Some? ==> variables["offset"] == NumberValue(newOffset.value)
  {
    variables := map[];
    if newLimit.Some? {
      variables := variables["limit" := NumberValue(newLimit.value)];
    }
    if newOffset.Some? {
      variables := variables["offset" := NumberValue(newOffset.value)];
    }
  }

  /**
   * Laid over the variables of the first query, a refetch's overrides give
   * the variables of a replayed query with each omitted argument reused.
   */
  lemma BlocksRefetchReusesOmitted(limit: int, offset: int, newLimit: Option<int>, newOffset: Option<int>)
    ensures BlocksVariables(limit, offset) + BlocksOverrides(newLimit, newOffset)
         == BlocksVariables(newLimit.GetOr(limit), newOffset.GetOr(offset))
  {
    var merged := BlocksVariables(limit, offset) + BlocksOverrides(newLimit, newOffset);
    var replayed := BlocksVariables(newLimit.GetOr(limit), newOffset.GetOr(offset));
    assert merged.Keys == replayed.Keys;
    assert merged["limit"] == replayed["limit"];
    assert merged["offset"] == replayed["offset"];
  }

  /** What the list view shows for the client's current data and error. */
  function BlocksView(data: Option<BlocksQueryResult>, error: Option<QueryError>): (v: ListView<Block>)
    ensures data.None? ==> v.items == [] && v.totalCount == 0
    ensures data.Some? ==> v.items == data.value.blocks.items && v.totalCount == data.value.blocks.totalCount
    ensures v.error.None? <==> error.None?
    ensures error.Some? && error.value.message != "" ==> v.error == Some(error.value.message)
    ensures error.Some? && error.value.message == "" ==> v.error == Some(BlocksFallback)
  {
    ListViewOf(match data case None => None case Some(d) => Some(d.blocks), error, BlocksFallback)
  }

  // ---------------------------------------------------------------------------
  // fetchBlockByIdentifier

  /** The argument of `fetchBlockByIdentifier`: a number or a string. */
  datatype Identifier = NumberId(n: int) | StringId(s: string)

  /** The identifier sent: a number's decimal rendering, a string without its commas. */
  function IdentifierString(identifier: Identifier): (s: string)
    ensures ',' !in s
  {
    match identifier
    case NumberId(n) => IntToDecimal(n)
    case StringId(t) => RemoveCommas(t)
  }

  /** A block number and its decimal text are sent as the same identifier. */
  lemma NumberAndTextAgree(n: nat)
    ensures IdentifierString(NumberId(n)) == IdentifierString(StringId(NatToDecimal(n)))
    ensures DecimalValue(IdentifierString(NumberId(n))) == n
  {
    DecimalRoundTrip(n);
  }

  /** Commas anywhere in a string identifier do not change what is sent. */
  lemma CommasIgnored(a: string, b: string)
    ensures IdentifierString(StringId(a + "," + b)) == IdentifierString(StringId(a + b))
  {
    var cb := "," + b;
    assert a + "," + b == a + cb;
    RemoveCommasAppend(a, cb);
    assert cb[0] == ',' && cb[1..] == b;
    assert RemoveCommas(cb) == RemoveCommas(b);
    RemoveCommasAppend(a, b);
  }

  function BlockLookupVariables(identifier: Identifier): (v: Variables)
    ensures v.Keys == {"identifier"} && v["identifier"].StringValue?
    ensures v["identifier"] == StringValue(IdentifierString(identifier))
  {
    map["identifier" := StringValue(IdentifierString(identifier))]
  }

  /**
   * `fetchBlockByIdentifier`: never throws; none on an exception, a reported
   * error or missing data, else the block field, which may itself be absent.
   */
  function FetchBlockByIdentifier(identifier: Identifier, network: Variables -> ExecuteOutcome<BlockQueryResult>)
    : (r: Option<Block>)
    ensures var outcome := network(BlockLookupVariables(identifier));
      && (outcome.Threw? ==> r.None?)
      && (outcome.Returned? && outcome.error.Some? ==> r.None?)
      && (outcome.Returned? && outcome.error.None? && outcome.data.Some? ==> r == outcome.data.value.block)
      && (r.Some? ==> outcome == Returned(Some(BlockQueryResult(r)), None))
  {
    Settle(network(BlockLookupVariables(identifier)), (d: BlockQueryResult) => d.block)
  }

  // ---------------------------------------------------------------------------
  // useFetchBlockDetail

  function BlockDetailVariables(blockNumber: int): (v: Variables)
    ensures v.Keys == {"number"} && v["number"] == NumberValue(blockNumber)
  {
    map["number" := NumberValue(blockNumber)]
  }

  /** The detail record when present, and the error message with its own fallback. */
  function BlockDetailView(data: Option<BlockDetailQueryResult>, error: Option<QueryError>)
    : (v: (Option<BlockDetail>, Option<string>))
    ensures data.None? ==> v.0.None?
    ensures data.Some? ==> v.0 == data.value.blockDetail
    ensures v.1.None? <==> error.None?
    ensures error.Some? && error.value.message != "" ==> v.1 == Some(error.value.message)
    ensures error.Some? && error.value.message == "" ==> v.1 == Some(BlockDetailFallback)
  {
    (match data case None => None case Some(d) => d.blockDetail, ErrorMessage(error, BlockDetailFallback))
  }
}
