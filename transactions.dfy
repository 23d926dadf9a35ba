/**
 * The transaction accessors: the paginated list with optional block and
 * address filters (`useTransactions`), the one-shot lookup by hash
 * (`fetchTransactionByHash`) and the detail accessor
 * (`useFetchTransactionDetail`).
 */
module Transactions {
  import opened Wrappers
  import opened Query

  datatype Transaction = Transaction(
    hash: string,
    blockNumber: int,
    position: int,
    createdAt: string,
    fromAddress: Option<string>,
    toAddress: Option<string>,
    value: Option<string>,
    status: Option<int>)

  /** The detail record; its further fields are only displayed, so they are kept opaque here. */
  datatype TransactionDetail = TransactionDetail(hash: string, blockNumber: int, fields: map<string, string>)

  datatype TransactionsQueryResult = TransactionsQueryResult(transactions: Connection<Transaction>)
  datatype TransactionQueryResult = TransactionQueryResult(transaction: Option<Transaction>)
  datatype TransactionDetailQueryResult = TransactionDetailQueryResult(transactionDetail: Option<TransactionDetail>)

  const DefaultLimit := 20
  const DefaultOffset := 0
  const TransactionsFallback := "Failed to fetch transactions"
  const TransactionDetailFallback := "Failed to fetch transaction details"

  // ---------------------------------------------------------------------------
  // useTransactions

  /**
   * The variables of the list query: `limit` and `offset` always, and
   * `blockNumber` and `address` exactly when they are given.
   */
  function TransactionsVariables(limit: int, offset: int, blockNumber: Option<int>, address: Option<string>)
    : (v: Variables)
    ensures "limit" in v && v["limit"] == NumberValue(limit)
    ensures "offset" in v && v["offset"] == NumberValue(offset)
    ensures "blockNumber" in v <==> blockNumber.Some?
    ensures "address" in v <==> address.Some?
    ensures blockNumber.Some? ==> v["blockNumber"] == NumberValue(blockNumber.value)
    ensures address.Some? ==> v["address"] == StringValue(address.value)
    ensures v.Keys <= {"limit", "offset", "blockNumber", "address"}
  {
    map["limit" := NumberValue(limit), "offset" := NumberValue(offset)]
    + OptionalEntry("blockNumber", NumberArg(blockNumber))
    + OptionalEntry("address", StringArg(address))
  }

  /**
   * `useTransactions(limit = 20, offset = 0, blockNumber?, address?)` builds
   * its variables by setting `limit` and `offset`, then each filter that is
   * not `undefined`.
   */
  method UseTransactionsVariables(
    limit: int := DefaultLimit,
    offset: int := DefaultOffset,
    blockNumber: Option<int> := None,
    address: Option<string> := None)
    returns (variables: Variables)
    ensures variables == TransactionsVariables(limit, offset, blockNumber, address)
    ensures blockNumber.Some? ==> variables["blockNumber"] == NumberValue(blockNumber.value)
    ensures address.Some? ==> variables["address"] == StringValue(address.value)
  {
    variables := map["limit" := NumberValue(limit), "offset" := NumberValue(offset)];
    if blockNumber.Some? {
      variables := variables["blockNumber" := NumberValue(blockNumber.value)];
    }
    if address.Some? {
      variables := variables["address" := StringValue(address.value)];
    }
  }

  /** The override map of `refetch`: exactly the keys of the arguments given. */
  function TransactionsOverrides(newLimit: Option<int>, newOffset: Option<int>, newBlockNumber: Option<int>, newAddress: Option<string>)
    : (v: Variables)
    ensures "limit" in v <==> newLimit.Some?
    ensures "offset" in v <==> newOffset.Some?
    ensures "blockNumber" in v <==> newBlockNumber.Some?
    ensures "address" in v <==> newAddress.Some?
    ensures newLimit.Some? ==> v["limit"] == NumberValue(newLimit.value)
    ensures newOffset.Some? ==> v["offset"] == NumberValue(newOffset.value)
    ensures newBlockNumber.Some? ==> v["blockNumber"] == NumberValue(newBlockNumber.value)
    ensures newAddress.Some? ==> v["address"] == StringValue(newAddress.value)
    ensures v.Keys <= {"limit", "offset", "blockNumber", "address"}
  {
    OptionalEntry("limit", NumberArg(newLimit))
    + OptionalEntry("offset", NumberArg(newOffset))
    + OptionalEntry("blockNumber", NumberArg(newBlockNumber))
    + OptionalEntry("address", StringArg(newAddress))
  }

  /** `refetch(newLimit?, newOffset?, newBlockNumber?, newAddress?)`: starts from `{}`, sets each given argument. */
  method TransactionsRefetchVariables(
    newLimit: Option<int> := None,
    newOffset: Option<int> := None,
    newBlockNumber: Option<int> := None,
    newAddress: Option<string> := None)
    returns (newVariables: Variables)
    ensures newVariables == TransactionsOverrides(newLimit, newOffset, newBlockNumber, newAddress)
    ensures newLimit.None? && newOffset.None? && newBlockNumber.None? && newAddress.None? ==> newVariables == map[]
  {
    newVariables := map[];
    if newLimit.Some? {
      newVariables := newVariables["limit" := NumberValue(newLimit.value)];
    }
    if newOffset.Some? {
      newVariables := newVariables["offset" := NumberValue(newOffset.value)];
    }
    if newBlockNumber.Some? {
      newVariables := newVariables["blockNumber" := NumberValue(newBlockNumber.value)];
    }
    if newAddress.Some? {
      newVariables := newVariables["address" := StringValue(newAddress.value)];
    }
  }

  /**
   * Laid over the variables of the first query, a refetch's overrides give
   * the variables of a fresh query in which each omitted argument, filters
   * included, keeps its earlier value.
   */
  lemma TransactionsRefetchReusesOmitted(
    limit: int, offset: int, blockNumber: Option<int>, address: Option<string>,
    newLimit: Option<int>, newOffset: Option<int>, newBlockNumber: Option<int>, newAddress: Option<string>)
    ensures TransactionsVariables(limit, offset, blockNumber, address)
            + TransactionsOverrides(newLimit, newOffset, newBlockNumber, newAddress)
         == TransactionsVariables(newLimit.GetOr(limit), newOffset.GetOr(offset),
                                  newBlockNumber.OrElse(blockNumber), newAddress.OrElse(address))
  {
    var before := TransactionsVariables(limit, offset, blockNumber, address);
    var overrides := TransactionsOverrides(newLimit, newOffset, newBlockNumber, newAddress);
    var replayed := TransactionsVariables(newLimit.GetOr(limit), newOffset.GetOr(offset),
                                          newBlockNumber.OrElse(blockNumber), newAddress.OrElse(address));
    assert OverrideAgreesAt(before, overrides, replayed, "limit");
    assert OverrideAgreesAt(before, overrides, replayed, "offset");
    assert OverrideAgreesAt(before, overrides, replayed, "blockNumber");
    assert OverrideAgreesAt(before, overrides, replayed, "address");
    OverridesOverVariables(before, overrides, replayed);
  }

  /** At key `k`, `replayed` holds the override when there is one and otherwise whatever `before` holds. */
  predicate OverrideAgreesAt(before: Variables, overrides: Variables, replayed: Variables, k: string) {
    && (k in overrides ==> k in replayed && replayed[k] == overrides[k])
    && (k !in overrides ==> (k in before <==> k in replayed) && (k in before ==> replayed[k] == before[k]))
  }

  /** Over the four keys of the list query, agreement key by key makes the union equal to `replayed`. */
  lemma OverridesOverVariables(before: Variables, overrides: Variables, replayed: Variables)
    requires before.Keys <= {"limit", "offset", "blockNumber", "address"}
    requires overrides.Keys <= {"limit", "offset", "blockNumber", "address"}
    requires replayed.Keys <= {"limit", "offset", "blockNumber", "address"}
    requires OverrideAgreesAt(before, overrides, replayed, "limit")
    requires OverrideAgreesAt(before, overrides, replayed, "offset")
    requires OverrideAgreesAt(before, overrides, replayed, "blockNumber")
    requires OverrideAgreesAt(before, overrides, replayed, "address")
    ensures before + overrides == replayed
  {
    var merged := before + overrides;
    forall k | k in merged ensures k in replayed && merged[k] == replayed[k] {
      assert k in {"limit", "offset", "blockNumber", "address"};
    }
    forall k | k in replayed ensures k in merged {
      assert k in {"limit", "offset", "blockNumber", "address"};
    }
  }

  /** What the list view shows for the client's current data and error. */
  function TransactionsView(data: Option<TransactionsQueryResult>, error: Option<QueryError>)
    : (v: ListView<Transaction>)
    ensures data.None? ==> v.items == [] && v.totalCount == 0
    ensures data.Some? ==> v.items == data.value.transactions.items && v.totalCount == data.value.transactions.totalCount
    ensures v.error.None? <==> error.None?
    ensures error.Some? && error.value.message != "" ==> v.error == Some(error.value.message)
    ensures error.Some? && error.value.message == "" ==> v.error == Some(TransactionsFallback)
  {
    ListViewOf(match data case None => None case Some(d) => Some(d.transactions), error, TransactionsFallback)
  }

  // ---------------------------------------------------------------------------
  // fetchTransactionByHash

  /** The hash is sent as given: no trimming, no comma removal. */
  function TransactionLookupVariables(hash: string): (v: Variables)
    ensures v.Keys == {"hash"} && v["hash"] == StringValue(hash)
  {
    map["hash" := StringValue(hash)]
  }

  /**
   * `fetchTransactionByHash`: never throws; none on an exception, a reported
   * error or missing data, else the transaction field, which may be absent.
   */
  function FetchTransactionByHash(hash: string, network: Variables -> ExecuteOutcome<TransactionQueryResult>)
    : (r: Option<Transaction>)
    ensures var outcome := network(TransactionLookupVariables(hash));
      && (outcome.Threw? ==> r.None?)
      && (outcome.Returned? && outcome.error.Some? ==> r.None?)
      && (outcome.Returned? && outcome.error.None? && outcome.data.Some? ==> r == outcome.data.value.transaction)
      && (r.Some? ==> outcome == Returned(Some(TransactionQueryResult(r)), None))
  {
    Settle(network(TransactionLookupVariables(hash)), (d: TransactionQueryResult) => d.transaction)
  }

  // ---------------------------------------------------------------------------
  // useFetchTransactionDetail

  function TransactionDetailVariables(hash: string): (v: Variables)
    ensures v.Keys == {"hash"} && v["hash"] == StringValue(hash)
  {
    map["hash" := StringValue(hash)]
  }

  /** The detail record when present, and the error message with its own fallback. */
  function TransactionDetailView(data: Option<TransactionDetailQueryResult>, error: Option<QueryError>)
    : (v: (Option<TransactionDetail>, Option<string>))
    ensures data.None? ==> v.0.None?
    ensures data.Some? ==> v.0 == data.value.transactionDetail
    ensures v.1.None? <==> error.None?
    ensures error.Some? && error.value.message != "" ==> v.1 == Some(error.value.message)
    ensures error.Some? && error.value.message == "" ==> v.1 == Some(TransactionDetailFallback)
  {
    (match data case None => None case Some(d) => d.transactionDetail, ErrorMessage(error, TransactionDetailFallback))
  }
}
