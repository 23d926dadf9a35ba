/**
 * What the resource composables see of the GraphQL client: the outcome of
 * `await execute()`, the variables object sent with a query, and the error
 * message shown to a view.
 */
module Query {
  import opened Wrappers

  /** The client's error object; only its message is read. */
  datatype QueryError = QueryError(message: string)

  /**
   * The outcome of `await execute()`: it returns optional data and an
   * optional error, or it throws.
   */
  datatype ExecuteOutcome<T> = Returned(data: Option<T>, error: Option<QueryError>) | Threw

  /** A value of the variables object: a JavaScript number or string. */
  datatype VarValue = NumberValue(n: int) | StringValue(s: string)

  /** The variables object: its keys are the fields that are present. */
  type Variables = map<string, VarValue>

  /** The pagination envelope `{ items, totalCount }`. */
  datatype Connection<T> = Connection(items: seq<T>, totalCount: int)

  /** What a list view reads: the items, the total and the error message. */
  datatype ListView<T> = ListView(items: seq<T>, totalCount: int, error: Option<string>)

  /**
   * The error projection shared by every accessor: none without an error,
   * else the error's message, or `fallback` when that message is empty.
   */
  function ErrorMessage(error: Option<QueryError>, fallback: string): (r: Option<string>)
    ensures r.None? <==> error.None?
    ensures error.Some? && error.value.message != "" ==> r == Some(error.value.message)
    ensures error.Some? && error.value.message == "" ==> r == Some(fallback)
  {
    match error
    case None => None
    case Some(e) => Some(if e.message != "" then e.message else fallback)
  }

  /** With a non-empty fallback, a view never shows an empty error message. */
  lemma ErrorMessageNeverEmpty(error: Option<QueryError>, fallback: string)
    requires fallback != ""
    ensures ErrorMessage(error, fallback) != Some("")
  {
  }

  /**
   * The list projections: the items or `[]`, the total or 0, and the error
   * message with the accessor's fallback.
   */
  function ListViewOf<T>(data: Option<Connection<T>>, error: Option<QueryError>, fallback: string): (v: ListView<T>)
    ensures data.None? ==> v.items == [] && v.totalCount == 0
    ensures data.Some? ==> v.items == data.value.items && v.totalCount == data.value.totalCount
    ensures v.error == ErrorMessage(error, fallback)
  {
    match data
    case None => ListView([], 0, ErrorMessage(error, fallback))
    case Some(c) => ListView(c.items, c.totalCount, ErrorMessage(error, fallback))
  }

  /** The key `key` with its value when the argument is not `undefined`, else no key. */
  function OptionalEntry(key: string, value: Option<VarValue>): (m: Variables)
    ensures key in m <==> value.Some?
    ensures m.Keys <= {key}
    ensures value.Some? ==> m[key] == value.value
  {
    match value
    case None => map[]
    case Some(v) => map[key := v]
  }

  function NumberArg(x: Option<int>): Option<VarValue> {
    match x
    case None => None
    case Some(n) => Some(NumberValue(n))
  }

  function StringArg(x: Option<string>): Option<VarValue> {
    match x
    case None => None
    case Some(s) => Some(StringValue(s))
  }

  /**
   * The one-shot lookup rule: a thrown call, a reported error or missing data
   * all give none; otherwise the selected field, itself possibly absent.
   */
  function Settle<T, R>(outcome: ExecuteOutcome<T>, select: T -> Option<R>): (r: Option<R>)
    ensures outcome.Threw? ==> r.None?
    ensures outcome.Returned? && outcome.error.Some? ==> r.None?
    ensures outcome.Returned? && outcome.data.None? ==> r.None?
    ensures outcome.Returned? && outcome.error.None? && outcome.data.Some? ==> r == select(outcome.data.value)
  {
    match outcome
    case Threw => None
    case Returned(data, error) =>
      if error.Some? then None
      else match data
        case None => None
        case Some(d) => select(d)
  }
}
