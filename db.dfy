/** The execution layer of `src/db.py`: how keyword arguments are normalised
    before they are bound, and how one query runs on a pooled connection.
    The pool, the connection and the cursor are abstracted into an
    `Executor`: the function from (SQL text, bound arguments) to the rows the
    statement produces. */
module Db {
  import opened Common

  /** A primitive the driver binds as it is. */
  datatype Scalar =
    | Text(s: string)
    | Int(i: int)
    | Bool(b: bool)
    | Date(year: int, month: int, day: int)

  /** A keyword argument as a tool hands it to the execution layer. */
  datatype ArgValue =
    | DynEnum(name: string, display: Scalar)  // a member of a run-time enum (glootil's DynEnum)
    | StaticEnum(name: string, value: Scalar) // a member of a Python `Enum`
    | Null                                    // Python's None
    | Plain(v: Scalar)                        // any other value

  /** One cell of a result row: SQL NULL or a value. */
  datatype Cell = SqlNull | Value(v: Scalar)

  /** A result row, as the dictionary cursor returns it. */
  type Row = map<string, Cell>

  /** Executes a statement with its bound arguments and yields every row it produces. */
  type Executor = (string, map<string, Scalar>) -> seq<Row>

  /** `to_query_arg`: the run-time enum test comes first, so a DynEnum member
      binds its name even though it also carries a display value; a static
      enum binds its value; None binds the empty string. */
  function ToQueryArg(v: ArgValue): (r: Scalar)
    ensures v.DynEnum? ==> r == Text(v.name)
    ensures v.StaticEnum? ==> r == v.value
    ensures v.Null? ==> r == Text("")
    ensures v.Plain? ==> r == v.v
  {
    match v
    case DynEnum(name, _) => Text(name)
    case StaticEnum(_, value) => value
    case Null => Text("")
    case Plain(x) => x
  }

  /** None and the empty string bind the same value, and so do a DynEnum
      member or a static enum member and the string their branch picks: only
      these collapse onto `""`. */
  lemma NullBindsAsEmptyText(v: ArgValue)
    ensures ToQueryArg(v) == Text("") <==>
      v == Null || v == Plain(Text("")) ||
      (v.DynEnum? && v.name == "") || (v.StaticEnum? && v.value == Text(""))
  {
  }

  /** Falsy primitives are not mistaken for None: only `is None` is tested. */
  lemma FalsyValuesPassThrough()
    ensures ToQueryArg(Plain(Int(0))) == Int(0)
    ensures ToQueryArg(Plain(Bool(false))) == Bool(false)
    ensures ToQueryArg(Plain(Text(""))) == Text("")
  {
  }

  /** Normalising an already normalised argument changes nothing. */
  lemma ToQueryArgIdempotent(v: ArgValue)
    ensures ToQueryArg(Plain(ToQueryArg(v))) == ToQueryArg(v)
  {
  }

  /** The dictionary comprehension at the top of `with_cursor`. */
  function NormalizeArgs(args: map<string, ArgValue>): (r: map<string, Scalar>)
    ensures r.Keys == args.Keys
    ensures forall k :: k in r ==> r[k] == ToQueryArg(args[k])
  {
    map k | k in args :: ToQueryArg(args[k])
  }

  /** Normalisation works key by key: changing one argument changes only
      that key's bound value. */
  lemma {:induction false} NormalizeArgsUpdate(args: map<string, ArgValue>, k: string, v: ArgValue)
    ensures NormalizeArgs(args[k := v]) == NormalizeArgs(args)[k := ToQueryArg(v)]
  {
    var lhs := NormalizeArgs(args[k := v]);
    var rhs := NormalizeArgs(args)[k := ToQueryArg(v)];
    assert lhs.Keys == rhs.Keys;
    forall j | j in lhs
      ensures lhs[j] == rhs[j]
    {
    }
  }

  /** A statement run through `with_cursor`: the arguments are normalised,
      then a connection and a cursor are taken from the pool and the statement
      runs. Without a pool (`None.acquire`) the call fails. */
  function SelectMany(pool: Option<Executor>, sql: string, args: map<string, ArgValue>): (r: Result<seq<Row>>)
    ensures r.Ok? <==> pool.Some?
    ensures r.Err? ==> r.error == AttributeError("acquire")
    ensures r.Ok? ==> r.value == pool.value(sql, NormalizeArgs(args))
  {
    var bound := NormalizeArgs(args);
    if pool.None? then Err(AttributeError("acquire"))
    else Ok(pool.value(sql, bound))
  }

  /** `cursor.fetchone()`: the first row, or None when there is none. */
  function FirstRow(rows: seq<Row>): (r: Option<Row>)
    ensures r.None? <==> rows == []
    ensures r.Some? ==> r.value == rows[0]
  {
    if rows == [] then None else Some(rows[0])
  }

  /** `select_one`: the same statement and arguments as `select_many`, but at
      most one row, the first, is returned; never a sequence. */
  function SelectOne(pool: Option<Executor>, sql: string, args: map<string, ArgValue>): (r: Result<Option<Row>>)
    ensures r.Ok? <==> SelectMany(pool, sql, args).Ok?
    ensures r.Ok? ==> (r.value.None? <==> SelectMany(pool, sql, args).value == [])
    ensures r.Ok? && r.value.Some? ==> r.value.value == SelectMany(pool, sql, args).value[0]
  {
    var bound := NormalizeArgs(args);
    if pool.None? then Err(AttributeError("acquire"))
    else Ok(FirstRow(pool.value(sql, bound)))
  }

  /** Passing None for an argument runs exactly the statement that passing
      the empty string does. */
  lemma NullAndEmptyTextRunAlike(pool: Option<Executor>, sql: string, args: map<string, ArgValue>, k: string)
    ensures SelectMany(pool, sql, args[k := Null]) == SelectMany(pool, sql, args[k := Plain(Text(""))])
  {
    NormalizeArgsUpdate(args, k, Null);
    NormalizeArgsUpdate(args, k, Plain(Text("")));
  }

  /** A DynEnum member runs the statement its bare name would. */
  lemma DynEnumRunsAsItsName(pool: Option<Executor>, sql: string, args: map<string, ArgValue>, k: string, name: string, display: Scalar)
    ensures SelectMany(pool, sql, args[k := DynEnum(name, display)]) == SelectMany(pool, sql, args[k := Plain(Text(name))])
  {
    NormalizeArgsUpdate(args, k, DynEnum(name, display));
    NormalizeArgsUpdate(args, k, Plain(Text(name)));
  }
}
