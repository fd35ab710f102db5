/** `src/state.py`: the object the tools share. It holds the connection pool
    and the loaded named queries, resolves a query by name, lists the
    `select_` queries as one catalog, and runs the domain searches. */
module AppState {
  import opened Common
  import opened Db
  import SqlRewrite

  // ---------------------------------------------------------------------
  // `dir()` order: Python sorts attribute names by code point

  /** `a < b` on Python strings: lexicographic by code point. */
  predicate Before(a: string, b: string)
    ensures Before(a, b) ==> a != b
    decreases |a|
  {
    if a == [] then b != []
    else b != [] && (a[0] < b[0] || (a[0] == b[0] && Before(a[1..], b[1..])))
  }

  lemma {:induction false} BeforeTransitive(a: string, b: string, c: string)
    requires Before(a, b) && Before(b, c)
    ensures Before(a, c)
    decreases |a|
  {
    if a != [] && a[0] == b[0] && b[0] == c[0] {
      BeforeTransitive(a[1..], b[1..], c[1..]);
    }
  }

  lemma {:induction false} BeforeTotal(a: string, b: string)
    requires a != b
    ensures Before(a, b) || Before(b, a)
    decreases |a|
  {
    if a != [] && b != [] && a[0] == b[0] {
      assert a == [a[0]] + a[1..] && b == [b[0]] + b[1..];
      BeforeTotal(a[1..], b[1..]);
    }
  }

  lemma BeforeAsymmetric(a: string, b: string)
    requires Before(a, b)
    ensures !Before(b, a)
  {
    if Before(b, a) {
      BeforeTransitive(a, b, a);
    }
  }

  predicate IsLeast(m: string, s: set<string>)
  {
    m in s && forall x :: x in s && x != m ==> Before(m, x)
  }

  /** Every non-empty finite set of names has a least one. */
  lemma {:induction false} LeastExists(s: set<string>)
    requires s != {}
    ensures exists m :: IsLeast(m, s)
    decreases |s|
  {
    var x :| x in s;
    if s == {x} {
      assert IsLeast(x, s);
    } else {
      LeastExists(s - {x});
      var m :| IsLeast(m, s - {x});
      if Before(m, x) {
        assert IsLeast(m, s);
      } else {
        BeforeTotal(m, x);
        forall y | y in s && y != x
          ensures Before(x, y)
        {
          if y != m {
            BeforeTransitive(x, m, y);
          }
        }
        assert IsLeast(x, s);
      }
    }
  }

  lemma LeastUnique(s: set<string>)
    ensures forall m1, m2 :: IsLeast(m1, s) && IsLeast(m2, s) ==> m1 == m2
  {
    forall m1, m2 | IsLeast(m1, s) && IsLeast(m2, s)
      ensures m1 == m2
    {
      if m1 != m2 {
        BeforeAsymmetric(m1, m2);
      }
    }
  }

  predicate StrictlySorted(names: seq<string>)
  {
    forall i, j :: 0 <= i < j < |names| ==> Before(names[i], names[j])
  }

  /** The names of a set in the order `dir()` lists them. */
  function SortedNames(s: set<string>): (names: seq<string>)
    ensures |names| == |s|
    ensures forall n :: n in names <==> n in s
    ensures StrictlySorted(names)
    decreases |s|
  {
    if s == {} then []
    else
      LeastExists(s);
      LeastUnique(s);
      var m :| IsLeast(m, s);
      var rest := SortedNames(s - {m});
      assert forall j :: 0 <= j < |rest| ==> rest[j] in s - {m};
      [m] + rest
  }

  // ---------------------------------------------------------------------
  // The catalog of `select_` queries

  /** `query_name.startswith("select_")`. */
  predicate IsSelectName(name: string)
  {
    |name| >= 7 && name[..7] == "select_"
  }

  /** `IsSelectName` is `startswith("select_")`: the name is the prefix
      followed by anything at all. */
  lemma SelectNameIsPrefix(name: string)
    ensures IsSelectName(name) <==> exists rest :: name == "select_" + rest
  {
    if IsSelectName(name) {
      assert name == "select_" + name[7..];
    }
    if exists rest :: name == "select_" + rest {
      var rest :| name == "select_" + rest;
      assert name[..7] == ("select_" + rest)[..7] == "select_";
    }
  }

  /** The block `get_queries` appends for one listed query. */
  function CatalogEntry(name: string, sql: string): (block: string)
  {
    "-- name: " + name + "\n" + sql + "\n"
  }

  predicate AllLoaded(names: seq<string>, queries: map<string, string>)
  {
    forall j :: 0 <= j < |names| ==> names[j] in queries
  }

  lemma CatalogEntryLayout(name: string, sql: string)
    ensures var block := CatalogEntry(name, sql);
      && |block| == |name| + |sql| + 11
      && block[..9] == "-- name: "
      && block[9..9 + |name|] == name && block[9 + |name|] == '\n'
      && block[10 + |name|..] == sql + "\n"
  {
  }

  /** A block reads back: its header line gives the name (which holds no
      line break) and the rest gives the text. */
  lemma CatalogEntryReadsBack(n1: string, s1: string, n2: string, s2: string)
    requires '\n' !in n1 && '\n' !in n2
    requires CatalogEntry(n1, s1) == CatalogEntry(n2, s2)
    ensures n1 == n2 && s1 == s2
  {
    var b := CatalogEntry(n1, s1);
    CatalogEntryLayout(n1, s1);
    CatalogEntryLayout(n2, s2);
    assert n1 == b[9..9 + |n1|] == n2;
    assert s1 + "\n" == b[10 + |n1|..] == s2 + "\n";
    assert s1 == (s1 + "\n")[..|s1|] == (s2 + "\n")[..|s2|] == s2;
  }

  /** No name in `names` is a `select_` name. */
  predicate NoneListed(names: seq<string>)
  {
    names == [] || (!IsSelectName(names[0]) && NoneListed(names[1..]))
  }

  /** The text `get_queries` accumulates over `names`, in that order. It is
      empty exactly when no name is a `select_` name. */
  function Catalog(names: seq<string>, queries: map<string, string>): (text: string)
    requires AllLoaded(names, queries)
    ensures text == "" <==> NoneListed(names)
  {
    if names == [] then ""
    else
      (if IsSelectName(names[0]) then CatalogEntry(names[0], queries[names[0]]) else "")
      + Catalog(names[1..], queries)
  }

  /** The catalog of a concatenation is the concatenation of the catalogs:
      the loop may append entry by entry. */
  lemma {:induction false} CatalogConcat(a: seq<string>, b: seq<string>, queries: map<string, string>)
    requires AllLoaded(a, queries) && AllLoaded(b, queries) && AllLoaded(a + b, queries)
    ensures Catalog(a + b, queries) == Catalog(a, queries) + Catalog(b, queries)
  {
    if a == [] {
      assert a + b == b;
    } else {
      var head := if IsSelectName(a[0]) then CatalogEntry(a[0], queries[a[0]]) else "";
      assert (a + b)[0] == a[0];
      assert (a + b)[1..] == a[1..] + b;
      assert AllLoaded(a[1..], queries) && AllLoaded(a[1..] + b, queries);
      CatalogConcat(a[1..], b, queries);
      assert Catalog(a + b, queries) == head + Catalog(a[1..] + b, queries);
      assert Catalog(a, queries) == head + Catalog(a[1..], queries);
      ConcatAssoc(head, Catalog(a[1..], queries), Catalog(b, queries));
    }
  }

  lemma {:induction false} NoneListedIff(names: seq<string>)
    ensures NoneListed(names) <==> forall j :: 0 <= j < |names| ==> !IsSelectName(names[j])
  {
    if names != [] {
      NoneListedIff(names[1..]);
      assert forall j :: 1 <= j < |names| ==> names[j] == names[1..][j - 1];
    }
  }

  /** One more name extends the catalog by that name's block, if listed. */
  lemma CatalogSnoc(names: seq<string>, i: int, queries: map<string, string>)
    requires 0 <= i < |names| && AllLoaded(names, queries)
    ensures Catalog(names[..i + 1], queries) == Catalog(names[..i], queries)
      + (if IsSelectName(names[i]) then CatalogEntry(names[i], queries[names[i]]) else "")
  {
    assert names[..i + 1] == names[..i] + [names[i]];
    CatalogConcat(names[..i], [names[i]], queries);
  }

  /** Every listed query appears, whole, between the entries of the names
      sorted before it and those sorted after it; names that are not
      `select_` names contribute nothing. */
  lemma CatalogSplit(names: seq<string>, i: int, queries: map<string, string>)
    requires 0 <= i < |names|
    requires AllLoaded(names, queries)
    ensures Catalog(names, queries) ==
      Catalog(names[..i], queries)
      + (if IsSelectName(names[i]) then CatalogEntry(names[i], queries[names[i]]) else "")
      + Catalog(names[i + 1..], queries)
  {
    assert names == names[..i] + names[i..];
    CatalogConcat(names[..i], names[i..], queries);
    assert names[i..][1..] == names[i + 1..];
  }

  // ---------------------------------------------------------------------
  // The shared state

  /** What a domain search returns: one row or none on the single-row path,
      a list of rows on the many-row path. */
  datatype SearchResult = One(row: Option<Row>) | Many(rows: seq<Row>)

  class State {
    /** The pool, seen through what it does: run a statement. None until set up. */
    var pool: Option<Executor>
    /** The loaded queries by name. Absent (an AttributeError) until set up. */
    var queries: Option<map<string, string>>

    /** Every loaded query went through `process_sql`: none still holds a
        named placeholder. */
    ghost predicate Valid()
      reads this
    {
      queries.Some? ==> forall n :: n in queries.value ==> SqlRewrite.NoNamedMarker(queries.value[n])
    }

    constructor ()
      ensures pool == None && queries == None
      ensures Valid()
    {
      pool := None;
      queries := None;
    }

    /** `setup`: the pool is started and the named statements are loaded;
        the loader passes each text through `process_sql`. */
    method Setup(executor: Executor, source: map<string, string>)
      modifies this
      ensures pool == Some(executor)
      ensures queries == Some(map n | n in source :: SqlRewrite.ProcessSql(source[n]).sql)
      ensures Valid()
    {
      pool := Some(executor);
      queries := Some(map n | n in source :: SqlRewrite.ProcessSql(source[n]).sql);
    }

    /** `get_query`: the stored text for a name; an absent name is an
        AttributeError, never a default. */
    function GetQuery(name: string): (r: Result<string>)
      reads this
      ensures r.Ok? <==> queries.Some? && name in queries.value
      ensures r.Ok? ==> r.value == queries.value[name]
      ensures r.Err? ==> r.error.AttributeError?
      ensures Valid() && r.Ok? ==> SqlRewrite.NoNamedMarker(r.value)
    {
      if queries.None? then Err(AttributeError("queries"))
      else if name !in queries.value then Err(AttributeError(name))
      else Ok(queries.value[name])
    }

    /** `get_queries`: the `select_` queries, in `dir()` order, each as a
        `-- name:` block. */
    method GetQueries() returns (r: Result<string>)
      ensures r.Ok? <==> queries.Some?
      ensures r.Ok? ==> r.value == Catalog(SortedNames(queries.value.Keys), queries.value)
    {
      if queries.None? {
        return Err(AttributeError("queries"));
      }
      var q := queries.value;
      var names := SortedNames(q.Keys);
      assert AllLoaded(names, q);
      var combined := "";
      for i := 0 to |names|
        invariant combined == Catalog(names[..i], q)
      {
        var name := names[i];
        if IsSelectName(name) {
          combined := combined + CatalogEntry(name, q[name]);
        }
        CatalogSnoc(names, i, q);
      }
      assert names[..|names|] == names;
      return Ok(combined);
    }

    /** `State.select_many`: resolve the name, then hand the text and the
        keyword arguments, unchanged, to the execution layer. */
    function SelectMany(name: string, kwargs: map<string, ArgValue>): (r: Result<seq<Row>>)
      reads this
      ensures r.Ok? <==> GetQuery(name).Ok? && pool.Some?
      ensures r.Err? && GetQuery(name).Err? ==> r.error == GetQuery(name).error
      ensures r.Ok? ==> r.value == pool.value(queries.value[name], NormalizeArgs(kwargs))
    {
      var sql :- GetQuery(name);
      Db.SelectMany(pool, sql, kwargs)
    }

    /** `State.select_one`: the same resolution, then at most one row. */
    function SelectOne(name: string, kwargs: map<string, ArgValue>): (r: Result<Option<Row>>)
      reads this
      ensures r.Ok? <==> SelectMany(name, kwargs).Ok?
      ensures r.Ok? ==> r.value == FirstRow(SelectMany(name, kwargs).value)
    {
      var sql :- GetQuery(name);
      Db.SelectOne(pool, sql, kwargs)
    }

    /** `State.search`. With fuzzy matching the text is wrapped in `%` on
        both sides, unescaped; the only arguments bound are `value` and
        `limit`; a limit of exactly 1 takes the single-row path and every
        other limit the many-row path. */
    function Search(queryName: string := "", value: string := "",
                    useFuzzyMatching: bool := true, limit: int := 50): (r: Result<SearchResult>)
      reads this
      ensures r.Ok? <==> queries.Some? && queryName in queries.value && pool.Some?
      ensures r.Ok? ==> (r.value.One? <==> limit == 1)
      ensures r.Ok? ==>
        var bound := map["value" := Text(if useFuzzyMatching then "%" + value + "%" else value),
                         "limit" := Int(limit)];
        var rows := pool.value(queries.value[queryName], bound);
        if limit == 1 then r.value == One(FirstRow(rows)) else r.value == Many(rows)
    {
      var pattern := if useFuzzyMatching then "%" + value + "%" else value;
      var args := map["value" := Plain(Text(pattern)), "limit" := Plain(Int(limit))];
      assert NormalizeArgs(args) == map["value" := Text(pattern), "limit" := Int(limit)];
      if limit == 1 then
        var row :- SelectOne(queryName, args);
        Ok(One(row))
      else
        var rows :- SelectMany(queryName, args);
        Ok(Many(rows))
    }
  }

  /** `get_queries` lists the `select_` queries and nothing else: its text
      is empty exactly when no loaded name starts with `select_`. */
  lemma GetQueriesEmptyIff(queries: map<string, string>)
    ensures Catalog(SortedNames(queries.Keys), queries) == "" <==>
      forall n :: n in queries ==> !IsSelectName(n)
  {
    var names := SortedNames(queries.Keys);
    NoneListedIff(names);
    assert forall n :: n in queries ==> exists j :: 0 <= j < |names| && names[j] == n;
  }

  /** Each loaded `select_` query appears in the catalog as its own block,
      after the blocks of the names sorted before it and before those of
      the names sorted after it. */
  lemma GetQueriesListsEach(queries: map<string, string>, name: string)
    requires name in queries && IsSelectName(name)
    ensures exists i :: (0 <= i < |SortedNames(queries.Keys)| && SortedNames(queries.Keys)[i] == name &&
      Catalog(SortedNames(queries.Keys), queries) ==
        Catalog(SortedNames(queries.Keys)[..i], queries)
        + CatalogEntry(name, queries[name])
        + Catalog(SortedNames(queries.Keys)[i + 1..], queries))
  {
    var names := SortedNames(queries.Keys);
    assert AllLoaded(names, queries);
    assert name in names;
    var i :| 0 <= i < |names| && names[i] == name;
    CatalogSplit(names, i, queries);
  }

}
