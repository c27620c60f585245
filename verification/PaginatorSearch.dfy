/**
 Search over relations: a dotted path such as "role.title" is compiled, against the schema's
 metadata, into a nested filter.
 */
module PaginatorSearch {
  import opened Options

  datatype Kind = Scalar | Object | Enum | Unsupported

  datatype FieldMeta = FieldMeta(kind: Kind, isList: bool, typeName: string)

  type Fields = map<string, FieldMeta>
  type Schema = map<string, Fields>

  datatype Error =
    | UnknownModel(model: string)
    | NotARelation(name: string, model: string)
    | NotAStringField(name: string, model: string)
    | ModelNameRequired(field: string)

  datatype Result<T> = Ok(value: T) | Err(error: Error)

  /** A filter: the leaf test, or one hop with (`some`) or without the to-many wrapper. */
  datatype Condition = Contains(field: string, search: string) | Hop(field: string, some: bool, inner: Condition)

  // ---------------------------------------------------------------- splitting the path

  function Join(parts: seq<string>): string {
    if parts == [] then "" else if |parts| == 1 then parts[0] else parts[0] + "." + Join(parts[1..])
  }

  function Dots(path: string): nat {
    if path == "" then 0 else (if path[0] == '.' then 1 else 0) + Dots(path[1..])
  }

  /** `path.split('.')`: joining the parts gives the path back, and no part has a dot. */
  function Split(path: string): (parts: seq<string>)
    ensures |parts| == Dots(path) + 1
    ensures Join(parts) == path
    ensures forall i :: 0 <= i < |parts| ==> '.' !in parts[i]
  {
    if path == "" then [""]
    else
      var rest := Split(path[1..]);
      if path[0] == '.' then
        assert ([""] + rest)[1..] == rest;
        [""] + rest
      else
        var parts := [[path[0]] + rest[0]] + rest[1..];
        assert parts[1..] == rest[1..];
        assert path == [path[0]] + path[1..];
        parts
  }

  // ---------------------------------------------------------------- what a path means

  /** `models[i]` is the model in which the i-th segment is looked up. */
  predicate Leads(schema: Schema, hops: seq<string>, models: seq<string>) {
    && |models| == |hops| + 1
    && (forall i :: 0 <= i < |models| ==> models[i] in schema)
    && (forall i :: 0 <= i < |hops| ==> Relates(schema[models[i]], hops[i], models[i + 1]))
  }

  predicate Relates(fields: Fields, name: string, target: string) {
    name in fields && fields[name].kind.Object? && fields[name].typeName == target
  }

  predicate IsStringField(fields: Fields, name: string) {
    name in fields && fields[name].kind.Scalar? && fields[name].typeName == "String"
  }

  /** Every hop is a relation and the leaf a String column. */
  ghost predicate GoodPath(schema: Schema, model: string, parts: seq<string>)
    requires |parts| > 0
  {
    exists models :: IsTour(schema, model, parts, models)
  }

  predicate IsTour(schema: Schema, model: string, parts: seq<string>, models: seq<string>)
    requires |parts| > 0
  {
    && Leads(schema, parts[..|parts| - 1], models) && models[0] == model
    && IsStringField(schema[models[|parts| - 1]], parts[|parts| - 1])
  }

  // ---------------------------------------------------------------- what a filter selects

  type RowId = nat

  datatype Row = Row(text: map<string, Option<string>>, related: map<string, set<RowId>>)

  type Table = map<RowId, Row>

  /** The rows related to `id` by `field`. */
  function Related(db: Table, id: RowId, field: string): set<RowId> {
    if id in db && field in db[id].related then db[id].related[field] else {}
  }

  predicate Matches(db: Table, id: RowId, field: string, search: string, found: (string, string) -> bool) {
    id in db && field in db[id].text && db[id].text[field].Some? && found(db[id].text[field].value, search)
  }

  /** The database's meaning of a filter at one row: a hop holds if some related row satisfies the inner
      filter. */
  ghost predicate Holds(db: Table, c: Condition, id: RowId, found: (string, string) -> bool) {
    match c
    case Contains(field, search) => Matches(db, id, field, search, found)
    case Hop(field, _, inner) => exists next :: next in Related(db, id, field) && Holds(db, inner, next, found)
  }

  /** Rows linked one to the next along the hops. */
  predicate IsChain(db: Table, hops: seq<string>, ids: seq<RowId>) {
    && |ids| == |hops| + 1
    && forall i :: 0 <= i < |hops| ==> ids[i + 1] in Related(db, ids[i], hops[i])
  }

  /** Some chain of related rows from `id` along the path ends in a row whose leaf matches. */
  ghost predicate Reaches(db: Table, parts: seq<string>, id: RowId, search: string, found: (string, string) -> bool)
    requires |parts| > 0
  {
    exists ids :: Arrives(db, parts, id, search, found, ids)
  }

  predicate Arrives(db: Table, parts: seq<string>, id: RowId, search: string, found: (string, string) -> bool, ids: seq<RowId>)
    requires |parts| > 0
  {
    && IsChain(db, parts[..|parts| - 1], ids) && ids[0] == id
    && Matches(db, ids[|parts| - 1], parts[|parts| - 1], search, found)
  }

  // ---------------------------------------------------------------- the compiled filter

  /** The nested filter for the segments, with the to-many wrapper where the relation is a list. */
  function Nest(parts: seq<string>, lists: seq<bool>, search: string): Condition
    requires |parts| == |lists| + 1
    decreases |lists|
  {
    if |lists| == 0 then Contains(parts[0], search)
    else Hop(parts[0], lists[0], Nest(parts[1..], lists[1..], search))
  }

  /** The compiled filter holds at a row exactly when some chain of related rows along the path ends in
      a row whose leaf contains the search text. */
  lemma {:induction false} NestMeansChain(db: Table, parts: seq<string>, lists: seq<bool>, search: string, id: RowId,
                                          found: (string, string) -> bool)
    requires |parts| == |lists| + 1
    ensures Holds(db, Nest(parts, lists, search), id, found) <==> Reaches(db, parts, id, search, found)
    decreases |lists|
  {
    if |lists| == 0 {
      if Holds(db, Nest(parts, lists, search), id, found) {
        assert Arrives(db, parts, id, search, found, [id]);
      }
    } else {
      var rest := parts[1..];
      if Holds(db, Nest(parts, lists, search), id, found) {
        var next :| next in Related(db, id, parts[0]) && Holds(db, Nest(rest, lists[1..], search), next, found);
        NestMeansChain(db, rest, lists[1..], search, next, found);
        var ids :| Arrives(db, rest, next, search, found, ids);
        ChainCons(db, parts, id, ids, search, found);
      }
      if Reaches(db, parts, id, search, found) {
        var ids :| Arrives(db, parts, id, search, found, ids);
        ChainTail(db, parts, id, ids, search, found);
        NestMeansChain(db, rest, lists[1..], search, ids[1], found);
      }
    }
  }

  lemma ChainCons(db: Table, parts: seq<string>, id: RowId, ids: seq<RowId>, search: string, found: (string, string) -> bool)
    requires |parts| > 1 && |ids| > 0 && ids[0] in Related(db, id, parts[0])
    requires Arrives(db, parts[1..], ids[0], search, found, ids)
    ensures Arrives(db, parts, id, search, found, [id] + ids)
  {
  }

  lemma ChainTail(db: Table, parts: seq<string>, id: RowId, ids: seq<RowId>, search: string, found: (string, string) -> bool)
    requires |parts| > 1 && Arrives(db, parts, id, search, found, ids)
    ensures |ids| > 1 && ids[1] in Related(db, id, parts[0])
    ensures Arrives(db, parts[1..], ids[1], search, found, ids[1..])
  {
  }

  // ---------------------------------------------------------------- the compiler

  /** The filter names each hop with the wrapper its relation needs, and ends in the leaf. */
  predicate WellTyped(schema: Schema, model: string, c: Condition)
    decreases c
  {
    model in schema &&
    match c
    case Contains(field, _) => IsStringField(schema[model], field)
    case Hop(field, some, inner) =>
      && field in schema[model] && schema[model][field].kind.Object? && some == schema[model][field].isList
      && WellTyped(schema, schema[model][field].typeName, inner)
  }

  /** What the first loop has found out after `k` segments. */
  predicate Walked(schema: Schema, model: string, hops: seq<string>, models: seq<string>, lists: seq<bool>, k: nat)
    requires k <= |hops|
  {
    && |models| == k + 1 && |lists| == k && models[0] == model
    && (forall i :: 0 <= i < k ==> models[i] in schema && Relates(schema[models[i]], hops[i], models[i + 1])
                                   && lists[i] == schema[models[i]][hops[i]].isList)
  }

  /** There is only one way to follow the hops. */
  lemma {:induction false} OneTour(schema: Schema, model: string, hops: seq<string>, models: seq<string>, lists: seq<bool>,
                                   k: nat, others: seq<string>)
    requires k <= |hops| && Walked(schema, model, hops, models, lists, k)
    requires Leads(schema, hops, others) && others[0] == model
    ensures others[..k + 1] == models
    decreases k
  {
    if k > 0 {
      assert Walked(schema, model, hops, models[..k], lists[..k - 1], k - 1);
      OneTour(schema, model, hops, models[..k], lists[..k - 1], k - 1, others);
      assert others[k - 1] == models[..k][k - 1];
      assert Relates(schema[others[k - 1]], hops[k - 1], others[k - 1 + 1]);
      assert Relates(schema[models[k - 1]], hops[k - 1], models[k - 1 + 1]);
      assert others[..k + 1] == others[..k] + [others[k]];
    }
  }

  /** The compiled filter from segment `k` on is well typed in the model reached there. */
  lemma {:induction false} NestTyped(schema: Schema, model: string, parts: seq<string>, models: seq<string>, lists: seq<bool>,
                                     search: string, k: nat)
    requires |parts| == |lists| + 1 && k <= |lists|
    requires Walked(schema, model, parts[..|parts| - 1], models, lists, |lists|)
    requires models[|lists|] in schema && IsStringField(schema[models[|lists|]], parts[|lists|])
    ensures WellTyped(schema, models[k], Nest(parts[k..], lists[k..], search))
    decreases |lists| - k
  {
    if k < |lists| {
      NestTyped(schema, model, parts, models, lists, search, k + 1);
      assert parts[k..][1..] == parts[k + 1..] && lists[k..][1..] == lists[k + 1..];
      assert Relates(schema[models[k]], parts[..|parts| - 1][k], models[k + 1]);
    }
  }

  class Paginator {
    const schema: Schema
    var cache: map<string, Fields>

    /** The metadata cache holds nothing but what the schema says. */
    ghost predicate Valid()
      reads this
    {
      forall m :: m in cache ==> m in schema && cache[m] == schema[m]
    }

    constructor (schema: Schema)
      ensures this.schema == schema && Valid()
    {
      this.schema := schema;
      cache := map[];
    }

    /** `modelFields`: a model's fields, remembered after the first lookup. */
    method ModelFields(model: string) returns (r: Result<Fields>)
      requires Valid()
      modifies this
      ensures Valid()
      ensures r == if model in schema then Ok(schema[model]) else Err(UnknownModel(model))
      ensures cache == if r.Ok? then old(cache)[model := schema[model]] else old(cache)
    {
      if model in cache {
        assert cache == cache[model := cache[model]];
        return Ok(cache[model]);
      }
      if model !in schema {
        return Err(UnknownModel(model));
      }
      cache := cache[model := schema[model]];
      return Ok(schema[model]);
    }

    /** The first loop: every segment but the last must be a relation. */
    method FollowHops(model: string, hops: seq<string>)
      returns (r: Result<string>, lists: seq<bool>, ghost models: seq<string>)
      requires Valid()
      modifies this
      ensures Valid()
      ensures r.Ok? ==> Walked(schema, model, hops, models, lists, |hops|) && r.value == models[|hops|]
      ensures r.Err? ==> !exists others :: Leads(schema, hops, others) && others[0] == model
      ensures r.Err? ==> |lists| < |hops| && Walked(schema, model, hops, models, lists, |lists|)
                         && r.error == if models[|lists|] in schema then NotARelation(hops[|lists|], models[|lists|])
                                       else UnknownModel(models[|lists|])
    {
      lists, models := [], [model];
      var current := model;
      for k := 0 to |hops|
        invariant Valid()
        invariant Walked(schema, model, hops, models, lists, k) && current == models[k]
      {
        var fields := ModelFields(current);
        forall others | Leads(schema, hops, others) && others[0] == model
          ensures current in schema && Relates(schema[current], hops[k], others[k + 1])
        {
          OneTour(schema, model, hops, models, lists, k, others);
          assert others[..k + 1][k] == others[k];
        }
        if fields.Err? {
          return Err(fields.error), lists, models;
        }
        if hops[k] !in fields.value || !fields.value[hops[k]].kind.Object? {
          return Err(NotARelation(hops[k], current)), lists, models;
        }
        var meta := fields.value[hops[k]];
        lists, models, current := lists + [meta.isList], models + [meta.typeName], meta.typeName;
      }
      r := Ok(current);
    }

    /** The second loop: wraps the leaf condition from the inside out. */
    method WrapHops(parts: seq<string>, lists: seq<bool>, search: string) returns (c: Condition)
      requires |parts| == |lists| + 1
      ensures c == Nest(parts, lists, search)
    {
      c := Contains(parts[|lists|], search);
      assert parts[|lists|..] == [parts[|lists|]];
      var i := |lists|;
      while i > 0
        invariant 0 <= i <= |lists| && c == Nest(parts[i..], lists[i..], search)
      {
        i := i - 1;
        assert parts[i..][1..] == parts[i + 1..] && lists[i..][1..] == lists[i + 1..];
        c := Hop(parts[i], lists[i], c);
      }
      assert parts[0..] == parts && lists[0..] == lists;
    }

    /** `relationalCondition`: succeeds exactly on good paths, and then the filter is well typed and selects
        the rows from which a chain along the path ends in a match. */
    method RelationalCondition(model: string, path: string, search: string) returns (r: Result<Condition>)
      requires Valid()
      modifies this
      ensures Valid()
      ensures r.Ok? <==> GoodPath(schema, model, Split(path))
      ensures r.Ok? ==> WellTyped(schema, model, r.value)
      ensures r.Ok? ==> forall db, id, found ::
                          Holds(db, r.value, id, found) <==> Reaches(db, Split(path), id, search, found)
    {
      var parts := Split(path);
      var hops, leaf := parts[..|parts| - 1], parts[|parts| - 1];
      var target, lists, models := FollowHops(model, hops);
      if target.Err? {
        return Err(target.error);
      }
      var fields := ModelFields(target.value);
      if GoodPath(schema, model, parts) {
        ghost var others :| IsTour(schema, model, parts, others);
        OneTour(schema, model, hops, models, lists, |hops|, others);
        assert others[..|hops| + 1] == others;
      }
      if fields.Err? {
        return Err(fields.error);
      }
      if leaf !in fields.value || !fields.value[leaf].kind.Scalar? || fields.value[leaf].typeName != "String" {
        return Err(NotAStringField(leaf, target.value));
      }
      assert IsTour(schema, model, parts, models);
      var c := WrapHops(parts, lists, search);
      NestTyped(schema, model, parts, models, lists, search, 0);
      assert parts[0..] == parts && lists[0..] == lists;
      forall db, id, found ensures Holds(db, c, id, found) <==> Reaches(db, parts, id, search, found) {
        NestMeansChain(db, parts, lists, search, id, found);
      }
      return Ok(c);
    }

    /** `searchConditions`: one filter per search field, joined by OR. Fields without a dot are not checked
        against the schema. */
    method SearchConditions(fields: seq<string>, search: string, model: Option<string>)
      returns (r: Result<seq<Condition>>)
      requires Valid()
      modifies this
      ensures Valid()
      ensures r.Ok? <==> forall i :: 0 <= i < |fields| ==> Searchable(schema, model, fields[i])
      ensures r.Ok? ==> Selects(r.value, fields, search)
    {
      var cs := [];
      for k := 0 to |fields|
        invariant Valid() && |cs| == k
        invariant forall i :: 0 <= i < k ==> Searchable(schema, model, fields[i])
        invariant Selects(cs, fields[..k], search)
      {
        var c;
        if '.' !in fields[k] {
          c := Contains(fields[k], search);
          ScalarField(fields[k], search);
        } else if model.None? {
          return Err(ModelNameRequired(fields[k]));
        } else {
          var one := RelationalCondition(model.value, fields[k], search);
          if one.Err? { return Err(one.error); }
          c := one.value;
        }
        SelectsMore(cs, fields[..k], search, c, fields[k]);
        cs := cs + [c];
        assert fields[..k + 1] == fields[..k] + [fields[k]];
      }
      assert fields[..|fields|] == fields;
      r := Ok(cs);
    }
  }

  ghost predicate Searchable(schema: Schema, model: Option<string>, field: string) {
    '.' in field ==> model.Some? && GoodPath(schema, model.value, Split(field))
  }

  ghost predicate AnyHolds(db: Table, cs: seq<Condition>, id: RowId, found: (string, string) -> bool) {
    exists i :: 0 <= i < |cs| && Holds(db, cs[i], id, found)
  }

  ghost predicate AnyReaches(db: Table, fields: seq<string>, id: RowId, search: string, found: (string, string) -> bool) {
    exists i :: 0 <= i < |fields| && Reaches(db, Split(fields[i]), id, search, found)
  }

  /** The filters, joined by OR, select the rows from which some search field reaches a match. */
  ghost predicate Selects(cs: seq<Condition>, fields: seq<string>, search: string) {
    forall db, id, found :: AnyHolds(db, cs, id, found) <==> AnyReaches(db, fields, id, search, found)
  }

  lemma SelectsMore(cs: seq<Condition>, fields: seq<string>, search: string, c: Condition, field: string)
    requires Selects(cs, fields, search)
    requires forall db, id, found :: Holds(db, c, id, found) <==> Reaches(db, Split(field), id, search, found)
    ensures Selects(cs + [c], fields + [field], search)
  {
    forall db, id, found
      ensures AnyHolds(db, cs + [c], id, found) <==> AnyReaches(db, fields + [field], id, search, found)
    {
      assert (cs + [c])[|cs|] == c && (fields + [field])[|fields|] == field;
      if AnyHolds(db, cs, id, found) {
        var i :| 0 <= i < |cs| && Holds(db, cs[i], id, found);
        assert (cs + [c])[i] == cs[i];
      }
      if AnyReaches(db, fields, id, search, found) {
        var i :| 0 <= i < |fields| && Reaches(db, Split(fields[i]), id, search, found);
        assert (fields + [field])[i] == fields[i];
      }
      if AnyHolds(db, cs + [c], id, found) {
        var i :| 0 <= i < |cs + [c]| && Holds(db, (cs + [c])[i], id, found);
        if i < |cs| { assert (cs + [c])[i] == cs[i]; }
      }
      if AnyReaches(db, fields + [field], id, search, found) {
        var i :| 0 <= i < |fields + [field]| && Reaches(db, Split((fields + [field])[i]), id, search, found);
        if i < |fields| { assert (fields + [field])[i] == fields[i]; }
      }
    }
  }

  lemma {:induction false} NoDots(field: string)
    requires '.' !in field
    ensures Split(field) == [field]
  {
  }

  lemma ScalarField(field: string, search: string)
    requires '.' !in field
    ensures forall db, id, found ::
              Holds(db, Contains(field, search), id, found) <==> Reaches(db, Split(field), id, search, found)
  {
    NoDots(field);
    forall db, id, found ensures Holds(db, Contains(field, search), id, found) <==> Reaches(db, [field], id, search, found) {
      NestMeansChain(db, [field], [], search, id, found);
      assert Nest([field], [], search) == Contains(field, search);
    }
  }
}
