/** Compiling a path of declared foreign keys into a query, with the meaning of both: the chain of joins
    over the tables, and the rows reached by following the keys one after another. */
module Catalog {
  import opened Records
  import F = Fetching

  type RelKey = (string, string)

  datatype Relation = Relation(columns: set<string>, primaryKey: seq<string>)
  datatype ForeignKey = ForeignKey(source: RelKey, target: RelKey, columns: seq<string>, targetColumns: seq<string>)
  datatype Catalog = Catalog(relations: map<RelKey, Relation>, foreignKeys: map<string, ForeignKey>)

  datatype RecordKey = RecordKey(column: string, value: string)
  datatype RecordQuery = RecordQuery(relation: string, keys: seq<RecordKey>)

  const ORDER: RelKey := ("public", "order")

  /** The position of the first dot, or the length of the name. */
  function DotAt(name: string): (n: nat)
    ensures n <= |name| && (n < |name| ==> name[n] == '.') && forall i | 0 <= i < n :: name[i] != '.'
  {
    if name == "" || name[0] == '.' then 0 else 1 + DotAt(name[1..])
  }

  /** A name without a dot is in the public schema; otherwise the first dot ends the schema. */
  function RelationKey(name: string): RelKey {
    var n := DotAt(name);
    if n < |name| then (name[..n], name[n + 1..]) else ("public", name)
  }

  /** A qualified name is its schema and its table, an unqualified one a table of the public schema. */
  lemma RelationKeyExactly(schema: string, name: string)
    requires '.' !in schema
    ensures RelationKey(schema + "." + name) == (schema, name) && RelationKey(schema) == ("public", schema)
  {
    var qualified, n := schema + "." + name, DotAt(schema + "." + name);
    assert qualified[|schema|] == '.' && forall i | 0 <= i < |schema| :: qualified[i] == schema[i];
    assert n == |schema|;
    assert qualified[..n] == schema && qualified[n + 1..] == name;
  }

  function ColumnSet(keys: seq<RecordKey>): set<string> {
    set i | 0 <= i < |keys| :: keys[i].column
  }

  predicate ColumnsDistinct(keys: seq<RecordKey>) {
    forall i, j | 0 <= i < j < |keys| :: keys[i].column != keys[j].column
  }

  function ValueOf(keys: seq<RecordKey>, column: string): string {
    if keys == [] then ""
    else if keys[|keys| - 1].column == column then keys[|keys| - 1].value
    else ValueOf(keys[..|keys| - 1], column)
  }

  function Values(keys: seq<RecordKey>, columns: seq<string>): (r: seq<string>)
    ensures |r| == |columns| && forall i | 0 <= i < |columns| :: r[i] == ValueOf(keys, columns[i])
  {
    seq(|columns|, i requires 0 <= i < |columns| => ValueOf(keys, columns[i]))
  }

  function SeqSet(columns: seq<string>): set<string> {
    set c | c in columns
  }

  /** `record_predicate`: the primary key values, if the request gives the complete key once. */
  function RecordParams(catalog: Catalog, request: RecordQuery): Option<seq<string>> {
    var key := RelationKey(request.relation);
    if key !in catalog.relations || catalog.relations[key].primaryKey == [] then None
    else if !ColumnsDistinct(request.keys) || ColumnSet(request.keys) != SeqSet(catalog.relations[key].primaryKey)
    then None
    else Some(Values(request.keys, catalog.relations[key].primaryKey))
  }

  lemma {:induction false} ValueGiven(keys: seq<RecordKey>, column: string)
    requires column in ColumnSet(keys)
    ensures RecordKey(column, ValueOf(keys, column)) in keys
  {
    var n := |keys| - 1;
    if keys[n].column != column {
      var i :| 0 <= i < |keys| && keys[i].column == column;
      assert keys[..n][i].column == column;
      ValueGiven(keys[..n], column);
    }
  }

  /** The parameters of a named record are the given values, in the order of the primary key. */
  lemma RecordParamsExact(catalog: Catalog, request: RecordQuery)
    requires RecordParams(catalog, request).Some?
    ensures var columns := catalog.relations[RelationKey(request.relation)].primaryKey;
            var params := RecordParams(catalog, request).value;
            && |params| == |columns|
            && forall i | 0 <= i < |columns| :: RecordKey(columns[i], params[i]) in request.keys
  {
    var columns := catalog.relations[RelationKey(request.relation)].primaryKey;
    forall i | 0 <= i < |columns|
      ensures RecordKey(columns[i], RecordParams(catalog, request).value[i]) in request.keys
    {
      assert columns[i] in SeqSet(columns);
      ValueGiven(request.keys, columns[i]);
    }
  }

  /** A record can be named exactly when its relation is known and has a primary key, and the request gives every
      column of the key, and no other column, exactly once. */
  lemma RecordParamsGiven(catalog: Catalog, request: RecordQuery)
    ensures RecordParams(catalog, request).Some?
            <==> var key := RelationKey(request.relation);
                 && key in catalog.relations && catalog.relations[key].primaryKey != []
                 && (forall i, j | 0 <= i < j < |request.keys| :: request.keys[i].column != request.keys[j].column)
                 && (forall i | 0 <= i < |request.keys| :: request.keys[i].column in catalog.relations[key].primaryKey)
                 && (forall column | column in catalog.relations[key].primaryKey ::
                       exists i | 0 <= i < |request.keys| :: request.keys[i].column == column)
  {
    var key := RelationKey(request.relation);
    if key in catalog.relations {
      var columns := catalog.relations[key].primaryKey;
      if RecordParams(catalog, request).Some? {
        forall i | 0 <= i < |request.keys|
          ensures request.keys[i].column in columns
        {
          assert request.keys[i].column in ColumnSet(request.keys);
        }
        forall column | column in columns
          ensures exists i | 0 <= i < |request.keys| :: request.keys[i].column == column
        {
          assert column in SeqSet(columns);
        }
      }
    }
    hide RelationKey;
  }

  datatype Join = Join(target: RelKey, left: seq<string>, right: seq<string>)
  datatype Query = Query(root: RelKey, primaryKey: seq<string>, params: seq<string>, joins: seq<Join>)

  /** The join that follows a foreign key from here: to its target, or backwards to its source. */
  function Edge(fk: ForeignKey, current: RelKey): Option<Join> {
    if current == fk.source then Some(Join(fk.target, fk.columns, fk.targetColumns))
    else if current == fk.target then Some(Join(fk.source, fk.targetColumns, fk.columns))
    else None
  }

  /** The next join of a path, unless it is unknown, does not continue it, or closes a cycle. */
  function NextJoin(catalog: Catalog, current: RelKey, visited: set<RelKey>, identifier: string): Option<Join> {
    if identifier !in catalog.foreignKeys then None
    else
      var join := Edge(catalog.foreignKeys[identifier], current);
      if join.None? then None
      else if join.value.target in visited || join.value.target !in catalog.relations then None
      else if |join.value.left| != |join.value.right| then None
      else join
  }

  function CompilePath(catalog: Catalog, current: RelKey, visited: set<RelKey>, path: seq<string>)
    : Option<seq<Join>>
    decreases |path|
  {
    if path == [] then (if current == ORDER then Some([]) else None)
    else
      var join := NextJoin(catalog, current, visited, path[0]);
      if join.None? then None
      else
        var rest := CompilePath(catalog, join.value.target, visited + {join.value.target}, path[1..]);
        if rest.None? then None else Some([join.value] + rest.value)
  }

  function Compile(catalog: Catalog, request: RecordQuery, path: seq<string>): Option<Query> {
    var params := RecordParams(catalog, request);
    if params.None? then None
    else
      var root := RelationKey(request.relation);
      var joins := CompilePath(catalog, root, {root}, path);
      if joins.None? then None
      else Some(Query(root, catalog.relations[root].primaryKey, params.value, joins.value))
  }

  function Prepend(front: seq<Join>, rest: Option<seq<Join>>): Option<seq<Join>> {
    if rest.None? then None else Some(front + rest.value)
  }

  lemma CompileStep(catalog: Catalog, current: RelKey, visited: set<RelKey>, path: seq<string>, front: seq<Join>)
    requires path != []
    ensures var join := NextJoin(catalog, current, visited, path[0]);
            Prepend(front, CompilePath(catalog, current, visited, path))
            == if join.None? then None
               else Prepend(front + [join.value],
                            CompilePath(catalog, join.value.target, visited + {join.value.target}, path[1..]))
  {
    var join := NextJoin(catalog, current, visited, path[0]);
    if join.Some? {
      var rest := CompilePath(catalog, join.value.target, visited + {join.value.target}, path[1..]);
      if rest.Some? { assert front + ([join.value] + rest.value) == (front + [join.value]) + rest.value; }
    }
  }

  /** `source_query`: the joins grow edge by edge while the current relation moves along the path. */
  method SourceQuery(catalog: Catalog, request: RecordQuery, path: seq<string>) returns (query: Option<Query>)
    ensures query == Compile(catalog, request, path)
  {
    var params := RecordParams(catalog, request);
    if params.None? {
      return None;
    }
    var root := RelationKey(request.relation);
    var current := root;
    var joins: seq<Join> := [];
    var visited := {root};
    var index := 0;
    ghost var whole := CompilePath(catalog, root, {root}, path);
    assert path[0..] == path && (whole.Some? ==> [] + whole.value == whole.value);
    while index < |path|
      invariant 0 <= index <= |path|
      invariant Prepend(joins, CompilePath(catalog, current, visited, path[index..])) == whole
    {
      CompileStep(catalog, current, visited, path[index..], joins);
      assert path[index..][1..] == path[index + 1..];
      var join := NextJoin(catalog, current, visited, path[index]);
      if join.None? {
        return None;
      }
      visited := visited + {join.value.target};
      current := join.value.target;
      joins := joins + [join.value];
      index := index + 1;
    }
    assert path[index..] == [] && joins + [] == joins;
    if current != ORDER {
      return None;
    }
    query := Some(Query(root, catalog.relations[root].primaryKey, params.value, joins));
  }

  // ---------- what the query selects ----------

  datatype Cell = Null | Val(text: string)
  type Tuple = map<string, Cell>
  type Database = map<RelKey, seq<Tuple>>

  function Get(row: Tuple, column: string): Cell {
    if column in row then row[column] else Null
  }

  function Table(db: Database, key: RelKey): seq<Tuple> {
    if key in db then db[key] else []
  }

  /** SQL equality: a null equals nothing. */
  predicate Equal(a: Cell, b: Cell) {
    a.Val? && a == b
  }

  predicate KeyMatches(row: Tuple, columns: seq<string>, values: seq<string>) {
    |columns| == |values| && forall i | 0 <= i < |columns| :: Get(row, columns[i]) == Val(values[i])
  }

  predicate JoinHolds(join: Join, left: Tuple, right: Tuple) {
    && |join.left| == |join.right|
    && forall i | 0 <= i < |join.left| :: Equal(Get(left, join.left[i]), Get(right, join.right[i]))
  }

  /** One row per joined table, each satisfying the ON condition with the row before it. */
  ghost predicate Chain(db: Database, joins: seq<Join>, rows: seq<Tuple>) {
    && |rows| == |joins| + 1
    && forall i | 0 <= i < |joins| ::
         rows[i + 1] in Table(db, joins[i].target) && JoinHolds(joins[i], rows[i], rows[i + 1])
  }

  ghost predicate SelectedBy(db: Database, q: Query, rows: seq<Tuple>, id: Cell) {
    && Chain(db, q.joins, rows)
    && rows[0] in Table(db, q.root) && KeyMatches(rows[0], q.primaryKey, q.params)
    && Get(rows[|rows| - 1], "id") == id
  }

  /** The query selects this order identifier. */
  ghost predicate Selects(db: Database, q: Query, id: Cell) {
    exists rows :: SelectedBy(db, q, rows, id)
  }

  // ---------- what the path means ----------

  predicate References(fk: ForeignKey, child: Tuple, parent: Tuple) {
    && |fk.columns| == |fk.targetColumns|
    && forall i | 0 <= i < |fk.columns| :: Equal(Get(child, fk.columns[i]), Get(parent, fk.targetColumns[i]))
  }

  /** Following the foreign keys from a row of relation `key`, one may arrive at the order row `end`. */
  ghost predicate Follows(catalog: Catalog, db: Database, path: seq<string>, key: RelKey, row: Tuple, end: Tuple)
    decreases |path|
  {
    if path == [] then key == ORDER && row == end
    else
      && path[0] in catalog.foreignKeys
      && var fk := catalog.foreignKeys[path[0]];
         if key == fk.source
         then exists next ::
                next in Table(db, fk.target) && References(fk, row, next)
                && Follows(catalog, db, path[1..], fk.target, next, end)
         else key == fk.target
              && exists next ::
                   next in Table(db, fk.source) && References(fk, next, row)
                   && Follows(catalog, db, path[1..], fk.source, next, end)
  }

  lemma EdgeMeans(fk: ForeignKey, key: RelKey, join: Join, row: Tuple, next: Tuple)
    requires Edge(fk, key) == Some(join)
    ensures JoinHolds(join, row, next) <==>
            if key == fk.source then References(fk, row, next) else References(fk, next, row)
  {
  }

  lemma {:induction false} ChainFollows(catalog: Catalog, db: Database, key: RelKey, visited: set<RelKey>,
                                        path: seq<string>, rows: seq<Tuple>)
    requires CompilePath(catalog, key, visited, path).Some?
    requires Chain(db, CompilePath(catalog, key, visited, path).value, rows)
    ensures Follows(catalog, db, path, key, rows[0], rows[|rows| - 1])
    decreases |path|
  {
    if path != [] {
      var join := NextJoin(catalog, key, visited, path[0]).value;
      var joins := CompilePath(catalog, key, visited, path).value;
      assert joins[1..] == CompilePath(catalog, join.target, visited + {join.target}, path[1..]).value;
      assert rows[1] in Table(db, joins[0].target) && JoinHolds(joins[0], rows[0], rows[1]);
      ChainTail(db, joins, rows);
      ChainFollows(catalog, db, join.target, visited + {join.target}, path[1..], rows[1..]);
      EdgeMeans(catalog.foreignKeys[path[0]], key, join, rows[0], rows[1]);
    }
  }

  lemma ChainTail(db: Database, joins: seq<Join>, rows: seq<Tuple>)
    requires joins != [] && Chain(db, joins, rows)
    ensures Chain(db, joins[1..], rows[1..])
  {
  }

  lemma {:induction false} FollowsChain(catalog: Catalog, db: Database, key: RelKey, visited: set<RelKey>,
                                        path: seq<string>, row: Tuple, end: Tuple) returns (rows: seq<Tuple>)
    requires CompilePath(catalog, key, visited, path).Some?
    requires Follows(catalog, db, path, key, row, end)
    ensures Chain(db, CompilePath(catalog, key, visited, path).value, rows)
    ensures rows[0] == row && rows[|rows| - 1] == end
    decreases |path|
  {
    if path == [] {
      rows := [row];
    } else {
      var fk := catalog.foreignKeys[path[0]];
      var join := NextJoin(catalog, key, visited, path[0]).value;
      var next :| next in Table(db, join.target)
                  && (if key == fk.source then References(fk, row, next) else References(fk, next, row))
                  && Follows(catalog, db, path[1..], join.target, next, end);
      EdgeMeans(fk, key, join, row, next);
      var rest := FollowsChain(catalog, db, join.target, visited + {join.target}, path[1..], next, end);
      rows := [row] + rest;
      var joins := CompilePath(catalog, key, visited, path).value;
      forall i | 0 <= i < |joins|
        ensures rows[i + 1] in Table(db, joins[i].target) && JoinHolds(joins[i], rows[i], rows[i + 1])
      {
        if i > 0 {
          var join := joins[1..][i - 1];
          assert rest[i] in Table(db, join.target) && JoinHolds(join, rest[i - 1], rest[i]);
        }
      }
    }
  }

  /** The row the record request names. */
  ghost predicate IsRecord(catalog: Catalog, db: Database, request: RecordQuery, row: Tuple) {
    var key := RelationKey(request.relation);
    && RecordParams(catalog, request).Some?
    && row in Table(db, key)
    && KeyMatches(row, catalog.relations[key].primaryKey, RecordParams(catalog, request).value)
  }

  /** From the record one arrives at the order with this identifier. */
  ghost predicate Reaches(catalog: Catalog, db: Database, request: RecordQuery, path: seq<string>, id: Cell) {
    exists row, end ::
      && IsRecord(catalog, db, request, row)
      && Follows(catalog, db, path, RelationKey(request.relation), row, end)
      && Get(end, "id") == id
  }

  /** The compiled query means the path: it selects exactly the orders that following the foreign keys
      from the record arrives at, for every database. */
  lemma QueryMeansPath(catalog: Catalog, db: Database, request: RecordQuery, path: seq<string>, id: Cell)
    requires Compile(catalog, request, path).Some?
    ensures Selects(db, Compile(catalog, request, path).value, id) <==> Reaches(catalog, db, request, path, id)
  {
    var q := Compile(catalog, request, path).value;
    var root := RelationKey(request.relation);
    hide Chain, Follows, CompilePath, RecordParams;
    if Selects(db, q, id) {
      var rows :| SelectedBy(db, q, rows, id);
      ChainFollows(catalog, db, root, {root}, path, rows);
      assert IsRecord(catalog, db, request, rows[0]);
    }
    if Reaches(catalog, db, request, path, id) {
      var row, end :| IsRecord(catalog, db, request, row)
                      && Follows(catalog, db, path, root, row, end) && Get(end, "id") == id;
      var rows := FollowsChain(catalog, db, root, {root}, path, row, end);
      assert SelectedBy(db, q, rows, id);
    }
  }

  /** The key leads from one relation to the other, forwards or backwards, column by column. */
  predicate LeadsTo(catalog: Catalog, identifier: string, here: RelKey, there: RelKey) {
    && identifier in catalog.foreignKeys
    && there in catalog.relations
    && var fk := catalog.foreignKeys[identifier];
       && |fk.columns| == |fk.targetColumns|
       && ((here == fk.source && there == fk.target) || (here != fk.source && here == fk.target && there == fk.source))
  }

  /** A simple walk along the path: from `stops[0]` to the orders, over relations not visited before. */
  predicate SimpleWalk(catalog: Catalog, stops: seq<RelKey>, visited: set<RelKey>, path: seq<string>) {
    && |stops| == |path| + 1
    && stops[|path|] == ORDER
    && (forall i | 0 <= i < |path| :: LeadsTo(catalog, path[i], stops[i], stops[i + 1]))
    && (forall i | 1 <= i < |stops| :: stops[i] !in visited)
    && (forall i, j | 1 <= i < j < |stops| :: stops[i] != stops[j])
  }

  lemma NextLeads(catalog: Catalog, current: RelKey, visited: set<RelKey>, identifier: string, there: RelKey)
    ensures (NextJoin(catalog, current, visited, identifier).Some?
             && NextJoin(catalog, current, visited, identifier).value.target == there)
            <==> LeadsTo(catalog, identifier, current, there) && there !in visited
  {
  }

  lemma {:induction false} CompiledWalk(catalog: Catalog, current: RelKey, visited: set<RelKey>, path: seq<string>)
    returns (stops: seq<RelKey>)
    requires CompilePath(catalog, current, visited, path).Some?
    ensures SimpleWalk(catalog, stops, visited, path) && stops[0] == current
    decreases |path|
  {
    if path == [] {
      stops := [current];
    } else {
      var there := NextJoin(catalog, current, visited, path[0]).value.target;
      NextLeads(catalog, current, visited, path[0], there);
      var rest := CompiledWalk(catalog, there, visited + {there}, path[1..]);
      stops := [current] + rest;
      assert rest == stops[1..];
      forall i | 0 <= i < |path|
        ensures LeadsTo(catalog, path[i], stops[i], stops[i + 1])
      {
        if i > 0 { assert LeadsTo(catalog, path[1..][i - 1], rest[i - 1], rest[i]); }
      }
    }
  }

  lemma {:induction false} WalkCompiles(catalog: Catalog, stops: seq<RelKey>, visited: set<RelKey>, path: seq<string>)
    requires SimpleWalk(catalog, stops, visited, path)
    ensures CompilePath(catalog, stops[0], visited, path).Some?
    decreases |path|
  {
    if path != [] {
      assert LeadsTo(catalog, path[0], stops[0], stops[1]);
      NextLeads(catalog, stops[0], visited, path[0], stops[1]);
      forall i | 0 <= i < |path| - 1
        ensures LeadsTo(catalog, path[1..][i], stops[1..][i], stops[1..][i + 1])
      {
        assert LeadsTo(catalog, path[i + 1], stops[i + 1], stops[i + 2]);
      }
      WalkCompiles(catalog, stops[1..], visited + {stops[1]}, path[1..]);
    }
  }

  /** A path compiles exactly when it is a simple walk of declared foreign keys from the record's relation
      to the orders, over readable relations. */
  lemma CompilesExactly(catalog: Catalog, request: RecordQuery, path: seq<string>)
    ensures Compile(catalog, request, path).Some?
            <==> RecordParams(catalog, request).Some?
                 && exists stops ::
                      SimpleWalk(catalog, stops, {RelationKey(request.relation)}, path)
                      && stops[0] == RelationKey(request.relation)
  {
    var root := RelationKey(request.relation);
    if Compile(catalog, request, path).Some? {
      var stops := CompiledWalk(catalog, root, {root}, path);
    }
    if exists stops :: SimpleWalk(catalog, stops, {root}, path) && stops[0] == root {
      var stops :| SimpleWalk(catalog, stops, {root}, path) && stops[0] == root;
      WalkCompiles(catalog, stops, {root}, path);
    }
  }

  /** Primary keys are unique, as the database enforces. */
  ghost predicate KeysUnique(catalog: Catalog, db: Database) {
    forall key, i, j, values | key in catalog.relations && 0 <= i < |Table(db, key)| && 0 <= j < |Table(db, key)|
                               && catalog.relations[key].primaryKey != []
                               && KeyMatches(Table(db, key)[i], catalog.relations[key].primaryKey, values)
                               && KeyMatches(Table(db, key)[j], catalog.relations[key].primaryKey, values) :: i == j
  }

  /** With unique keys the request names at most one row. */
  lemma RecordUnique(catalog: Catalog, db: Database, request: RecordQuery, a: Tuple, b: Tuple)
    requires KeysUnique(catalog, db) && IsRecord(catalog, db, request, a) && IsRecord(catalog, db, request, b)
    ensures a == b
  {
  }

  // ---------- one order or several ----------

  /** What SELECT DISTINCT with LIMIT 2 may return: different selected identifiers, all of them if there
      are fewer than two. */
  ghost predicate LimitTwo(db: Database, q: Query, ids: seq<Cell>) {
    && |ids| <= 2
    && (|ids| == 2 ==> ids[0] != ids[1])
    && (forall i | 0 <= i < |ids| :: Selects(db, q, ids[i]))
    && (|ids| < 2 ==> forall id :: Selects(db, q, id) ==> id in ids)
  }

  function IdRow(id: Cell): F.Row {
    [if id.Null? then F.NullValue else F.Scalar(id.text)]
  }

  function IdRows(ids: seq<Cell>): (rows: seq<F.Row>)
    ensures |rows| == |ids| && forall i | 0 <= i < |ids| :: rows[i] == IdRow(ids[i])
  {
    seq(|ids|, i requires 0 <= i < |ids| => IdRow(ids[i]))
  }

  /** The test of the verification: one row, nothing cut off, and it is the requested order. */
  predicate Accepts(orders: F.Outcome, orderId: string) {
    orders.Fetched? && !orders.truncated && |orders.rows| == 1 && orders.rows[0] == IdRow(Val(orderId))
  }

  /** LIMIT 2, the row limit and the truncation mark together decide uniqueness: the link is accepted
      exactly when the requested order is selected and no other, as long as one row fits the limits. */
  lemma AcceptedExactly(db: Database, q: Query, ids: seq<Cell>, rowLimit: nat, byteLimit: nat,
                        size: F.Row -> nat, orderId: string)
    requires LimitTwo(db, q, ids)
    ensures Accepts(F.Bounded(IdRows(ids), rowLimit, byteLimit, size), orderId)
            <==> && (forall id :: Selects(db, q, id) <==> id == Val(orderId))
                 && rowLimit >= 1 && 2 + size(IdRow(Val(orderId))) <= byteLimit
  {
    hide Selects;
    var rows := IdRows(ids);
    var r := F.Bounded(rows, rowLimit, byteLimit, size);
    F.UntruncatedComplete(rows, rowLimit, byteLimit, size);
    forall i | 0 <= i < |rows|
      ensures !F.LongText(rows[i]) && F.SafeRow(rows[i]) == rows[i]
    {
      SafeIdRow(ids[i]);
    }
    assert F.SafeRows(rows) == rows;
    SafeIdRow(Val(orderId));
    hide F.Bounded;
    if Accepts(r, orderId) {
      SingleId(rows, rowLimit, byteLimit, size);
      assert ids == [ids[0]] && ids[0] == Val(orderId);
    } else if forall id :: Selects(db, q, id) <==> id == Val(orderId) {
      assert |ids| == 1 && ids[0] == Val(orderId) by { OnlyOne(db, q, ids, Val(orderId)); }
      SingleId(rows, rowLimit, byteLimit, size);
    }
  }

  lemma OnlyOne(db: Database, q: Query, ids: seq<Cell>, only: Cell)
    requires LimitTwo(db, q, ids) && forall id :: Selects(db, q, id) <==> id == only
    ensures ids == [only]
  {
    hide Selects;
    assert Selects(db, q, only);
    forall i | 0 <= i < |ids|
      ensures ids[i] == only
    {
      assert Selects(db, q, ids[i]);
    }
    assert |ids| < 2 ==> only in ids;
  }

  lemma SafeIdRow(id: Cell)
    ensures !F.LongText(IdRow(id)) && F.SafeRow(IdRow(id)) == IdRow(id)
  {
  }

  /** A single untruncated row of identifiers is the whole answer. */
  lemma SingleId(rows: seq<F.Row>, rowLimit: nat, byteLimit: nat, size: F.Row -> nat)
    requires F.SafeRows(rows) == rows && forall i | 0 <= i < |rows| :: !F.LongText(rows[i])
    ensures var r := F.Bounded(rows, rowLimit, byteLimit, size);
            && r.Fetched?
            && (!r.truncated ==> r.rows == rows)
            && (|rows| == 1 ==> (!r.truncated <==> rowLimit >= 1 && 2 + size(rows[0]) <= byteLimit))
  {
  }

  /** Source-link soundness: an accepted link starts at the one row with the given primary key, and
      following the given foreign keys from it reaches the requested order and no other. */
  lemma AcceptedLinkSound(catalog: Catalog, db: Database, request: RecordQuery, path: seq<string>, ids: seq<Cell>,
                          rowLimit: nat, byteLimit: nat, size: F.Row -> nat, orderId: string)
    requires KeysUnique(catalog, db) && Compile(catalog, request, path).Some?
    requires LimitTwo(db, Compile(catalog, request, path).value, ids)
    requires Accepts(F.Bounded(IdRows(ids), rowLimit, byteLimit, size), orderId)
    ensures exists row :: OnlyRecord(catalog, db, request, row) && LeadsOnlyTo(catalog, db, request, path, row, orderId)
  {
    hide Compile, F.Bounded, LimitTwo, Reaches, IsRecord, KeysUnique;
    var q := Compile(catalog, request, path).value;
    AcceptedExactly(db, q, ids, rowLimit, byteLimit, size, orderId);
    forall id
      ensures Reaches(catalog, db, request, path, id) <==> id == Val(orderId)
    {
      QueryMeansPath(catalog, db, request, path, id);
      assert Selects(db, q, id) <==> id == Val(orderId);
    }
    ReachesOne(catalog, db, request, path, orderId);
  }

  lemma ReachesOne(catalog: Catalog, db: Database, request: RecordQuery, path: seq<string>, orderId: string)
    requires KeysUnique(catalog, db)
    requires forall id :: Reaches(catalog, db, request, path, id) <==> id == Val(orderId)
    ensures exists row :: OnlyRecord(catalog, db, request, row) && LeadsOnlyTo(catalog, db, request, path, row, orderId)
  {
    hide Follows, IsRecord, KeysUnique;
    assert Reaches(catalog, db, request, path, Val(orderId));
    var row, end :| IsRecord(catalog, db, request, row)
                    && Follows(catalog, db, path, RelationKey(request.relation), row, end)
                    && Get(end, "id") == Val(orderId);
    forall other | IsRecord(catalog, db, request, other)
      ensures other == row
    {
      RecordUnique(catalog, db, request, row, other);
    }
    forall other | Follows(catalog, db, path, RelationKey(request.relation), row, other)
      ensures Get(other, "id") == Val(orderId)
    {
      assert Reaches(catalog, db, request, path, Get(other, "id"));
    }
    assert OnlyRecord(catalog, db, request, row) && LeadsOnlyTo(catalog, db, request, path, row, orderId);
  }

  ghost predicate OnlyRecord(catalog: Catalog, db: Database, request: RecordQuery, row: Tuple) {
    IsRecord(catalog, db, request, row) && forall other | IsRecord(catalog, db, request, other) :: other == row
  }

  /** The path leads from the row to an order with this identifier, and only to such orders. */
  ghost predicate LeadsOnlyTo(catalog: Catalog, db: Database, request: RecordQuery, path: seq<string>, row: Tuple,
                              orderId: string) {
    var key := RelationKey(request.relation);
    && (exists end :: Follows(catalog, db, path, key, row, end) && Get(end, "id") == Val(orderId))
    && forall end | Follows(catalog, db, path, key, row, end) :: Get(end, "id") == Val(orderId)
  }
}
