/**
 * The clause value types of the query builder (WhereClause, BooleanClause,
 * WithinDistanceClause, FieldFunction, the two group-by clauses, SortClause,
 * LimitClause, OffsetClause), the free factories `where`, `and`, `or` and
 * `withinDistance`, and the plain objects those constructors build: the
 * shape, with its `type` tags, that reaches the execution engine.
 */
module Clauses {
  import opened Values

  /**
   * The arguments of a variadic call: either a run of positional arguments
   * or a single list argument. `ToArray` is the normaliser: a list argument
   * passes straight through, otherwise the positional arguments form the list.
   */
  datatype Args<T> = Spread(values: seq<T>) | Listed(list: seq<T>)

  function ToArray<T>(args: Args<T>): seq<T>
  {
    match args
    case Spread(values) => values
    case Listed(list) => list
  }

  /**
   * The normaliser for calls whose arguments may be any value, where a list
   * argument is itself a value: a first argument that is an array is the
   * list, otherwise the positional arguments are.
   */
  function ArgumentsToArray(args: seq<Value>): (list: seq<Value>)
    ensures |args| > 0 && args[0].Arr? ==> list == args[0].items
    ensures (|args| == 0 || !args[0].Arr?) ==> list == args
  {
    if |args| > 0 && args[0].Arr? then args[0].items else args
  }

  // Named constants of the query module.

  /** Aggregation operations. */
  const COUNT := "count"
  const SUM := "sum"
  const MAX := "max"
  const MIN := "min"
  const AVG := "avg"

  /** Sort orders. */
  const ASCENDING := Num(1)
  const DESCENDING := Num(-1)

  /** Date-part functions for derived group-by fields. */
  const MONTH := "month"
  const DAY := "dayOfMonth"
  const YEAR := "year"
  const HOUR := "hour"
  const MINUTE := "minute"
  const SECOND := "second"

  /** Distance units for geospatial clauses. */
  const METER := "meter"
  const KM := "km"
  const MILE := "mile"

  datatype BoolKind = AndKind | OrKind

  /** A predicate clause: a leaf comparison, an and/or tree, or a spatial constraint. */
  datatype Clause =
    | WhereClause(lhs: string, operator: string, rhs: Value)
    | BooleanClause(kind: BoolKind, whereClauses: seq<Clause>)
    | WithinDistanceClause(locationField: string, center: Value, distance: Value, distanceUnit: string)

  /** An operation applied to a field, producing a field called `name`. */
  datatype FieldFunction = FieldFunction(operation: string, field: string, name: string)

  /** A grouping key: a field used verbatim, or a field derived by a function. */
  datatype GroupBy =
    | GroupBySingleField(field: string)
    | GroupByFunction(operation: string, field: string, name: string)

  /** The list entries `sortBy` pairs up; an order past the end of the list is `undefined`. */
  datatype SortClause = SortClause(fieldName: Value, sortOrder: Value)

  datatype LimitClause = LimitClause(limit: Value)

  datatype OffsetClause = OffsetClause(offset: Value)

  function KindName(k: BoolKind): string
  {
    match k
    case AndKind => "and"
    case OrKind => "or"
  }

  /** The `type` tag of an object, as a reader of `o.type` sees it. */
  function TypeOf(v: Value): Value
  {
    if v.Obj? then Get(v.props, "type") else Undefined
  }

  /** The names of an object's own properties, in order. */
  function Keys(props: seq<Prop>): seq<string>
  {
    seq(|props|, i requires 0 <= i < |props| => props[i].key)
  }

  /** The `type` tag each clause constructor assigns. */
  function ClauseTag(c: Clause): string
  {
    match c
    case WhereClause(_, _, _) => "where"
    case BooleanClause(kind, _) => KindName(kind)
    case WithinDistanceClause(_, _, _, _) => "withinDistance"
  }

  /**
   * The object the clause constructors build: tagged with the variant's
   * `type`, own properties in the order the constructor assigns them.
   */
  function ClauseObject(c: Clause): (v: Value)
    ensures v.Obj? && TypeOf(v) == Str(ClauseTag(c))
    ensures Keys(v.props) ==
      match c
      case WhereClause(_, _, _) => ["type", "lhs", "operator", "rhs"]
      case BooleanClause(_, _) => ["type", "whereClauses"]
      case WithinDistanceClause(_, _, _, _) => ["type", "locationField", "center", "distance", "distanceUnit"]
  {
    match c
    case WhereClause(lhs, op, rhs) =>
      Obj([Prop("type", Str("where")), Prop("lhs", Str(lhs)), Prop("operator", Str(op)), Prop("rhs", rhs)])
    case BooleanClause(kind, children) =>
      Obj([Prop("type", Str(KindName(kind))),
           Prop("whereClauses", Arr(seq(|children|, i requires 0 <= i < |children| => ClauseObject(children[i]))))])
    case WithinDistanceClause(field, center, distance, unit) =>
      Obj([Prop("type", Str("withinDistance")), Prop("locationField", Str(field)), Prop("center", center),
           Prop("distance", distance), Prop("distanceUnit", Str(unit))])
  }

  function ParseWhere(props: seq<Prop>): Option<Clause>
  {
    var l, o := Get(props, "lhs"), Get(props, "operator");
    if l.Str? && o.Str? then Some(WhereClause(l.s, o.s, Get(props, "rhs"))) else None
  }

  function ParseWithinDistance(props: seq<Prop>): Option<Clause>
  {
    var f, u := Get(props, "locationField"), Get(props, "distanceUnit");
    if f.Str? && u.Str? then Some(WithinDistanceClause(f.s, Get(props, "center"), Get(props, "distance"), u.s))
    else None
  }

  /**
   * Reads a clause back from an object by its `type` tag and named
   * properties: how a consumer tells the variants apart.
   */
  function ParseClause(v: Value): Option<Clause>
  {
    match v
    case Obj(props) =>
      var tag := TypeOf(v);
      if tag == Str("where") then ParseWhere(props)
      else if tag == Str("withinDistance") then ParseWithinDistance(props)
      else if tag == Str("and") || tag == Str("or") then
        var w := Find(props, "whereClauses");
        if w < 0 || !props[w].val.Arr? then None
        else
          var items := props[w].val.items;
          if forall i :: 0 <= i < |items| ==> ParseClause(items[i]).Some? then
            Some(BooleanClause(if tag == Str("and") then AndKind else OrKind,
                               seq(|items|, i requires 0 <= i < |items| => ParseClause(items[i]).value)))
          else None
      else None
    case _ => None
  }

  lemma WhereRoundTrip(lhs: string, op: string, rhs: Value)
    ensures ParseClause(ClauseObject(WhereClause(lhs, op, rhs))) == Some(WhereClause(lhs, op, rhs))
  {
    var props := [Prop("type", Str("where")), Prop("lhs", Str(lhs)), Prop("operator", Str(op)), Prop("rhs", rhs)];
    assert ClauseObject(WhereClause(lhs, op, rhs)) == Obj(props);
    GetAt(props, 0, "type");
    GetAt(props, 1, "lhs");
    GetAt(props, 2, "operator");
    GetAt(props, 3, "rhs");
    assert ParseClause(Obj(props)) == ParseWhere(props);
  }

  lemma WithinDistanceRoundTrip(field: string, center: Value, distance: Value, unit: string)
    ensures var c := WithinDistanceClause(field, center, distance, unit);
            ParseClause(ClauseObject(c)) == Some(c)
  {
    var props := [Prop("type", Str("withinDistance")), Prop("locationField", Str(field)), Prop("center", center),
                  Prop("distance", distance), Prop("distanceUnit", Str(unit))];
    assert ClauseObject(WithinDistanceClause(field, center, distance, unit)) == Obj(props);
    GetAt(props, 0, "type");
    GetAt(props, 1, "locationField");
    GetAt(props, 2, "center");
    GetAt(props, 3, "distance");
    GetAt(props, 4, "distanceUnit");
    assert ParseClause(Obj(props)) == ParseWithinDistance(props);
  }

  /** Every clause object reads back as the clause that built it. */
  lemma {:induction false} ClauseRoundTrip(c: Clause)
    ensures ParseClause(ClauseObject(c)) == Some(c)
  {
    match c
    case WhereClause(lhs, op, rhs) =>
      WhereRoundTrip(lhs, op, rhs);
    case WithinDistanceClause(field, center, distance, unit) =>
      WithinDistanceRoundTrip(field, center, distance, unit);
    case BooleanClause(kind, children) =>
      var props := ClauseObject(c).props;
      var items := props[1].val.items;
      GetAt(props, 0, "type");
      GetAt(props, 1, "whereClauses");
      forall i | 0 <= i < |children|
        ensures ParseClause(items[i]) == Some(children[i])
      {
        ClauseRoundTrip(children[i]);
      }
      assert seq(|items|, i requires 0 <= i < |items| => ParseClause(items[i]).value) == children;
  }

  /** Two clauses that build the same object are the same clause. */
  lemma ClauseObjectInjective(a: Clause, b: Clause)
    ensures ClauseObject(a) == ClauseObject(b) ==> a == b
  {
    ClauseRoundTrip(a);
    ClauseRoundTrip(b);
  }

  /**
   * The object the two group-by constructors build, tagged `single` or
   * `function`, own properties in the order the constructor assigns them.
   */
  function GroupByObject(g: GroupBy): (v: Value)
    ensures v.Obj? && TypeOf(v) == Str(if g.GroupBySingleField? then "single" else "function")
    ensures Keys(v.props) ==
      if g.GroupBySingleField? then ["type", "field"] else ["type", "operation", "field", "name"]
  {
    match g
    case GroupBySingleField(field) =>
      Obj([Prop("type", Str("single")), Prop("field", Str(field))])
    case GroupByFunction(op, field, name) =>
      Obj([Prop("type", Str("function")), Prop("operation", Str(op)), Prop("field", Str(field)), Prop("name", Str(name))])
  }

  /** Reads a group-by clause back by its `type` tag. */
  function ParseGroupBy(v: Value): Option<GroupBy>
  {
    match v
    case Obj(props) =>
      var tag, f := TypeOf(v), Get(props, "field");
      if tag == Str("single") && f.Str? then Some(GroupBySingleField(f.s))
      else if tag == Str("function") && f.Str? then
        var o, n := Get(props, "operation"), Get(props, "name");
        if o.Str? && n.Str? then Some(GroupByFunction(o.s, f.s, n.s)) else None
      else None
    case _ => None
  }

  lemma SingleFieldRoundTrip(field: string)
    ensures ParseGroupBy(GroupByObject(GroupBySingleField(field))) == Some(GroupBySingleField(field))
  {
    var props := [Prop("type", Str("single")), Prop("field", Str(field))];
    assert GroupByObject(GroupBySingleField(field)) == Obj(props);
    GetAt(props, 0, "type");
    GetAt(props, 1, "field");
  }

  lemma FunctionRoundTrip(op: string, field: string, name: string)
    ensures ParseGroupBy(GroupByObject(GroupByFunction(op, field, name))) == Some(GroupByFunction(op, field, name))
  {
    var props := [Prop("type", Str("function")), Prop("operation", Str(op)), Prop("field", Str(field)),
                  Prop("name", Str(name))];
    assert GroupByObject(GroupByFunction(op, field, name)) == Obj(props);
    GetAt(props, 0, "type");
    GetAt(props, 1, "operation");
    GetAt(props, 2, "field");
    GetAt(props, 3, "name");
  }

  /** The `type` tag tells the two group-by variants apart, with nothing lost. */
  lemma GroupByRoundTrip(g: GroupBy)
    ensures ParseGroupBy(GroupByObject(g)) == Some(g)
  {
    match g
    case GroupBySingleField(field) => SingleFieldRoundTrip(field);
    case GroupByFunction(op, field, name) => FunctionRoundTrip(op, field, name);
  }

  // The free factories of the query module.

  /** `where(fieldName, op, value)`: a leaf comparison clause. */
  function Where(fieldName: string, op: string, value: Value): (c: Clause)
    ensures ClauseObject(c) ==
      Obj([Prop("type", Str("where")), Prop("lhs", Str(fieldName)), Prop("operator", Str(op)), Prop("rhs", value)])
  {
    WhereClause(fieldName, op, value)
  }

  /** `and(clauses...)`: a conjunction of the normalised clauses, in argument order. */
  function And(args: Args<Clause>): (c: Clause)
    ensures TypeOf(ClauseObject(c)) == Str("and")
    ensures c.BooleanClause? && c.whereClauses == ToArray(args)
  {
    BooleanClause(AndKind, ToArray(args))
  }

  /** `or(clauses...)`: a disjunction of the normalised clauses, in argument order. */
  function Or(args: Args<Clause>): (c: Clause)
    ensures TypeOf(ClauseObject(c)) == Str("or")
    ensures c.BooleanClause? && c.whereClauses == ToArray(args)
  {
    BooleanClause(OrKind, ToArray(args))
  }

  /** `withinDistance(locationField, center, distance, distanceUnit)`: the four arguments copied as they are. */
  function WithinDistance(locationField: string, center: Value, distance: Value, distanceUnit: string): (c: Clause)
    ensures ClauseObject(c) ==
      Obj([Prop("type", Str("withinDistance")), Prop("locationField", Str(locationField)), Prop("center", center),
           Prop("distance", distance), Prop("distanceUnit", Str(distanceUnit))])
  {
    WithinDistanceClause(locationField, center, distance, distanceUnit)
  }

  /** `and(where('x','=',5), where('y','<',10))` builds the nested object a consumer receives. */
  lemma AndOfTwoWheres()
    ensures ClauseObject(And(Spread([Where("x", "=", Num(5)), Where("y", "<", Num(10))]))) ==
      Obj([Prop("type", Str("and")),
           Prop("whereClauses", Arr([
             Obj([Prop("type", Str("where")), Prop("lhs", Str("x")), Prop("operator", Str("=")), Prop("rhs", Num(5))]),
             Obj([Prop("type", Str("where")), Prop("lhs", Str("y")), Prop("operator", Str("<")), Prop("rhs", Num(10))])]))])
  {
    var children := [Where("x", "=", Num(5)), Where("y", "<", Num(10))];
    assert seq(|children|, i requires 0 <= i < |children| => ClauseObject(children[i])) ==
      [ClauseObject(children[0]), ClauseObject(children[1])];
  }
}
