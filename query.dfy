/**
 * The `Query` builder. Each builder method changes one part of the query
 * and returns the same query, so calls chain. The parts differ in how a
 * new call combines with earlier ones: `withFields`, `groupBy` and
 * `sortBy` replace, `aggregate` appends, `limit`, `offset`, the filter's
 * source and root clause and the list of ignored filter ids keep the last
 * value given, and `distinct`, `selectionOnly` and the blanket ignore flag
 * can only be switched on.
 *
 * `Step` is the meaning of one builder call on a snapshot of the query's
 * fields; the methods of class `Query` are proved against it, and the
 * lemmas below say what any sequence of calls leaves in each field.
 */
module Queries {
  import opened Values
  import opened Clauses
  import opened Filters

  /** An item given to `groupBy`: a field name (a JavaScript string) or a group-by clause object. */
  datatype GroupByArg = FieldName(name: string) | Verbatim(clause: GroupBy)

  /** The values of all the fields of a query, under the names a consumer reads. */
  datatype QueryState = QueryState(
    filter: Filter,
    fields: seq<string>,
    ignoreFilters_: bool,
    selectionOnly_: bool,
    ignoredFilterIds_: Value,
    groupByClauses: seq<GroupBy>,
    isDistinct: bool,
    aggregates: seq<FieldFunction>,
    sortClauses: seq<SortClause>,
    limitClause: Option<LimitClause>,
    offsetClause: Option<OffsetClause>,
    transform: Value)

  /** A newly constructed query. */
  const Initial := QueryState(EmptyFilter, ["*"], false, false, Arr([]), [], false, [], [], None, None, Undefined)

  /** One builder call with its arguments. */
  datatype Call =
    | SelectFromCall(database: string, table: string)
    | WithFieldsCall(fieldArgs: Args<string>)
    | WhereCall(whereArgs: WhereArgs)
    | GroupByCall(groupArgs: Args<GroupByArg>)
    | AggregateCall(operation: string, field: string, name: Option<string>)
    | DistinctCall
    | LimitCall(limit: Value)
    | OffsetCall(offset: Value)
    | SortByCall(sortArgs: seq<Value>)
    | IgnoreFiltersCall(filterIds: Value)
    | SelectionOnlyCall
    | WithinDistanceCall(locationField: string, center: Value, distance: Value, distanceUnit: string)

  /** A string item becomes a single-field clause; anything else is kept as it is. */
  function ToGroupBy(item: GroupByArg): GroupBy
  {
    match item
    case FieldName(f) => GroupBySingleField(f)
    case Verbatim(g) => g
  }

  /** The clauses `groupBy` stores for its normalised items: one per item, in order. */
  function GroupByClausesOf(items: seq<GroupByArg>): (r: seq<GroupBy>)
    ensures |r| == |items|
    ensures forall k :: 0 <= k < |items| && items[k].FieldName? ==> r[k] == GroupBySingleField(items[k].name)
    ensures forall k :: 0 <= k < |items| && items[k].Verbatim? ==> r[k] == items[k].clause
  {
    if items == [] then [] else [ToGroupBy(items[0])] + GroupByClausesOf(items[1..])
  }

  /** `list[i]` in JavaScript: `undefined` past the end. */
  function ElementAt(list: seq<Value>, i: nat): Value
  {
    if i < |list| then list[i] else Undefined
  }

  /**
   * The clauses `sortBy` stores: entries 2k and 2k+1 of the list form clause k.
   * With an odd count the last clause's order is `undefined`; nothing is rejected.
   */
  function SortPairs(list: seq<Value>): (r: seq<SortClause>)
    ensures |r| == (|list| + 1) / 2
    ensures forall k :: 0 <= k < |r| ==> r[k] == SortClause(list[2 * k], ElementAt(list, 2 * k + 1))
  {
    if list == [] then []
    else if |list| == 1 then [SortClause(list[0], Undefined)]
    else [SortClause(list[0], list[1])] + SortPairs(list[2..])
  }

  /** The entry `aggregate` appends; without a name it is called `operation(field)`. */
  function AggregateEntry(operation: string, field: string, name: Option<string>): FieldFunction
  {
    FieldFunction(operation, field, name.GetOr(operation + "(" + field + ")"))
  }

  /** The query after one builder call: the one field that call touches changes, nothing else. */
  function Step(s: QueryState, c: Call): QueryState
  {
    match c
    case SelectFromCall(database, table) => s.(filter := SelectFrom(s.filter, database, table))
    case WithFieldsCall(args) => s.(fields := ToArray(args))
    case WhereCall(args) => s.(filter := SetWhere(s.filter, args))
    case GroupByCall(args) => s.(groupByClauses := GroupByClausesOf(ToArray(args)))
    case AggregateCall(op, field, name) => s.(aggregates := s.aggregates + [AggregateEntry(op, field, name)])
    case DistinctCall => s.(isDistinct := true)
    case LimitCall(n) => s.(limitClause := Some(LimitClause(n)))
    case OffsetCall(n) => s.(offsetClause := Some(OffsetClause(n)))
    case SortByCall(args) => s.(sortClauses := SortPairs(ArgumentsToArray(args)))
    case IgnoreFiltersCall(ids) =>
      if Truthy(ids) then s.(ignoredFilterIds_ := ids) else s.(ignoreFilters_ := true)
    case SelectionOnlyCall => s.(selectionOnly_ := true)
    case WithinDistanceCall(field, center, distance, unit) =>
      s.(filter := SetWithinDistance(s.filter, field, center, distance, unit))
  }

  /** The query after a sequence of builder calls, made in order. */
  function Run(s: QueryState, calls: seq<Call>): QueryState
    decreases |calls|
  {
    if calls == [] then s else Run(Step(s, calls[0]), calls[1..])
  }

  // What any sequence of calls leaves in each field.

  /** The value that the last call with a value for `f` gives, if any call has one. */
  function LastOf<T>(calls: seq<Call>, f: Call -> Option<T>): (r: Option<T>)
    ensures r.None? <==> forall i :: 0 <= i < |calls| ==> f(calls[i]).None?
    ensures r.Some? ==>
      exists i :: 0 <= i < |calls| && f(calls[i]) == r && forall j :: i < j < |calls| ==> f(calls[j]).None?
  {
    if calls == [] then None
    else
      match LastOf(calls[1..], f)
      case Some(x) => Some(x)
      case None => f(calls[0])
  }

  /** A field that each call either overwrites or leaves alone ends with the last value written. */
  lemma {:induction false} LastCallWins<T>(get: QueryState -> T, f: Call -> Option<T>, s: QueryState, calls: seq<Call>)
    requires forall s', c :: get(Step(s', c)) == f(c).GetOr(get(s'))
    ensures get(Run(s, calls)) == LastOf(calls, f).GetOr(get(s))
    decreases |calls|
  {
    if calls != [] {
      LastCallWins(get, f, Step(s, calls[0]), calls[1..]);
    }
  }

  /** A flag that calls can only switch on ends on exactly when it started on or some call switched it on. */
  lemma {:induction false} OnceSetStaysSet(get: QueryState -> bool, sets: Call -> bool, s: QueryState, calls: seq<Call>)
    requires forall s', c :: get(Step(s', c)) == (get(s') || sets(c))
    ensures get(Run(s, calls)) == (get(s) || exists i :: 0 <= i < |calls| && sets(calls[i]))
    decreases |calls|
  {
    if calls != [] {
      OnceSetStaysSet(get, sets, Step(s, calls[0]), calls[1..]);
      if exists i :: 0 <= i < |calls[1..]| && sets(calls[1..][i]) {
        var i :| 0 <= i < |calls[1..]| && sets(calls[1..][i]);
        assert sets(calls[i + 1]);
      }
      if exists i :: 0 <= i < |calls| && sets(calls[i]) {
        var i :| 0 <= i < |calls| && sets(calls[i]);
        assert i == 0 || sets(calls[1..][i - 1]);
      }
    }
  }

  function FieldsWritten(c: Call): Option<seq<string>>
  {
    if c.WithFieldsCall? then Some(ToArray(c.fieldArgs)) else None
  }

  function GroupByWritten(c: Call): Option<seq<GroupBy>>
  {
    if c.GroupByCall? then Some(GroupByClausesOf(ToArray(c.groupArgs))) else None
  }

  function SortWritten(c: Call): Option<seq<SortClause>>
  {
    if c.SortByCall? then Some(SortPairs(ArgumentsToArray(c.sortArgs))) else None
  }

  function LimitWritten(c: Call): Option<Option<LimitClause>>
  {
    if c.LimitCall? then Some(Some(LimitClause(c.limit))) else None
  }

  function OffsetWritten(c: Call): Option<Option<OffsetClause>>
  {
    if c.OffsetCall? then Some(Some(OffsetClause(c.offset))) else None
  }

  function IgnoredIdsWritten(c: Call): Option<Value>
  {
    if c.IgnoreFiltersCall? && Truthy(c.filterIds) then Some(c.filterIds) else None
  }

  function SourceWritten(c: Call): Option<Option<(string, string)>>
  {
    if c.SelectFromCall? then Some(Some((c.database, c.table))) else None
  }

  function RootWritten(c: Call): Option<Option<Clause>>
  {
    match c
    case WhereCall(args) => Some(Some(RootOf(args)))
    case WithinDistanceCall(f, center, d, u) => Some(Some(WithinDistance(f, center, d, u)))
    case _ => None
  }

  function NoWrite<T>(c: Call): Option<T>
  {
    None
  }

  /** `withFields` replaces the projection: only the last call's normalised names remain. */
  lemma WithFieldsLastCallWins(s: QueryState, calls: seq<Call>)
    ensures Run(s, calls).fields == LastOf(calls, FieldsWritten).GetOr(s.fields)
  {
    forall s', c ensures Step(s', c).fields == FieldsWritten(c).GetOr(s'.fields) { }
    LastCallWins((q: QueryState) => q.fields, FieldsWritten, s, calls);
  }

  /** `groupBy` replaces: only the clauses of the last call remain. */
  lemma GroupByLastCallWins(s: QueryState, calls: seq<Call>)
    ensures Run(s, calls).groupByClauses == LastOf(calls, GroupByWritten).GetOr(s.groupByClauses)
  {
    forall s', c ensures Step(s', c).groupByClauses == GroupByWritten(c).GetOr(s'.groupByClauses) { }
    LastCallWins((q: QueryState) => q.groupByClauses, GroupByWritten, s, calls);
  }

  /** `sortBy` replaces: only the pairs of the last call remain. */
  lemma SortByLastCallWins(s: QueryState, calls: seq<Call>)
    ensures Run(s, calls).sortClauses == LastOf(calls, SortWritten).GetOr(s.sortClauses)
  {
    forall s', c ensures Step(s', c).sortClauses == SortWritten(c).GetOr(s'.sortClauses) { }
    LastCallWins((q: QueryState) => q.sortClauses, SortWritten, s, calls);
  }

  /** `limit` keeps the last value given, whatever it is. */
  lemma LimitLastCallWins(s: QueryState, calls: seq<Call>)
    ensures Run(s, calls).limitClause == LastOf(calls, LimitWritten).GetOr(s.limitClause)
  {
    forall s', c ensures Step(s', c).limitClause == LimitWritten(c).GetOr(s'.limitClause) { }
    LastCallWins((q: QueryState) => q.limitClause, LimitWritten, s, calls);
  }

  /** `offset` keeps the last value given, whatever it is. */
  lemma OffsetLastCallWins(s: QueryState, calls: seq<Call>)
    ensures Run(s, calls).offsetClause == LastOf(calls, OffsetWritten).GetOr(s.offsetClause)
  {
    forall s', c ensures Step(s', c).offsetClause == OffsetWritten(c).GetOr(s'.offsetClause) { }
    LastCallWins((q: QueryState) => q.offsetClause, OffsetWritten, s, calls);
  }

  /** The filter's source pair is the one the last `selectFrom` gave. */
  lemma SelectFromLastCallWins(s: QueryState, calls: seq<Call>)
    ensures Run(s, calls).filter.selectFrom == LastOf(calls, SourceWritten).GetOr(s.filter.selectFrom)
  {
    forall s', c ensures Step(s', c).filter.selectFrom == SourceWritten(c).GetOr(s'.filter.selectFrom) { }
    LastCallWins((q: QueryState) => q.filter.selectFrom, SourceWritten, s, calls);
  }

  /** The filter's root clause is the one the last `where` or `withinDistance` installed. */
  lemma WhereLastCallWins(s: QueryState, calls: seq<Call>)
    ensures Run(s, calls).filter.whereClause == LastOf(calls, RootWritten).GetOr(s.filter.whereClause)
  {
    forall s', c ensures Step(s', c).filter.whereClause == RootWritten(c).GetOr(s'.filter.whereClause) { }
    LastCallWins((q: QueryState) => q.filter.whereClause, RootWritten, s, calls);
  }

  /** `ignoreFilters` with a truthy argument stores it; the last such list is kept. */
  lemma IgnoredIdsLastCallWins(s: QueryState, calls: seq<Call>)
    ensures Run(s, calls).ignoredFilterIds_ == LastOf(calls, IgnoredIdsWritten).GetOr(s.ignoredFilterIds_)
  {
    forall s', c ensures Step(s', c).ignoredFilterIds_ == IgnoredIdsWritten(c).GetOr(s'.ignoredFilterIds_) { }
    LastCallWins((q: QueryState) => q.ignoredFilterIds_, IgnoredIdsWritten, s, calls);
  }

  /** `ignoreFilters` without a truthy argument switches the blanket flag on; nothing switches it off. */
  lemma IgnoreAllStaysSet(s: QueryState, calls: seq<Call>)
    ensures Run(s, calls).ignoreFilters_ ==
      (s.ignoreFilters_ || exists i :: 0 <= i < |calls| && calls[i].IgnoreFiltersCall? && !Truthy(calls[i].filterIds))
  {
    var sets := (c: Call) => c.IgnoreFiltersCall? && !Truthy(c.filterIds);
    forall s', c ensures Step(s', c).ignoreFilters_ == (s'.ignoreFilters_ || sets(c)) { }
    OnceSetStaysSet((q: QueryState) => q.ignoreFilters_, sets, s, calls);
  }

  /** `distinct` only switches `isDistinct` on, so calling it again changes nothing. */
  lemma DistinctStaysSet(s: QueryState, calls: seq<Call>)
    ensures Run(s, calls).isDistinct == (s.isDistinct || exists i :: 0 <= i < |calls| && calls[i].DistinctCall?)
  {
    var sets := (c: Call) => c.DistinctCall?;
    forall s', c ensures Step(s', c).isDistinct == (s'.isDistinct || sets(c)) { }
    OnceSetStaysSet((q: QueryState) => q.isDistinct, sets, s, calls);
  }

  /** `selectionOnly` only switches `selectionOnly_` on, so calling it again changes nothing. */
  lemma SelectionOnlyStaysSet(s: QueryState, calls: seq<Call>)
    ensures Run(s, calls).selectionOnly_ ==
      (s.selectionOnly_ || exists i :: 0 <= i < |calls| && calls[i].SelectionOnlyCall?)
  {
    var sets := (c: Call) => c.SelectionOnlyCall?;
    forall s', c ensures Step(s', c).selectionOnly_ == (s'.selectionOnly_ || sets(c)) { }
    OnceSetStaysSet((q: QueryState) => q.selectionOnly_, sets, s, calls);
  }

  /** No builder call writes the `transform` property the constructor sets. */
  lemma TransformNeverWritten(s: QueryState, calls: seq<Call>)
    ensures Run(s, calls).transform == s.transform
  {
    LastCallWins((q: QueryState) => q.transform, NoWrite, s, calls);
    assert LastOf(calls, NoWrite<Value>) == None;
  }

  /** The entry one call appends to `aggregates`: one for an `aggregate` call, none otherwise. */
  function AggregateWritten(c: Call): seq<FieldFunction>
  {
    if c.AggregateCall? then [AggregateEntry(c.operation, c.field, c.name)] else []
  }

  /** The entries the `aggregate` calls among `calls` append, in call order. */
  function AggregatesOf(calls: seq<Call>): (r: seq<FieldFunction>)
    ensures forall i :: 0 <= i < |calls| && calls[i].AggregateCall? ==> AggregateWritten(calls[i])[0] in r
    ensures forall e :: e in r ==> exists i :: 0 <= i < |calls| && e in AggregateWritten(calls[i])
  {
    if calls == [] then [] else AggregateWritten(calls[0]) + AggregatesOf(calls[1..])
  }

  /** `aggregate` appends: earlier aggregates stay, each call adds its entry in order. */
  lemma {:induction false} AggregatesAccumulate(s: QueryState, calls: seq<Call>)
    ensures Run(s, calls).aggregates == s.aggregates + AggregatesOf(calls)
    decreases |calls|
  {
    if calls != [] {
      var next := Step(s, calls[0]);
      assert next.aggregates == s.aggregates + AggregateWritten(calls[0]) by {
        if calls[0].AggregateCall? {
        } else {
          assert next.aggregates == s.aggregates;
        }
      }
      AggregatesAccumulate(next, calls[1..]);
      assert Run(s, calls) == Run(next, calls[1..]);
      assert AggregatesOf(calls) == AggregateWritten(calls[0]) + AggregatesOf(calls[1..]);
      assert next.aggregates + AggregatesOf(calls[1..]) == s.aggregates + AggregatesOf(calls);
    }
  }

  /**
   * The mutable builder. Every method updates the fields in place and
   * returns the same object; its effect is exactly `Step` for that call.
   */
  class Query {
    var filter: Filter
    var fields: seq<string>
    var ignoreFilters_: bool
    var selectionOnly_: bool
    var ignoredFilterIds_: Value
    var groupByClauses: seq<GroupBy>
    var isDistinct: bool
    var aggregates: seq<FieldFunction>
    var sortClauses: seq<SortClause>
    var limitClause: Option<LimitClause>
    var offsetClause: Option<OffsetClause>
    /** The own property the constructor sets to `undefined`; no builder method writes it. */
    var transform: Value

    function State(): QueryState
      reads this
    {
      QueryState(filter, fields, ignoreFilters_, selectionOnly_, ignoredFilterIds_, groupByClauses,
                 isDistinct, aggregates, sortClauses, limitClause, offsetClause, transform)
    }

    constructor ()
      ensures State() == Initial
    {
      filter := EmptyFilter;
      fields := ["*"];
      ignoreFilters_ := false;
      selectionOnly_ := false;
      ignoredFilterIds_ := Arr([]);
      groupByClauses := [];
      isDistinct := false;
      aggregates := [];
      sortClauses := [];
      limitClause := None;
      offsetClause := None;
      transform := Undefined;
    }

    method SelectFrom(database: string, table: string) returns (self: Query)
      modifies this
      ensures self == this && State() == Step(old(State()), SelectFromCall(database, table))
    {
      filter := Filters.SelectFrom(filter, database, table);
      self := this;
    }

    method WithFields(args: Args<string>) returns (self: Query)
      modifies this
      ensures self == this && State() == Step(old(State()), WithFieldsCall(args))
    {
      fields := ToArray(args);
      self := this;
    }

    method Where(args: WhereArgs) returns (self: Query)
      modifies this
      ensures self == this && State() == Step(old(State()), WhereCall(args))
    {
      filter := SetWhere(filter, args);
      self := this;
    }

    /** Empties the clause list, then pushes one clause per item. */
    method GroupBy(args: Args<GroupByArg>) returns (self: Query)
      modifies this
      ensures self == this && State() == Step(old(State()), GroupByCall(args))
    {
      groupByClauses := [];
      var list := ToArray(args);
      for i := 0 to |list|
        invariant State() == old(State()).(groupByClauses := groupByClauses)
        invariant |groupByClauses| == i
        invariant forall k :: 0 <= k < i ==> groupByClauses[k] == ToGroupBy(list[k])
      {
        var clause := if list[i].FieldName? then GroupBySingleField(list[i].name) else list[i].clause;
        groupByClauses := groupByClauses + [clause];
      }
      self := this;
    }

    method Aggregate(operation: string, field: string, name: Option<string>) returns (self: Query)
      modifies this
      ensures self == this && State() == Step(old(State()), AggregateCall(operation, field, name))
    {
      var newFieldName := if name.Some? then name.value else operation + "(" + field + ")";
      aggregates := aggregates + [FieldFunction(operation, field, newFieldName)];
      self := this;
    }

    method Distinct() returns (self: Query)
      modifies this
      ensures self == this && State() == Step(old(State()), DistinctCall)
    {
      isDistinct := true;
      self := this;
    }

    method Limit(limit: Value) returns (self: Query)
      modifies this
      ensures self == this && State() == Step(old(State()), LimitCall(limit))
    {
      limitClause := Some(LimitClause(limit));
      self := this;
    }

    method Offset(offset: Value) returns (self: Query)
      modifies this
      ensures self == this && State() == Step(old(State()), OffsetCall(offset))
    {
      offsetClause := Some(OffsetClause(offset));
      self := this;
    }

    /** Empties the clause list, then pushes a clause for every second entry of the list. */
    method SortBy(args: seq<Value>) returns (self: Query)
      modifies this
      ensures self == this && State() == Step(old(State()), SortByCall(args))
    {
      sortClauses := [];
      var list := ArgumentsToArray(args);
      var i := 0;
      while i < |list|
        invariant 0 <= i <= |list| + 1 && i % 2 == 0
        invariant State() == old(State()).(sortClauses := sortClauses)
        invariant |sortClauses| == i / 2
        invariant forall k :: 0 <= k < i / 2 ==> sortClauses[k] == SortClause(list[2 * k], ElementAt(list, 2 * k + 1))
        decreases |list| - i
      {
        var field := list[i];
        var order := if i + 1 < |list| then list[i + 1] else Undefined;
        sortClauses := sortClauses + [SortClause(field, order)];
        i := i + 2;
      }
      self := this;
    }

    method IgnoreFilters(filterIds: Value) returns (self: Query)
      modifies this
      ensures self == this && State() == Step(old(State()), IgnoreFiltersCall(filterIds))
    {
      if Truthy(filterIds) {
        ignoredFilterIds_ := filterIds;
      } else {
        ignoreFilters_ := true;
      }
      self := this;
    }

    method SelectionOnly() returns (self: Query)
      modifies this
      ensures self == this && State() == Step(old(State()), SelectionOnlyCall)
    {
      selectionOnly_ := true;
      self := this;
    }

    method WithinDistance(locationField: string, center: Value, distance: Value, distanceUnit: string)
      returns (self: Query)
      modifies this
      ensures self == this
      ensures State() == Step(old(State()), WithinDistanceCall(locationField, center, distance, distanceUnit))
    {
      filter := SetWithinDistance(filter, locationField, center, distance, distanceUnit);
      self := this;
    }
  }

  // Uses of the builder, as a client writes them.

  /** A second `groupBy` discards the first one's clauses. */
  method GroupByTwice(first: Args<GroupByArg>, second: Args<GroupByArg>) returns (clauses: seq<GroupBy>)
    ensures |clauses| == |ToArray(second)|
    ensures forall k :: 0 <= k < |clauses| ==> clauses[k] == ToGroupBy(ToArray(second)[k])
  {
    var q := new Query();
    q := q.GroupBy(first);
    q := q.GroupBy(second);
    clauses := q.groupByClauses;
  }

  /** A second `sortBy` discards the first one's clauses; an odd list leaves an `undefined` order. */
  method SortByTwice(first: seq<Value>, second: seq<Value>) returns (clauses: seq<SortClause>)
    ensures clauses == SortPairs(ArgumentsToArray(second))
    ensures |clauses| == (|ArgumentsToArray(second)| + 1) / 2
    ensures |ArgumentsToArray(second)| % 2 == 1 ==> clauses[|clauses| - 1].sortOrder == Undefined
  {
    var q := new Query();
    q := q.SortBy(first);
    q := q.SortBy(second);
    clauses := q.sortClauses;
  }

  /** `aggregate` appends; an entry without a name is called `operation(field)`. */
  method AggregateTwice(op1: string, field1: string, op2: string, field2: string, name2: string)
    returns (entries: seq<FieldFunction>)
    ensures entries == [FieldFunction(op1, field1, op1 + "(" + field1 + ")"), FieldFunction(op2, field2, name2)]
  {
    var q := new Query();
    q := q.Aggregate(op1, field1, None);
    q := q.Aggregate(op2, field2, Some(name2));
    entries := q.aggregates;
  }

  /** `ignoreFilters()` followed by `ignoreFilters(ids)` leaves both the blanket flag and the list set. */
  method IgnoreAllThenIds(ids: Value) returns (all: bool, kept: Value)
    requires Truthy(ids)
    ensures all && kept == ids
  {
    var q := new Query();
    q := q.IgnoreFilters(Undefined);
    q := q.IgnoreFilters(ids);
    all, kept := q.ignoreFilters_, q.ignoredFilterIds_;
  }

  /** `limit` checks nothing and the last call wins; `distinct` twice is `distinct` once. */
  method LimitTwiceDistinctTwice(n1: Value, n2: Value) returns (limit: Option<LimitClause>, distinct: bool)
    ensures limit == Some(LimitClause(n2)) && distinct
  {
    var q := new Query();
    q := q.Limit(n1);
    q := q.Distinct();
    q := q.Limit(n2);
    q := q.Distinct();
    limit, distinct := q.limitClause, q.isDistinct;
  }

  /**
   * `new Query().selectFrom('db','t').where('age','>',21).groupBy('city')
   *   .aggregate('count','*','total').limit(10)`.
   */
  method ChainedQuery() returns (q: Query)
    ensures q.State() == Initial.(filter := Filter(Some(("db", "t")), Some(WhereClause("age", ">", Num(21)))),
                                  groupByClauses := [GroupBySingleField("city")],
                                  aggregates := [FieldFunction("count", "*", "total")],
                                  limitClause := Some(LimitClause(Num(10))))
  {
    q := new Query();
    q := q.SelectFrom("db", "t");
    q := q.Where(FieldOpValue("age", ">", Num(21)));
    q := q.GroupBy(Spread([FieldName("city")]));
    q := q.Aggregate(COUNT, "*", Some("total"));
    q := q.Limit(Num(10));
  }
}

