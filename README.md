# Neon query builder in Dafny

This project models the query-clause builder of the Neon server's JavaScript
client (`neon-server/src/main/javascript/query/query.js`). Client code builds
a query step by step with a fluent `Query` object. The finished object is
handed to an execution engine that is not modelled here.

- `values.dfy` (module `Values`): the JavaScript values the builder handles.
  It also defines truthiness and reading an object property by name.
- `clauses.dfy` (module `Clauses`): the named constants (`COUNT`, `ASCENDING`,
  `KM`, ...) and the clause value types as datatypes. A clause is a
  `WhereClause`, an and/or `BooleanClause` tree or a `WithinDistanceClause`.
  The module also has the group-by clauses, `FieldFunction`, `SortClause`,
  `LimitClause` and `OffsetClause`. Then come the free factories `where`,
  `and`, `or` and `withinDistance`, and the plain objects the constructors
  build (`ClauseObject`, `GroupByObject`), with their `type` tags.
  `ParseClause` and `ParseGroupBy` read those objects back by tag. They are
  not code of the module. They are the reference that shows the tags tell
  the variants apart, and the round-trip lemmas connect them.
- `filters.dfy` (module `Filters`): the filter a query owns, as a record. It
  holds the source pair and the root clause. The `Filter` class is not part
  of this model. Only the delegation from the query is modelled:
  `selectFrom` records the pair, and `where`/`withinDistance` install a root
  clause.
- `query.dfy` (module `Queries`): `Step` gives the meaning of each builder
  call on a snapshot of the query's fields (`QueryState`). `Run` applies a
  sequence of calls in order. Lemmas say what any call sequence leaves in
  each field. Class `Query` holds the same fields as mutable state. Each of
  its methods is proved to have exactly the effect `Step` gives for that
  call, and the `groupBy` and `sortBy` loops keep the source's
  empty-then-push shape. Client methods at the end chain calls the way user
  code does.

Variadic calls whose arguments are strings or clauses are modelled by `Args`:
either a run of positional arguments or a single list. `ToArray` normalises
them (a list passes through). The arguments of `sortBy` may be any value,
including an array, so they are a plain sequence of values.
`ArgumentsToArray` normalises them: a first argument that is an array is the
list, otherwise the positional arguments are.

The model follows what the code does, including where it validates nothing:

- `limit` and `offset` check nothing. Any value is wrapped (query.js:270-284).
- `sortBy` raises no error on an odd argument count. The last clause then has
  an `undefined` order (query.js:302-307).
- `ignoreFilters(ids)` stores `ids` only when the argument is truthy.
  Otherwise it sets the blanket flag. The two never reset each other, so
  both can end up set (query.js:329-337). An empty list is truthy in
  JavaScript, so `ignoreFilters([])` stores the empty list.

## Model

| member | source | states |
|---|---|---|
| `Queries.Query.constructor` | neon-server/src/main/javascript/query/query.js:27-42 | a fresh query has fields `["*"]`, both ignore flags and `selectionOnly_` false, an empty id list, no group-by, aggregate or sort clauses, `isDistinct` false, no limit or offset, and `transform` undefined |
| `Queries.Query.SelectFrom` | neon-server/src/main/javascript/query/query.js:166-169 | sets the filter's source pair; no other field changes; returns the same query |
| `Queries.Query.WithFields` | neon-server/src/main/javascript/query/query.js:180-183 | sets `fields` to exactly the normalised arguments; no other field changes |
| `Queries.Query.Where` | neon-server/src/main/javascript/query/query.js:205-208 | installs the given clause, or the where-clause built from three parts, as the filter's root; no other field changes |
| `Queries.Query.GroupBy` | neon-server/src/main/javascript/query/query.js:220-235 | empties `groupByClauses`, then pushes one clause per normalised item; no other field changes |
| `Queries.Query.Aggregate` | neon-server/src/main/javascript/query/query.js:248-252 | appends one `FieldFunction` to `aggregates`, named `name` when given, else `operation(field)`; no other field changes |
| `Queries.Query.Distinct` | neon-server/src/main/javascript/query/query.js:259-262 | sets `isDistinct` to true; no other field changes |
| `Queries.Query.Limit` | neon-server/src/main/javascript/query/query.js:270-273 | sets `limitClause` to wrap the argument, unchecked; no other field changes |
| `Queries.Query.Offset` | neon-server/src/main/javascript/query/query.js:281-284 | sets `offsetClause` to wrap the argument, unchecked; no other field changes |
| `Queries.Query.SortBy` | neon-server/src/main/javascript/query/query.js:297-309 | empties `sortClauses`, then pushes clause k = (entry 2k, entry 2k+1 or `undefined`); no other field changes |
| `Queries.Query.IgnoreFilters` | neon-server/src/main/javascript/query/query.js:329-337 | a truthy argument replaces `ignoredFilterIds_`; any other argument sets `ignoreFilters_`; nothing else changes |
| `Queries.Query.SelectionOnly` | neon-server/src/main/javascript/query/query.js:344-347 | sets `selectionOnly_` to true; no other field changes |
| `Queries.Query.WithinDistance` | neon-server/src/main/javascript/query/query.js:360-363 | installs a within-distance clause of the four arguments as the filter's root; no other field changes |
| `Queries.GroupByClausesOf` | neon-server/src/main/javascript/query/query.js:227-233 | one clause per item, in argument order: a string item becomes a single-field clause, any other item is kept verbatim |
| `Queries.SortPairs` | neon-server/src/main/javascript/query/query.js:302-307 | `ceil(n/2)` clauses; clause k pairs entries 2k and 2k+1, with an `undefined` order past the end |
| `Queries.WithFieldsLastCallWins` | neon-server/src/main/javascript/query/query.js:180-183 | after any call sequence, `fields` is the last `withFields` call's list, or the starting value if there was none |
| `Queries.GroupByLastCallWins` | neon-server/src/main/javascript/query/query.js:220-235 | after any call sequence, only the last `groupBy` call's clauses remain |
| `Queries.SortByLastCallWins` | neon-server/src/main/javascript/query/query.js:297-309 | after any call sequence, only the last `sortBy` call's clauses remain |
| `Queries.LimitLastCallWins` | neon-server/src/main/javascript/query/query.js:270-273 | after any call sequence, `limitClause` wraps the last `limit` argument |
| `Queries.OffsetLastCallWins` | neon-server/src/main/javascript/query/query.js:281-284 | after any call sequence, `offsetClause` wraps the last `offset` argument |
| `Queries.SelectFromLastCallWins` | neon-server/src/main/javascript/query/query.js:166-169 | after any call sequence, the filter's source pair is the last `selectFrom` call's |
| `Queries.WhereLastCallWins` | neon-server/src/main/javascript/query/query.js:205-208 | after any call sequence, the filter's root is the clause of the last `where` or `withinDistance` call |
| `Queries.IgnoredIdsLastCallWins` | neon-server/src/main/javascript/query/query.js:329-332 | after any call sequence, `ignoredFilterIds_` is the last truthy `ignoreFilters` argument |
| `Queries.IgnoreAllStaysSet` | neon-server/src/main/javascript/query/query.js:333-335 | `ignoreFilters_` ends true exactly when it started true or some `ignoreFilters` call had a falsy argument |
| `Queries.DistinctStaysSet` | neon-server/src/main/javascript/query/query.js:259-262 | `isDistinct` ends true exactly when it started true or some `distinct` call was made, so `distinct` is idempotent |
| `Queries.SelectionOnlyStaysSet` | neon-server/src/main/javascript/query/query.js:344-347 | `selectionOnly_` ends true exactly when it started true or some `selectionOnly` call was made, so `selectionOnly` is idempotent |
| `Queries.AggregatesAccumulate` | neon-server/src/main/javascript/query/query.js:248-252 | after any call sequence, `aggregates` is the starting list followed by one entry per `aggregate` call, in call order |
| `Queries.TransformNeverWritten` | neon-server/src/main/javascript/query/query.js:41 | no builder call writes the `transform` property the constructor sets |
| `Queries.GroupByTwice` | neon-server/src/main/javascript/query/query.js:220-235 | a second `groupBy` leaves exactly the second call's clauses |
| `Queries.SortByTwice` | neon-server/src/main/javascript/query/query.js:297-309 | a second `sortBy` leaves exactly the pairs of the second call's normalised list, `ceil(n/2)` of them; with an odd count the last order is `undefined` |
| `Queries.AggregateTwice` | neon-server/src/main/javascript/query/query.js:248-252 | two `aggregate` calls leave both entries in order; the unnamed one is named `op(field)` |
| `Queries.IgnoreAllThenIds` | neon-server/src/main/javascript/query/query.js:329-337 | `ignoreFilters()` then `ignoreFilters(ids)` leaves the blanket flag set and the id list stored |
| `Queries.LimitTwiceDistinctTwice` | neon-server/src/main/javascript/query/query.js:259-273 | the last `limit` wins whatever its value; calling `distinct` twice leaves it true |
| `Queries.ChainedQuery` | neon-server/src/main/javascript/query/query.js:166-273 | a chained `selectFrom`, `where`, `groupBy`, `aggregate`, `limit` gives the constructor's state with exactly four fields changed: that source and where root, one single-field group-by, one named aggregate and that limit |
| `Clauses.ClauseObject` | neon-server/src/main/javascript/query/query.js:457-490 | a clause builds a plain object tagged `where`, `and`/`or` or `withinDistance`, with its properties in the order the constructor assigns them |
| `Clauses.GroupByObject` | neon-server/src/main/javascript/query/query.js:443-455 | a group-by clause builds a plain object tagged `single` or `function`, with its properties in the order the constructor assigns them |
| `Clauses.Where` | neon-server/src/main/javascript/query/query.js:375-377 | builds the object `{type:'where', lhs, operator, rhs}` from its three arguments |
| `Clauses.And` | neon-server/src/main/javascript/query/query.js:387-389 | builds a clause tagged `and` whose children are the normalised arguments, in order |
| `Clauses.Or` | neon-server/src/main/javascript/query/query.js:399-401 | builds a clause tagged `or` whose children are the normalised arguments, in order |
| `Clauses.WithinDistance` | neon-server/src/main/javascript/query/query.js:413-415 | builds the object tagged `withinDistance` holding its four arguments unchanged |
| `Clauses.AndOfTwoWheres` | neon-server/src/main/javascript/query/query.js:375-389 | `and(where('x','=',5), where('y','<',10))` builds the nested object with both children in order |
| `Clauses.WhereRoundTrip` | neon-server/src/main/javascript/query/query.js:462-468 | a where-clause object reads back as the clause that built it |
| `Clauses.WithinDistanceRoundTrip` | neon-server/src/main/javascript/query/query.js:484-490 | a within-distance object reads back as the clause that built it |
| `Clauses.ClauseRoundTrip` | neon-server/src/main/javascript/query/query.js:457-490 | every clause object, at any depth of and/or nesting, reads back as the clause that built it |
| `Clauses.ClauseObjectInjective` | neon-server/src/main/javascript/query/query.js:457-490 | two clauses that build the same object are the same clause |
| `Clauses.GroupByRoundTrip` | neon-server/src/main/javascript/query/query.js:443-455 | the `single`/`function` tag tells the two group-by clauses apart with nothing lost |

## Left out

- `transform()` (query.js:317-320) is not modelled as an operation. The constructor sets an own property `transform` to `undefined` (query.js:41). That property shadows the prototype method, so `query.transform(x)` is not callable on a constructed query. The model keeps the property (always `undefined`).
- The `Filter` class and `neon.util.arrayUtils.argumentsToArray` are not part of this model. The filter is a record of a source pair and a root clause, starting empty. For string and clause arguments, the call arrives already split into the positional and the list form. For `sortBy`, `ArgumentsToArray` takes a first argument that is an array as the list, which is that helper's documented behaviour.
- `neon.util.LatLon` is not part of this model. A center point and a distance are opaque values, and no arithmetic is done on them.
- JavaScript numbers are modelled as integers. Fractions, `NaN` and its falsiness are not modelled.
- Aliasing is not modelled. `groupBy` and `sortBy` truncate and refill the same array object. `withFields` and `ignoreFilters` store the caller's own array. The model treats all of these as values, so a reference held elsewhere does not observe the change. In particular, `q.groupBy(q.groupByClauses)` first empties the very array it is given (query.js:224), then iterates the now-empty list, so the query ends with no group-by clauses. The model keeps the old clauses.
- Queries.GroupByClausesOf: items are typed as strings or group-by clauses. Other non-string values, which the source would store verbatim, are outside the model's types.
- Queries.Query.Aggregate: `operation` and `field` are strings, so the JavaScript string conversion of other values in the synthesized name is not modelled. A name is present or absent, and absent stands for both `null` and `undefined` (the source's `!= null` test).
- Queries.Query.Where: the root clause built from three raw arguments follows the `Filter` contract of constructing a where-clause. That part of `Filter` is not shown in the source.
- `offsetClause` is never set by the constructor (query.js:27-42), while `limitClause` is set to `undefined`. Both read as `undefined` and both are `None` here.
- The order of properties in the built objects is the order in which the constructors assign them. JavaScript readers do not depend on it.
