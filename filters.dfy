/**
 * The filter a query owns: the database/table it selects from and the root
 * predicate clause. Only what the query builder hands to it is modelled:
 * `selectFrom` records the source pair, `where` and `withinDistance`
 * install a new root clause.
 */
module Filters {
  import opened Values
  import opened Clauses

  datatype Filter = Filter(selectFrom: Option<(string, string)>, whereClause: Option<Clause>)

  /** A filter as it is first constructed: no source, no predicate. */
  const EmptyFilter := Filter(None, None)

  /** The two forms `where` accepts: a clause built beforehand, or the three parts of a comparison. */
  datatype WhereArgs =
    | ClauseArg(clause: Clause)
    | FieldOpValue(fieldName: string, op: string, value: Value)

  function RootOf(args: WhereArgs): Clause
  {
    match args
    case ClauseArg(c) => c
    case FieldOpValue(f, op, v) => Where(f, op, v)
  }

  function SelectFrom(f: Filter, database: string, table: string): Filter
  {
    f.(selectFrom := Some((database, table)))
  }

  function SetWhere(f: Filter, args: WhereArgs): Filter
  {
    f.(whereClause := Some(RootOf(args)))
  }

  function SetWithinDistance(f: Filter, locationField: string, center: Value, distance: Value, distanceUnit: string): Filter
  {
    f.(whereClause := Some(WithinDistance(locationField, center, distance, distanceUnit)))
  }
}
