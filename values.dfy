/**
 * JavaScript values as the query builder sees them: the scalars and
 * objects a caller may pass as a comparison value, a sort order, a
 * limit, a list of filter ids or a geographic center point, and the
 * plain objects the clause constructors build.
 */
module Values {

  datatype Option<+T> = None | Some(value: T)
  {
    function GetOr(default: T): T
    {
      match this
      case Some(v) => v
      case None => default
    }
  }

  /** A JavaScript value. Numbers are modelled as integers (see README). */
  datatype Value =
    | Undefined
    | Null
    | Bool(b: bool)
    | Num(n: int)
    | Str(s: string)
    | Arr(items: seq<Value>)
    | Obj(props: seq<Prop>)

  /** One own property of a plain object, in the order it was assigned. */
  datatype Prop = Prop(key: string, val: Value)

  /** JavaScript truthiness: what `if (v)` tests. */
  predicate Truthy(v: Value)
  {
    match v
    case Undefined => false
    case Null => false
    case Bool(b) => b
    case Num(n) => n != 0
    case Str(s) => s != ""
    case Arr(_) => true
    case Obj(_) => true
  }

  /**
   * Index of the first own property named `key`, or -1 when there is none:
   * the property a JavaScript reader of `o[key]` sees.
   */
  function Find(props: seq<Prop>, key: string): (i: int)
    ensures -1 <= i < |props|
    ensures 0 <= i ==> props[i].key == key
    ensures forall j :: 0 <= j < |props| && (i < 0 || j < i) ==> props[j].key != key
  {
    if props == [] then -1
    else if props[0].key == key then 0
    else
      var j := Find(props[1..], key);
      if j < 0 then -1 else j + 1
  }

  /** The value a reader sees at `o[key]`: `undefined` when the property is absent. */
  function Get(props: seq<Prop>, key: string): Value
  {
    var i := Find(props, key);
    if i < 0 then Undefined else props[i].val
  }

  /** The property a reader sees is the first one with that key. */
  lemma {:induction false} GetAt(props: seq<Prop>, k: nat, key: string)
    requires k < |props| && props[k].key == key
    requires forall j :: 0 <= j < k ==> props[j].key != key
    ensures Find(props, key) == k && Get(props, key) == props[k].val
  {
    if k > 0 {
      GetAt(props[1..], k - 1, key);
    }
  }
}
