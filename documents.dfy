/**
 * Documents as the document store and the Python code see them: a value is
 * one of the BSON-like shapes below, and a record is an ORDERED list of
 * key/value pairs (iterating a document visits its keys in stored order).
 */
module Documents {
  import opened Wrappers

  /** A stored value. `Null` is Python's `None`; `Date` is a timestamp. */
  datatype Value =
    | Null
    | Bool(b: bool)
    | Int(i: int)
    | Str(s: string)
    | Date(t: int)
    | List(items: seq<Value>)
    | Doc(fields: seq<Field>)

  /** One key/value pair of a document. */
  datatype Field = Field(key: string, value: Value)

  /** A document: its fields in stored order. */
  type Record = seq<Field>

  /** Python truthiness of a value (`if x:`). */
  predicate Truthy(v: Value)
  {
    match v
    case Null => false
    case Bool(b) => b
    case Int(i) => i != 0
    case Str(s) => s != ""
    case Date(_) => true
    case List(xs) => xs != []
    case Doc(fs) => fs != []
  }

  /** `doc.get(k)`: the value stored under the first occurrence of key `k`. */
  function Get(r: Record, k: string): Option<Value>
  {
    if r == [] then None
    else if r[0].key == k then Some(r[0].value)
    else Get(r[1..], k)
  }

  /** `k in doc` (Mongo's `{k: {'$exists': True}}`). */
  predicate Has(r: Record, k: string)
  {
    Get(r, k).Some?
  }

  /**
   * `$set` of one field: overwrite the existing field in place, or append it.
   * New fields are appended in the order the `$set` document lists them, as
   * servers before MongoDB 5.0 do (later servers append them in
   * lexicographic order); nothing in this model reads the order of an
   * enrichment record's fields.
   */
  function Set(r: Record, k: string, v: Value): (r': Record)
    ensures Get(r', k) == Some(v)
    ensures forall k' :: k' != k ==> Get(r', k') == Get(r, k')
  {
    if r == [] then [Field(k, v)]
    else if r[0].key == k then [Field(k, v)] + r[1..]
    else [r[0]] + Set(r[1..], k, v)
  }

  /** The value a `$set` document `sets` assigns to `k` (its last occurrence), if any. */
  function Assigned(sets: seq<Field>, k: string): Option<Value>
  {
    if sets == [] then None
    else
      var later := Assigned(sets[1..], k);
      if later.Some? then later
      else if sets[0].key == k then Some(sets[0].value)
      else None
  }

  /** `{'$set': sets}` applied to one document, field by field in order. */
  function SetAll(r: Record, sets: seq<Field>): (r': Record)
    ensures forall k :: Get(r', k) == if Assigned(sets, k).Some? then Assigned(sets, k) else Get(r, k)
    decreases sets
  {
    if sets == [] then r
    else SetAll(Set(r, sets[0].key, sets[0].value), sets[1..])
  }

  /** Index of the first element satisfying `p`, in order. */
  function FirstIndex<T>(s: seq<T>, p: T -> bool): (r: Option<nat>)
    ensures r.Some? ==> r.value < |s| && p(s[r.value]) && forall j :: 0 <= j < r.value ==> !p(s[j])
    ensures r.None? ==> forall j :: 0 <= j < |s| ==> !p(s[j])
  {
    if s == [] then None
    else if p(s[0]) then Some(0)
    else match FirstIndex(s[1..], p)
      case None => None
      case Some(i) => Some(i + 1)
  }

  /** Setting a field to the value it already has changes nothing. */
  lemma {:induction false} SetExisting(r: Record, k: string, v: Value)
    requires Get(r, k) == Some(v)
    ensures Set(r, k, v) == r
  {
    if r != [] && r[0].key != k {
      SetExisting(r[1..], k, v);
    }
  }

  /** A `$set` whose every field already holds its value changes nothing. */
  lemma {:induction false} SetAllExisting(r: Record, sets: seq<Field>)
    requires forall i :: 0 <= i < |sets| ==> Get(r, sets[i].key) == Some(sets[i].value)
    ensures SetAll(r, sets) == r
  {
    if sets != [] {
      SetExisting(r, sets[0].key, sets[0].value);
      assert forall i :: 0 <= i < |sets[1..]| ==> Get(r, sets[1..][i].key) == Some(sets[1..][i].value) by {
        forall i | 0 <= i < |sets[1..]| ensures Get(r, sets[1..][i].key) == Some(sets[1..][i].value) {
          assert sets[1..][i] == sets[i + 1];
        }
      }
      SetAllExisting(r, sets[1..]);
    }
  }
}
