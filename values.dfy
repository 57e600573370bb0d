/** The values that request bodies and stored documents are made of. */
module Values {
  import opened Wrappers

  /** A clock reading. The clock (`datetime.utcnow()`) is an input of the handlers. */
  type Timestamp = int

  /** A JSON / BSON value as the handlers see it. */
  datatype Value =
    | Null
    | Bool(b: bool)
    | Int(i: int)
    | Str(s: string)
    | List(elems: seq<Value>)
    | DateTime(at: Timestamp)
    | ObjectId(oid: nat)

  /** A document (a request body or a stored record): field name to value. */
  type Document = map<string, Value>

  /**
   * The two conversions the handlers borrow from the runtime: Python's `str()`
   * applied to an identifier and `datetime.isoformat()`. They are foreign, so
   * the model takes them as given functions.
   */
  datatype Conv = Conv(str: Value -> string, isoformat: Timestamp -> string)

  /** Python truthiness of an `Optional[str]`: `None` and `""` are false. */
  predicate Truthy(s: Option<string>) {
    s.Some? && s.value != ""
  }

  /** `key` is present in `d` and holds `v`. */
  predicate Has(d: Document, key: string, v: Value) {
    key in d && d[key] == v
  }

  /** Every field of `part` appears in `d` with the same value. */
  predicate Extends(d: Document, part: Document) {
    forall k :: k in part ==> k in d && d[k] == part[k]
  }

  /** A list of strings as a JSON array. */
  function StrValues(xs: seq<string>): (vs: seq<Value>)
    ensures |vs| == |xs|
    ensures forall i :: 0 <= i < |xs| ==> vs[i] == Str(xs[i])
  {
    if xs == [] then [] else [Str(xs[0])] + StrValues(xs[1..])
  }

  /** Reads a JSON array as a `List[str]`: succeeds exactly when every element is a string. */
  function StrsOf(vs: seq<Value>): (r: Option<seq<string>>)
    ensures r.Some? <==> forall i :: 0 <= i < |vs| ==> vs[i].Str?
    ensures r.Some? ==> |r.value| == |vs| && forall i :: 0 <= i < |vs| ==> vs[i] == Str(r.value[i])
  {
    if vs == [] then Some([])
    else if !vs[0].Str? then None
    else match StrsOf(vs[1..])
      case None => None
      case Some(rest) => Some([vs[0].s] + rest)
  }

  /** Reading back a list of strings written as a JSON array gives the same list. */
  lemma StrsOfStrValues(xs: seq<string>)
    ensures StrsOf(StrValues(xs)) == Some(xs)
  {
    var r := StrsOf(StrValues(xs));
    assert r.Some?;
    assert |r.value| == |xs|;
    forall i | 0 <= i < |xs| ensures r.value[i] == xs[i] {
      assert StrValues(xs)[i] == Str(r.value[i]);
    }
    assert r.value == xs;
  }
}
