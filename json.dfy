/** Untyped JSON documents as `encoding/json` decodes them into `interface{}`,
    and the two ways of reading them that the model needs: Go's own map index
    and a step-by-step path navigation that stops at the first shape mismatch. */
module Json {
  import opened Results

  /** A decoded JSON value. Numbers are kept exact (`real`) rather than as float64. */
  datatype Json =
    | Null
    | Bool(b: bool)
    | Number(n: real)
    | String(s: string)
    | Array(elems: seq<Json>)
    | Object(fields: map<string, Json>)

  /** Go's `m[key]` on a `map[string]interface{}`: a missing key yields the nil
      interface, which is indistinguishable from a JSON `null`. The nil map (a `null`
      document) has every key missing. In terms of the path reader: the value a key
      step reaches, and nil where the step does not fit. */
  function Member(doc: Json, key: string): (v: Json)
    ensures v == (if Select(doc, Key(key)).Some? then Select(doc, Key(key)).value else Null)
  {
    match doc
    case Object(fields) => if key in fields then fields[key] else Null
    case _ => Null
  }

  /** Go's `int(x)` on a float64: truncation toward zero. */
  function TruncateToInt(x: real): (i: int)
    ensures 0.0 <= x ==> 0 <= i && i as real <= x < i as real + 1.0
    ensures x < 0.0 ==> i <= 0 && i as real - 1.0 < x <= i as real
  {
    if 0.0 <= x then x.Floor else -((-x).Floor)
  }

  /** One navigation step: a field of an object or an element of an array. */
  datatype Step = Key(name: string) | Index(pos: nat)

  /** Takes one step; `None` when the document does not have the shape the step needs. */
  function Select(doc: Json, step: Step): Option<Json>
  {
    match step
    case Key(k) => if doc.Object? && k in doc.fields then Some(doc.fields[k]) else None
    case Index(i) => if doc.Array? && i < |doc.elems| then Some(doc.elems[i]) else None
  }

  /** Follows a whole path, stopping with `None` at the first step that does not fit. */
  function Navigate(doc: Json, path: seq<Step>): Option<Json>
    decreases |path|
  {
    if path == [] then Some(doc)
    else match Select(doc, path[0])
      case None => None
      case Some(d) => Navigate(d, path[1..])
  }

  /** Navigating a concatenated path is navigating the first part, then the second
      from wherever the first part ended; a failed prefix fails the whole path. */
  lemma {:induction false} NavigateConcat(doc: Json, p: seq<Step>, q: seq<Step>)
    ensures Navigate(doc, p + q) == match Navigate(doc, p)
                                      case None => None
                                      case Some(d) => Navigate(d, q)
    decreases |p|
  {
    if p == [] {
      assert p + q == q;
    } else {
      assert (p + q)[0] == p[0];
      assert (p + q)[1..] == p[1..] + q;
      match Select(doc, p[0])
      case None =>
      case Some(d) => NavigateConcat(d, p[1..], q);
    }
  }

  /** The value at the end of `path` when it is a number, else `default`. */
  function NumberAt(doc: Json, path: seq<Step>, default: real): real
  {
    match Navigate(doc, path)
    case Some(Number(v)) => v
    case _ => default
  }

  /** The value at the end of `path` when it is a string, else `default`. */
  function StringAt(doc: Json, path: seq<Step>, default: string): string
  {
    match Navigate(doc, path)
    case Some(String(v)) => v
    case _ => default
  }

  /** On a one-key path the path reader and Go's checked type assertion on `m[key]`
      (`v, _ := m[key].(float64)` or `.(string)`) read the same value, and fall back
      to the default in the same cases. */
  lemma TopLevelReadings(doc: Json, key: string, dn: real, ds: string)
    ensures NumberAt(doc, [Key(key)], dn) == (if Member(doc, key).Number? then Member(doc, key).n else dn)
    ensures StringAt(doc, [Key(key)], ds) == (if Member(doc, key).String? then Member(doc, key).s else ds)
  {
    var path := [Key(key)];
    assert path[1..] == [];
    assert Navigate(doc, path) == if Select(doc, Key(key)).Some? then Some(Member(doc, key)) else None;
  }
}
