/**
  Object specifications as JSON trees.  Lists are compared and replaced as wholes.
*/
module Json {
  import opened Options

  datatype Json = Null | Scalar(text: string) | List(items: seq<Json>) | Object(fields: map<string, Json>)

  const EMPTY := Object(map[])

  type Path = seq<string>

  /** The members of an object; any other value has none. */
  function Fields(j: Json): map<string, Json>
  {
    if j.Object? then j.fields else map[]
  }

  /** The member `k`, or `Null` if there is none. */
  function Field(j: Json, k: string): Json
  {
    if k in Fields(j) then Fields(j)[k] else Null
  }

  /** The value found at `path`. */
  function Find(j: Json, path: Path): Option<Json>
  {
    if path == [] then Some(j)
    else if path[0] in Fields(j) then Find(Fields(j)[path[0]], path[1..])
    else None
  }

  predicate Has(j: Json, path: Path) { Find(j, path).Some? }

  predicate HasLeaf(j: Json, path: Path) { Has(j, path) && !Find(j, path).value.Object? }

  /** No member of any object in the tree is `Null`. */
  predicate Clean(j: Json)
  {
    match j
    case Null => false
    case Object(fields) => forall k | k in fields :: Clean(fields[k])
    case _ => true
  }

  /** A specification as the operator builds it. */
  type Spec = j: Json | j.Object? && Clean(j) witness EMPTY
}
