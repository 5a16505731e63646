/**
 * The persisted streaming document (`streaming.json`): a flat map from key
 * to value. The bot only ever stores strings and the boolean `looping`, so
 * those are the two kinds of value modelled.
 */
module Document {
  datatype Val = Str(s: string) | Bool(b: bool)

  type Doc = map<string, Val>

  /** Python truthiness: the empty string and `False` are false. */
  predicate Truthy(v: Val) {
    match v
    case Str(s) => s != ""
    case Bool(b) => b
  }

  /** `doc.get(key, default)`. */
  function Get(doc: Doc, key: string, default: Val): Val {
    if key in doc then doc[key] else default
  }

  /** `not doc.get(key)` is false: the key is present with a truthy value. */
  predicate Present(doc: Doc, key: string) {
    key in doc && Truthy(doc[key])
  }

  /** Python's `str(v)`, as used by an f-string. */
  function Format(v: Val): string
  {
    match v
    case Str(s) => s
    case Bool(b) => if b then "True" else "False"
  }
}
