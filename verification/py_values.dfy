/**
 * The JSON values a request body can carry, as the Python server sees them
 * once Flask has decoded the body: only what the alert workflow does with
 * them matters here, namely Python truthiness (for `all([...])`), hashability
 * (for use as a dictionary key) and the text `str()` gives (for f-strings).
 */
module PyValues {

  /** A decoded JSON value.
      - Null: JSON null, and also what `dict.get` returns for an absent key.
      - Num: an int or a float, kept as the text Python's `str()` prints for it
        ("1.0", "-3", "1e+300"); the value is never computed on. Only texts
        `str()` can print are meant: "0.00", say, is no Python number's text.
      - Container: a JSON array or object, kept as its Python repr and its
        number of entries. */
  datatype Value =
    | Null
    | Bool(b: bool)
    | Num(text: string)
    | Str(s: string)
    | Container(repr: string, size: nat)

  /** The texts `str()` prints for a numeric zero: the int 0 and the two
      float zeros. A JSON "-0" decodes to the int 0, and a float that
      underflows decodes to 0.0, so these are all the zeros there are. */
  predicate IsZeroText(t: string) {
    t == "0" || t == "0.0" || t == "-0.0"
  }

  /** Python truthiness of a decoded JSON value. */
  predicate Truthy(v: Value) {
    match v
    case Null => false
    case Bool(b) => b
    case Num(t) => !IsZeroText(t)
    case Str(s) => s != ""
    case Container(_, n) => n > 0
  }

  /** Python's built-in `all` over a list of values. */
  function All(vs: seq<Value>): (r: bool)
    ensures r <==> forall i :: 0 <= i < |vs| ==> Truthy(vs[i])
  {
    if vs == [] then true else Truthy(vs[0]) && All(vs[1..])
  }

  /** Lists and dicts cannot be dictionary keys in Python. */
  predicate Hashable(v: Value) {
    !v.Container?
  }

  /** The text an f-string substitutes for a value, i.e. `str(v)`. */
  function Format(v: Value): string {
    match v
    case Null => "None"
    case Bool(b) => if b then "True" else "False"
    case Num(t) => t
    case Str(s) => s
    case Container(repr, _) => repr
  }
}
