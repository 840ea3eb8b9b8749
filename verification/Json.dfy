/** JSON values as the source's loosely typed rows hold them, with the Python coercions applied to
    them.  A row is a record with one optional field for each key the code looks at; `None` is an
    absent key. */
module Json {
  import opened Wrappers
  import opened Sequences
  import Text

  /** Lists and objects stay as their text: no coercion below looks inside them. */
  datatype Value = Null | Bool(b: bool) | Num(n: real) | Str(s: string) | Nested(text: string)

  type Field = Option<Value>

  /** What the language runtime decides: `float(text)`, `int(text)`, `str(number)` and which texts
      are ISO-8601 timestamps with a timezone. */
  datatype Python = Python(
    parseFloat: string -> Option<real>,
    parseInt: string -> Option<int>,
    show: real -> string,
    isTimestamp: string -> bool)

  /** `row.get(key)` */
  function Get(f: Field): Value {
    f.GetOr(Null)
  }

  predicate Truthy(v: Value) {
    match v
    case Null => false
    case Bool(b) => b
    case Num(n) => n != 0.0
    case Str(s) => s != ""
    case Nested(t) => t != "[]" && t != "{}"
  }

  /** `a or b` */
  function Or(a: Value, b: Value): Value {
    if Truthy(a) then a else b
  }

  /** `str(v)` */
  function ToText(py: Python, v: Value): string {
    match v
    case Null => "None"
    case Bool(b) => if b then "True" else "False"
    case Num(n) => py.show(n)
    case Str(s) => s
    case Nested(t) => t
  }

  /** `float(v)` */
  function ToFloat(py: Python, v: Value): Option<real> {
    match v
    case Num(n) => Some(n)
    case Bool(b) => Some(if b then 1.0 else 0.0)
    case Str(s) => py.parseFloat(s)
    case _ => None
  }

  /** `int(v)`: truncates a number toward zero. */
  function ToInt(py: Python, v: Value): Option<int> {
    match v
    case Num(n) => Some(if n >= 0.0 then n.Floor else -((-n).Floor))
    case Bool(b) => Some(if b then 1 else 0)
    case Str(s) => py.parseInt(s)
    case _ => None
  }

  /** `_finite(v, minimum=0.0)` */
  function Finite(py: Python, v: Value): Option<real> {
    match ToFloat(py, v)
    case Some(x) => if x >= 0.0 then Some(x) else None
    case None => None
  }

  /** `str(a or b or ... or "").strip().upper()` */
  function UpperText(py: Python, v: Value): string {
    Text.Upper(Text.Strip(ToText(py, v)))
  }

  function LowerText(py: Python, v: Value): string {
    Text.Lower(Text.Strip(ToText(py, v)))
  }

  /** A nonempty canonical text is read back as itself, whatever its fallbacks are. */
  lemma UpperReadBack(py: Python, v: Value, w1: Value, w2: Value)
    requires UpperText(py, v) != ""
    ensures UpperText(py, Or(Str(UpperText(py, v)), w1)) == UpperText(py, v)
    ensures UpperText(py, Or(Or(Str(UpperText(py, v)), w1), w2)) == UpperText(py, v)
  {
    Text.CanonicalCase(ToText(py, v));
  }

  lemma LowerReadBack(py: Python, v: Value, w1: Value, w2: Value)
    requires LowerText(py, v) != ""
    ensures LowerText(py, Or(Str(LowerText(py, v)), w1)) == LowerText(py, v)
    ensures LowerText(py, Or(Or(Str(LowerText(py, v)), w1), w2)) == LowerText(py, v)
  {
    Text.CanonicalCase(ToText(py, v));
  }
}
