/** The dynamically typed values the cleaners handle: what `json.loads` returns
    and what a receipt dict holds, with Python's truthiness, `dict.get` and
    `float(...)` on them. */
module Values {
  import opened Wrappers
  import opened Text
  import opened Decimal

  /** A JSON value as Python holds it: `None`, a str, a number, a list or a dict.
      Booleans are not modelled. */
  datatype Json =
    | JNull
    | JStr(s: string)
    | JNum(x: real)
    | JArr(items: seq<Json>)
    | JObj(fields: map<string, Json>)

  /** A Python dict from field names to values. */
  type Dict = map<string, Json>

  /** `bool(v)`: `None`, `""`, `0`, `[]` and `{}` are false. */
  predicate Truthy(v: Json) {
    match v
    case JNull => false
    case JStr(s) => s != ""
    case JNum(x) => x != 0.0
    case JArr(a) => a != []
    case JObj(m) => m != map[]
  }

  /** `d.get(k)`: the value, or `None` when the key is absent. */
  function Get(d: Dict, k: string): (v: Json)
    ensures k !in d ==> v == JNull
  {
    if k in d then d[k] else JNull
  }

  /** `v in ["null", ""]` when `v` is also known to be truthy: the text "null". */
  predicate IsNullText(v: Json) {
    v == JStr("null")
  }

  /** `float(v)`: a number as it is, a str parsed as a decimal literal; `None`
      stands for the ValueError or TypeError Python raises. */
  function FloatOf(v: Json): (r: Option<real>)
    ensures v.JNum? ==> r == Some(v.x)
    ensures v.JNull? || v.JArr? || v.JObj? ==> r.None?
  {
    match v
    case JNum(x) => Some(x)
    case JStr(s) => ParseDecimal(s)
    case _ => None
  }

  /** `float(f"{x:.2f}")` is `round(x, 2)`: a formatted amount reads back as the
      rounded value. */
  lemma {:induction false} FloatOfMoney(x: real)
    ensures FloatOf(JStr(Money(x))) == Some(Round2(x))
  {
    ParseMoney(x);
  }

  /** `float(str(round(x, 1)))` is `round(x, 1)`. */
  lemma {:induction false} FloatOfTenths(x: real)
    ensures FloatOf(JStr(Tenths(x))) == Some(Round1(x))
  {
    ParseTenths(x);
  }

  /** A value already at one decimal reads back from its text unchanged. */
  lemma {:induction false} FloatOfTenth(x: real)
    requires Round1(x) == x
    ensures FloatOf(JStr(Tenths(x))) == Some(x)
  {
    FloatOfTenths(x);
  }

  /** The placeholder amount "0.00" reads back as zero. */
  lemma {:induction false} FloatOfZero()
    ensures FloatOf(JStr(Zero)) == Some(0.0)
  {
    ZeroIsMoney();
    FloatOfMoney(0.0);
    assert Round2(0.0) == 0.0;
  }
}
