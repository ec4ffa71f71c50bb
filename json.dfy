/** The values the Python code passes around as `Any` and `Dict[str, Any]`. */
module Json {
  import opened Wrappers

  /**
   * A Python value that JSON can carry. A float literal of the source is kept
   * exactly as `JDecimal(m, k)`, standing for m / 10^k. Dictionaries are maps:
   * their insertion order is not part of this type.
   */
  datatype Json =
    | JNull
    | JBool(b: bool)
    | JInt(i: int)
    | JDecimal(mantissa: int, scale: nat)
    | JStr(s: string)
    | JList(items: seq<Json>)
    | JObject(fields: map<string, Json>)

  type Dict = map<string, Json>

  /** `d.get(key, default)` */
  function Get(d: Dict, key: string, default: Json): Json {
    if key in d then d[key] else default
  }

  /** The name `type(v).__name__` gives, as it appears in Python's error messages. */
  function TypeName(v: Json): string {
    match v
    case JNull => "NoneType"
    case JBool(_) => "bool"
    case JInt(_) => "int"
    case JDecimal(_, _) => "float"
    case JStr(_) => "str"
    case JList(_) => "list"
    case JObject(_) => "dict"
  }

  function StrList(xs: seq<string>): Json {
    JList(seq(|xs|, i requires 0 <= i < |xs| => JStr(xs[i])))
  }

  /** Reads back a list of strings written by `StrList`. */
  function AsStrList(v: Json): Option<seq<string>>
    decreases v
  {
    match v
    case JList(items) => StrItems(items)
    case _ => None
  }

  function StrItems(items: seq<Json>): Option<seq<string>>
    decreases |items|
  {
    if items == [] then Some([])
    else if !items[0].JStr? then None
    else
      match StrItems(items[1..])
      case None => None
      case Some(rest) => Some([items[0].s] + rest)
  }

  lemma {:induction false} StrListRoundTrip(xs: seq<string>)
    ensures AsStrList(StrList(xs)) == Some(xs)
    decreases |xs|
  {
    var items := StrList(xs).items;
    if xs != [] {
      assert items[1..] == StrList(xs[1..]).items;
      StrListRoundTrip(xs[1..]);
      assert [xs[0]] + xs[1..] == xs;
    }
  }

  function OptionStr(v: Option<string>): Json {
    match v
    case None => JNull
    case Some(s) => JStr(s)
  }

  function OptionDict(v: Option<Dict>): Json {
    match v
    case None => JNull
    case Some(d) => JObject(d)
  }
}
