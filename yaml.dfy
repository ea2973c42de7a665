/**
 * The YAML store a recipe file is read from, flattened to a map from the
 * full dotted path to the value found there, and the getters the
 * configuration reader calls on it.
 */
module Yaml {
  import opened Wrappers
  import opened JavaStrings

  /**
   * A YAML value. A floating-point scalar carries its value and the text
   * Java prints for it (Double.toString), which is what getString and
   * toString return.
   */
  datatype Value =
    | Str(s: string)
    | Int(i: int)
    | Bool(b: bool)
    | Real(r: real, text: string)
    | List(items: seq<Value>)
    | Section(entries: map<string, Value>)

  type Config = map<string, Value>

  /** The text of a scalar; lists and sections have none here. */
  function ScalarText(v: Value): Option<string> {
    match v
    case Str(s) => Some(s)
    case Int(i) => Some(IntToString(i))
    case Bool(b) => Some(if b then "true" else "false")
    case Real(_, text) => Some(text)
    case _ => None
  }

  /** contains(path) */
  predicate Contains(config: Config, path: string) {
    path in config
  }

  /** getString(path, def): the scalar's text, or `def` when the path holds none. */
  function GetString(config: Config, path: string, def: string): (r: string)
    ensures path !in config ==> r == def
    ensures path in config && config[path].Str? ==> r == config[path].s
  {
    if path in config && ScalarText(config[path]).Some? then ScalarText(config[path]).value else def
  }

  /** getString(path) with no default: null when the path holds no scalar. */
  function GetStringOrNull(config: Config, path: string): (r: Option<string>)
    ensures path !in config ==> r.None?
    ensures path in config && config[path].Str? ==> r == Some(config[path].s)
  {
    if path in config then ScalarText(config[path]) else None
  }

  /** (int) of a double: truncation toward zero. */
  function Truncate(r: real): (i: int)
    ensures r >= 0.0 ==> i as real <= r < i as real + 1.0
    ensures r < 0.0 ==> i as real - 1.0 < r <= i as real
  {
    if r >= 0.0 then r.Floor else -((-r).Floor)
  }

  /** getInt(path, def): a number converted to int, anything else gives `def`. */
  function GetInt(config: Config, path: string, def: int): (r: int)
    ensures path !in config ==> r == def
    ensures path in config && config[path].Int? ==> r == config[path].i
  {
    if path !in config then def
    else match config[path]
      case Int(i) => i
      case Real(x, _) => Truncate(x)
      case _ => def
  }

  /** getDouble(path, def): a number converted to double, anything else gives `def`. */
  function GetDouble(config: Config, path: string, def: real): (r: real)
    ensures path !in config ==> r == def
    ensures path in config && config[path].Real? ==> r == config[path].r
  {
    if path !in config then def
    else match config[path]
      case Int(i) => i as real
      case Real(x, _) => x
      case _ => def
  }

  /** getStringList(path): the scalars of a list, as text; no list gives an empty one. */
  function GetStringList(config: Config, path: string): (r: seq<string>)
    ensures path !in config || !config[path].List? ==> r == []
    ensures path in config && config[path].List? ==> |r| <= |config[path].items|
  {
    if path in config && config[path].List? then ScalarTexts(config[path].items) else []
  }

  function ScalarTexts(items: seq<Value>): (r: seq<string>)
    ensures |r| <= |items|
    ensures (forall i :: 0 <= i < |items| ==> items[i].Str?) ==> |r| == |items| && forall i :: 0 <= i < |items| ==> r[i] == items[i].s
  {
    if items == [] then []
    else
      var rest := ScalarTexts(items[1..]);
      match ScalarText(items[0])
      case Some(t) => [t] + rest
      case None => rest
  }

  /** getMapList(path): the sections of a list, in order; no list gives an empty one. */
  function GetMapList(config: Config, path: string): (r: seq<map<string, Value>>)
    ensures path !in config || !config[path].List? ==> r == []
  {
    if path in config && config[path].List? then Sections(config[path].items) else []
  }

  function Sections(items: seq<Value>): (r: seq<map<string, Value>>)
    ensures |r| <= |items|
    ensures (forall i :: 0 <= i < |items| ==> items[i].Section?) ==>
              |r| == |items| && forall i :: 0 <= i < |items| ==> r[i] == items[i].entries
  {
    if items == [] then []
    else if items[0].Section? then [items[0].entries] + Sections(items[1..])
    else Sections(items[1..])
  }

  /** The first character of `String.valueOf(value)`; an empty string has none. */
  function FirstChar(v: Value): (r: Result<char>)
    ensures v.Str? ==> (r.Ok? <==> v.s != "")
    ensures v.Str? && v.s != "" ==> r == Ok(v.s[0])
  {
    match v
    case List(_) => Ok('[')
    case Section(_) => Ok('{')
    case _ =>
      var t := ScalarText(v).value;
      if t == "" then Err(Crash("StringIndexOutOfBoundsException: index 0, length 0")) else Ok(t[0])
  }
}
