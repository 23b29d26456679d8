/**
 * JavaScript values as `JSON.parse` produces them, plus `undefined`, with the two
 * conversions the story router relies on: property access and `String(v)`
 * (which template literals and `Array.prototype.join` apply).
 */
module JsValues {
  import opened Wrappers

  /** Numbers are kept in their JavaScript string form; the router never computes with them. */
  datatype JsValue =
    | Undefined
    | Null
    | Bool(b: bool)
    | Num(repr: string)
    | Str(s: string)
    | Arr(items: seq<JsValue>)
    | Obj(props: map<string, JsValue>)

  predicate Nullish(v: JsValue)
  {
    v.Undefined? || v.Null?
  }

  /**
   * `v[key]` on a value that is neither null nor undefined. Only objects have own
   * properties here: the keys the router reads are no property of strings, numbers,
   * booleans or arrays.
   */
  function Prop(v: JsValue, key: string): JsValue
  {
    if v.Obj? && key in v.props then v.props[key] else Undefined
  }

  /** `v[key]`: reading a property of null or undefined throws a TypeError (None). */
  function Read(v: JsValue, key: string): (r: Option<JsValue>)
    ensures r.None? <==> Nullish(v)
    ensures v.Obj? ==> r == Some(if key in v.props then v.props[key] else Undefined)
  {
    if Nullish(v) then None else Some(Prop(v, key))
  }

  /**
   * `String(v)` returns rather than throws. JSON values are never callable, so an object
   * with an own `toString` property has no usable `toString` (and its `valueOf` yields the
   * object itself): converting it throws a TypeError. Arrays convert element by element.
   */
  predicate Convertible(v: JsValue)
  {
    match v
    case Arr(items) => forall i :: 0 <= i < |items| ==> Convertible(items[i])
    case Obj(props) => "toString" !in props
    case _ => true
  }

  /** `String(v)`; None when the conversion throws. */
  function ToText(v: JsValue): (r: Option<string>)
    ensures r.Some? <==> Convertible(v)
  {
    match v
    case Undefined => Some("undefined")
    case Null => Some("null")
    case Bool(b) => Some(if b then "true" else "false")
    case Num(repr) => Some(repr)
    case Str(s) => Some(s)
    case Arr(items) => JoinItems(items, ",")
    case Obj(props) => if "toString" in props then None else Some("[object Object]")
  }

  /** `items.join(sep)`: null and undefined show as ""; None when an element's conversion throws. */
  function JoinItems(items: seq<JsValue>, sep: string): (r: Option<string>)
    ensures r.Some? <==> forall i :: 0 <= i < |items| ==> Convertible(items[i])
  {
    if items == [] then Some("")
    else
      var last := items[|items| - 1];
      var shown := if Nullish(last) then Some("") else ToText(last);
      if |items| == 1 then shown
      else
        var front := JoinItems(items[..|items| - 1], sep);
        assert forall i :: 0 <= i < |items| - 1 ==> items[..|items| - 1][i] == items[i];
        if front.Some? && shown.Some? then Some(front.value + sep + shown.value) else None
  }

  /** Joining strings only: the texts with `sep` between neighbours. */
  function JoinStrings(xs: seq<string>, sep: string): string
  {
    if xs == [] then ""
    else if |xs| == 1 then xs[0]
    else JoinStrings(xs[..|xs| - 1], sep) + sep + xs[|xs| - 1]
  }

  /** The array value holding the strings `xs`, in order. */
  function StrArray(xs: seq<string>): (r: JsValue)
    ensures r.Arr? && |r.items| == |xs|
    ensures forall i :: 0 <= i < |xs| ==> r.items[i] == Str(xs[i])
  {
    Arr(seq(|xs|, i requires 0 <= i < |xs| => Str(xs[i])))
  }

  /** On an array of strings, `join` is the plain separator-join of those strings. */
  lemma {:induction false} JoinOfStrings(xs: seq<string>, sep: string)
    ensures JoinItems(StrArray(xs).items, sep) == Some(JoinStrings(xs, sep))
  {
    var items := StrArray(xs).items;
    if |xs| > 1 {
      var front := xs[..|xs| - 1];
      JoinOfStrings(front, sep);
      assert items[..|items| - 1] == StrArray(front).items;
    }
  }

  /**
   * `v.join(sep)`: only arrays have `join` (calling it on anything else throws), and the
   * call throws when converting an element does.
   */
  function CallJoin(v: JsValue, sep: string): (r: Option<string>)
    ensures r.Some? <==> v.Arr? && Convertible(v)
    ensures v.Arr? ==> r == JoinItems(v.items, sep)
  {
    if v.Arr? then JoinItems(v.items, sep) else None
  }
}
