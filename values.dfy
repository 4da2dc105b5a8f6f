/**
 * JavaScript values as the reconciler and the element factory see them.
 *
 * Numbers are modelled as integers; a function value is identified by an
 * opaque id (what `===` compares); objects are their own enumerable
 * properties.
 */
module JsValues {

  datatype Option<+T> = None | Some(value: T)

  datatype Value =
    | Undefined
    | Null
    | Bool(b: bool)
    | Num(n: int)
    | Str(s: string)
    | Sym(description: string)
    | Fn(id: nat)
    | Arr(items: seq<Value>)
    | Obj(fields: map<string, Value>)

  /** `typeof v === 'object' && v !== null`: plain objects and arrays. */
  predicate IsObject(v: Value) {
    v.Obj? || v.Arr?
  }

  /** Property read `v[name]`; a missing property reads as `undefined`. */
  function Get(v: Value, name: string): (r: Value)
    ensures !v.Obj? ==> r == Undefined
    ensures v.Obj? && name !in v.fields ==> r == Undefined
  {
    if v.Obj? && name in v.fields then v.fields[name] else Undefined
  }

  /** Property read `v.name`, which throws (`None`) on `null` and `undefined`. */
  function ReadProp(v: Value, name: string): (r: Option<Value>)
    ensures r.None? <==> v.Null? || v.Undefined?
  {
    if v.Null? || v.Undefined? then None else Some(Get(v, name))
  }

  /** The `$$typeof` tag of element objects (the shared symbol `react.element`). */
  const REACT_ELEMENT_TYPE: Value := Sym("react.element")

  /** The decimal digit for `d`. */
  function DigitChar(d: nat): (c: char)
    requires d < 10
    ensures '0' <= c <= '9' && (c - '0') as nat == d
  {
    ('0' as int + d) as char
  }

  /** Decimal notation of a natural number. */
  function NatToString(n: nat): (s: string)
    ensures |s| >= 1
    ensures forall i :: 0 <= i < |s| ==> '0' <= s[i] <= '9'
    ensures n >= 10 ==> s[0] != '0'
    decreases n
  {
    if n < 10 then [DigitChar(n)] else NatToString(n / 10) + [DigitChar(n % 10)]
  }

  /** Value of a decimal digit string. */
  function DigitsValue(s: string): nat
    requires forall i :: 0 <= i < |s| ==> '0' <= s[i] <= '9'
    decreases |s|
  {
    if s == [] then 0 else 10 * DigitsValue(s[..|s| - 1]) + (s[|s| - 1] - '0') as nat
  }

  /** Reading back the decimal notation gives the number: the notation loses nothing. */
  lemma {:induction false} NatToStringRoundTrip(n: nat)
    ensures DigitsValue(NatToString(n)) == n
    decreases n
  {
    var s := NatToString(n);
    if n >= 10 {
      NatToStringRoundTrip(n / 10);
      assert s[..|s| - 1] == NatToString(n / 10);
      assert (s[|s| - 1] - '0') as nat == n % 10;
    } else {
      assert s[..0] == [];
    }
  }

  /** A symbol somewhere in `v`: `v` itself, or an item of an array, at any depth. */
  predicate HasSymbol(v: Value)
    decreases v
  {
    match v
    case Sym(_) => true
    case Arr(items) => exists i :: 0 <= i < |items| && HasSymbol(items[i])
    case _ => false
  }

  /**
   * String conversion `'' + v`; `None` is the TypeError JavaScript throws
   * when it meets a symbol. Function source text and objects with their
   * own `toString` are not modelled: they get a fixed placeholder text.
   */
  function ToJsString(v: Value): (r: Option<string>)
    ensures r.None? <==> HasSymbol(v)
    ensures v.Str? ==> r == Some(v.s)
    ensures v.Num? && v.n >= 0 ==> r == Some(NatToString(v.n))
    decreases v, 1
  {
    match v
    case Undefined => Some("undefined")
    case Null => Some("null")
    case Bool(b) => Some(if b then "true" else "false")
    case Num(n) => Some(if n < 0 then "-" + NatToString(-n) else NatToString(n))
    case Str(s) => Some(s)
    case Sym(_) => None
    case Fn(_) => Some("function")
    case Arr(_) => JoinItems(v, 0)
    case Obj(_) => Some("[object Object]")
  }

  /**
   * Array-to-string: items from index k on, joined by commas, `null` and
   * `undefined` items empty; it throws when an item's conversion does.
   */
  function JoinItems(whole: Value, k: nat): (r: Option<string>)
    requires whole.Arr? && k <= |whole.items|
    ensures r.None? <==> exists i :: k <= i < |whole.items| && HasSymbol(whole.items[i])
    decreases whole, 0, |whole.items| - k
  {
    if k == |whole.items| then Some("")
    else
      var item := whole.items[k];
      var first := if item.Null? || item.Undefined? then Some("") else ToJsString(item);
      var rest := if k + 1 == |whole.items| then None else JoinItems(whole, k + 1);
      if first.None? then None
      else if k + 1 == |whole.items| then first
      else if rest.None? then None
      else Some(first.value + "," + rest.value)
  }
}
