/**
 * The element factory: `jsx` / `jsxDEV` turn a config object plus children
 * into an element object `{$$typeof, type, key, ref, props}`.
 *
 * A config object is modelled by its own enumerable properties; `for...in`
 * visits each of them once, in an order the model leaves open.
 */
module Jsx {
  import opened JsValues

  /** The element object built by `ReactElement`. */
  function ReactElement(elementType: Value, key: Value, ref: Value, props: Value): (e: Value)
    ensures IsValidElement(e)
    ensures Get(e, "type") == elementType && Get(e, "key") == key
    ensures Get(e, "ref") == ref && Get(e, "props") == props
  {
    Obj(map[
      "$$typeof" := REACT_ELEMENT_TYPE,
      "type" := elementType,
      "key" := key,
      "ref" := ref,
      "props" := props,
      "__mark" := Str("JokerWon")])
  }

  /** `isValidElement`: a non-null object whose `$$typeof` is the element symbol. */
  predicate IsValidElement(v: Value) {
    IsObject(v) && Get(v, "$$typeof") == REACT_ELEMENT_TYPE
  }

  /** Exactly the plain objects carrying the element tag are elements; arrays never are. */
  lemma ValidElementIsTaggedObject(v: Value)
    ensures IsValidElement(v) <==>
      v.Obj? && "$$typeof" in v.fields && v.fields["$$typeof"] == REACT_ELEMENT_TYPE
  {
  }

  /** Converting the config's `key` throws: it holds a symbol. */
  predicate KeyThrows(config: map<string, Value>) {
    "key" in config && HasSymbol(config["key"])
  }

  /** The key an element gets from its config: the stringified `key`, or null; `None` when converting throws. */
  function ConfigKey(config: map<string, Value>): Option<Value> {
    if "key" in config && config["key"] != Undefined then
      var k := ToJsString(config["key"]);
      if k.None? then None else Some(Str(k.value))
    else Some(Null)
  }

  /** The ref an element gets from its config: `ref` itself, or null. */
  function ConfigRef(config: map<string, Value>): Value {
    if "ref" in config && config["ref"] != Undefined then config["ref"] else Null
  }

  /**
   * The `for...in` loop shared by `jsx` and `jsxDEV`: `key` and `ref` are taken
   * out of the config, every other property is copied unchanged into props.
   * A `key` whose conversion throws ends the loop (`key` is `None`).
   */
  method SplitConfig(config: map<string, Value>) returns (key: Option<Value>, ref: Value, props: map<string, Value>)
    ensures key.None? <==> KeyThrows(config)
    ensures key.Some? ==> key == ConfigKey(config) && ref == ConfigRef(config)
    ensures key.Some? ==> key.value.Null? || key.value.Str?
    ensures key.Some? ==> "key" !in props && "ref" !in props
    ensures key.Some? ==> forall name :: name in config && name != "key" && name != "ref" ==>
      name in props && props[name] == config[name]
    ensures key.Some? ==> props.Keys == config.Keys - {"key", "ref"}
  {
    key, ref, props := Some(Null), Null, map[];
    var pending := config.Keys;
    while pending != {}
      invariant pending <= config.Keys
      invariant key == (if "key" !in pending then ConfigKey(config) else Some(Null))
      invariant key.Some? && ("key" !in pending ==> !KeyThrows(config))
      invariant ref == (if "ref" !in pending then ConfigRef(config) else Null)
      invariant props.Keys == config.Keys - pending - {"key", "ref"}
      invariant forall name :: name in props ==> name in config && props[name] == config[name]
      decreases pending
    {
      var prop :| prop in pending;
      var val := config[prop];
      pending := pending - {prop};
      if prop == "key" {
        if val != Undefined {
          var text := ToJsString(val);
          if text.None? {
            return None, ref, props;
          }
          key := Some(Str(text.value));
        }
        continue;
      }
      if prop == "ref" {
        if val != Undefined {
          ref := val;
        }
        continue;
      }
      props := props[prop := val];
    }
  }

  /**
   * `jsx(type, config, ...maybeChildren)`: one extra argument becomes
   * `props.children`, two or more become the array of them, none leaves
   * whatever the config said. A symbol `key` throws (`None`).
   */
  method Jsx(elementType: Value, config: map<string, Value>, maybeChildren: seq<Value>)
    returns (r: Option<Value>)
    ensures r.None? <==> KeyThrows(config)
    ensures r.Some? ==> var element := r.value;
      && IsValidElement(element)
      && Get(element, "type") == elementType
      && Some(Get(element, "key")) == ConfigKey(config) && Get(element, "ref") == ConfigRef(config)
      && Get(element, "props").Obj?
    ensures r.Some? ==> var props := Get(r.value, "props").fields;
      && "key" !in props && "ref" !in props
      && (forall name :: name in config && name != "key" && name != "ref" && name != "children" ==>
            name in props && props[name] == config[name])
      && props.Keys == config.Keys - {"key", "ref"} + (if maybeChildren == [] then {} else {"children"})
      && (|maybeChildren| == 1 ==> props["children"] == maybeChildren[0])
      && (|maybeChildren| >= 2 ==> props["children"] == Arr(maybeChildren))
      && (maybeChildren == [] && "children" in config ==> props["children"] == config["children"])
  {
    var key, ref, props := SplitConfig(config);
    if key.None? {
      return None;
    }
    var withChildren := AttachChildren(props, maybeChildren);
    r := Some(ReactElement(elementType, key.value, ref, Obj(withChildren)));
  }

  /** The `maybeChildren` step of `jsx`: one child, the array of several, or the props unchanged. */
  method AttachChildren(props: map<string, Value>, maybeChildren: seq<Value>) returns (out: map<string, Value>)
    ensures forall name :: name in props && name != "children" ==> name in out && out[name] == props[name]
    ensures out.Keys == props.Keys + (if maybeChildren == [] then {} else {"children"})
    ensures |maybeChildren| == 1 ==> out["children"] == maybeChildren[0]
    ensures |maybeChildren| >= 2 ==> out["children"] == Arr(maybeChildren)
    ensures maybeChildren == [] ==> out == props
  {
    out := props;
    var maybeChildrenLen := |maybeChildren|;
    if maybeChildrenLen > 0 {
      if maybeChildrenLen == 1 {
        out := out["children" := maybeChildren[0]];
      } else {
        out := out["children" := Arr(maybeChildren)];
      }
    }
  }

  /** `jsxDEV(type, config)`: key, ref and props as in `jsx`, children only from the config. */
  method JsxDev(elementType: Value, config: map<string, Value>) returns (r: Option<Value>)
    ensures r.None? <==> KeyThrows(config)
    ensures r.Some? ==> var element := r.value;
      && IsValidElement(element)
      && Get(element, "type") == elementType
      && Some(Get(element, "key")) == ConfigKey(config) && Get(element, "ref") == ConfigRef(config)
      && Get(element, "props") == Obj(config - {"key", "ref"})
  {
    var key, ref, props := SplitConfig(config);
    if key.None? {
      return None;
    }
    r := Some(ReactElement(elementType, key.value, ref, Obj(props)));
  }
}
