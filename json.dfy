/** JavaScript values as the front end sees them after `JSON.parse`, together
    with the three language rules the error-normalisation code depends on:
    truthiness, property access (plain `x.p`, which raises a TypeError on
    `null`/`undefined`, and optional chaining `x?.p`, which does not) and
    coercion to string (`String(x)`, template literals, `Array.join`). */
module Json {
  import opened Util

  datatype Js =
    | Undefined
    | Null
    | Bool(b: bool)
    | Num(n: int)
    | Str(s: string)
    | Arr(items: seq<Js>)
    | Obj(fields: seq<Field>)
      /** An object made by `new Error(...)`: `instanceof Error` holds of it. */
    | ErrorObj(props: seq<Field>)

  datatype Field = Field(key: string, value: Js)

  /** JavaScript truthiness (NaN is not modelled). */
  predicate Truthy(j: Js) {
    match j
    case Undefined => false
    case Null => false
    case Bool(b) => b
    case Num(n) => n != 0
    case Str(s) => s != ""
    case _ => true
  }

  predicate Nullish(j: Js) { j.Undefined? || j.Null? }

  /** The value of the last field named `key` (as `JSON.parse` keeps the last duplicate). */
  function Lookup(fields: seq<Field>, key: string): (r: Js)
    ensures r != Undefined ==> exists i :: 0 <= i < |fields| && fields[i].key == key && fields[i].value == r
    ensures (forall i :: 0 <= i < |fields| ==> fields[i].key != key) ==> r == Undefined
  {
    if fields == [] then Undefined
    else if fields[|fields| - 1].key == key then fields[|fields| - 1].value
    else Lookup(fields[..|fields| - 1], key)
  }

  lemma LookupSnoc(fields: seq<Field>, f: Field, key: string)
    ensures Lookup(fields + [f], key) == if f.key == key then f.value else Lookup(fields, key)
  {
    assert (fields + [f])[..|fields|] == fields;
  }

  /** `j.key` on a value that is not `null`/`undefined`: own data properties of
      objects; every other property read here yields `undefined`. */
  function Prop(j: Js, key: string): Js {
    match j
    case Obj(fs) => Lookup(fs, key)
    case ErrorObj(ps) => Lookup(ps, key)
    case _ => Undefined
  }

  /** `j.key`: `None` stands for the TypeError raised when `j` is `null` or `undefined`. */
  function Member(j: Js, key: string): (r: Option<Js>)
    ensures r.None? <==> Nullish(j)
    ensures r.Some? ==> r.value == Prop(j, key)
  {
    if Nullish(j) then None else Some(Prop(j, key))
  }

  /** `j?.key`: never raises. */
  function OptMember(j: Js, key: string): (r: Js)
    ensures Nullish(j) ==> r == Undefined
    ensures !Nullish(j) ==> Member(j, key) == Some(r)
  {
    if Nullish(j) then Undefined else Prop(j, key)
  }

  /** `String(j)`, also what a template literal and `Array.join` use per element. */
  function ToString(j: Js): string
    decreases j
  {
    match j
    case Undefined => "undefined"
    case Null => "null"
    case Bool(b) => if b then "true" else "false"
    case Num(n) => IntToString(n)
    case Str(s) => s
    case Arr(items) => Join(JoinElems(items), ",")
    case Obj(_) => "[object Object]"
    case ErrorObj(ps) =>
      var m := Lookup(ps, "message");
      if m.Str? && m.s != "" then "Error: " + m.s else "Error"
  }

  /** `Array.join` renders `null` and `undefined` elements as the empty string. */
  function JoinElems(items: seq<Js>): (r: seq<string>)
    ensures |r| == |items|
    decreases items
  {
    if items == [] then []
    else [if Nullish(items[0]) then "" else ToString(items[0])] + JoinElems(items[1..])
  }

  /** `JSON.stringify`, left uninterpreted: the model only needs that it yields a string. */
  type Stringify = Js -> string

  /** The two per-item rules the front end renders detail lists with:
      `MsgRule` is `typeof e === 'string' ? e : e.msg || JSON.stringify(e)`;
      `MsgOrMessageRule` (the 422 branch of the client) also tries `e.message`
      before falling back to JSON. */
  datatype ItemRule = MsgRule | MsgOrMessageRule

  /** The text of one detail item; `None` is the TypeError raised for a `null` item. */
  function ItemText(rule: ItemRule, e: Js, stringify: Stringify): (r: Option<string>)
    ensures e.Str? ==> r == Some(e.s)
    ensures !e.Str? ==> (r.None? <==> Nullish(e))
    ensures !e.Str? && !Nullish(e) && Truthy(Prop(e, "msg")) ==> r == Some(ToString(Prop(e, "msg")))
    ensures !e.Str? && !Nullish(e) && !Truthy(Prop(e, "msg")) && rule.MsgRule? ==> r == Some(stringify(e))
    ensures !e.Str? && !Nullish(e) && !Truthy(Prop(e, "msg")) && rule.MsgOrMessageRule? ==>
      r == Some(if Truthy(Prop(e, "message")) then ToString(Prop(e, "message")) else stringify(e))
  {
    if e.Str? then Some(e.s)
    else if Nullish(e) then None
    else if Truthy(Prop(e, "msg")) then Some(ToString(Prop(e, "msg")))
    else if rule.MsgOrMessageRule? && Truthy(Prop(e, "message")) then Some(ToString(Prop(e, "message")))
    else Some(stringify(e))
  }

  predicate AllRender(rule: ItemRule, items: seq<Js>, stringify: Stringify) {
    forall i :: 0 <= i < |items| ==> ItemText(rule, items[i], stringify).Some?
  }

  /** The item texts, for a list none of whose items raises. */
  function Texts(rule: ItemRule, items: seq<Js>, stringify: Stringify): (r: seq<string>)
    requires AllRender(rule, items, stringify)
    ensures |r| == |items|
    ensures forall i :: 0 <= i < |items| ==> Some(r[i]) == ItemText(rule, items[i], stringify)
  {
    if items == [] then [] else [ItemText(rule, items[0], stringify).value] + Texts(rule, items[1..], stringify)
  }

  /** `items.map(rule).join(sep)`; `None` when some item raises. */
  function JoinItems(rule: ItemRule, items: seq<Js>, stringify: Stringify, sep: string): (r: Option<string>)
    ensures r.Some? <==> AllRender(rule, items, stringify)
    ensures r.Some? ==> r.value == Join(Texts(rule, items, stringify), sep)
  {
    if AllRender(rule, items, stringify) then Some(Join(Texts(rule, items, stringify), sep)) else None
  }

  /** The plain strings of a list made only of strings. */
  function StringsOf(items: seq<Js>): (r: seq<string>)
    requires forall i :: 0 <= i < |items| ==> items[i].Str?
    ensures |r| == |items|
    ensures forall i :: 0 <= i < |items| ==> r[i] == items[i].s
  {
    if items == [] then [] else [items[0].s] + StringsOf(items[1..])
  }

  /** A list of plain strings joins to those strings under either rule,
      whatever `JSON.stringify` does. */
  lemma StringItemsJoin(rule: ItemRule, items: seq<Js>, stringify: Stringify, sep: string)
    requires forall i :: 0 <= i < |items| ==> items[i].Str?
    ensures JoinItems(rule, items, stringify, sep) == Some(Join(StringsOf(items), sep))
  {
    assert Texts(rule, items, stringify) == StringsOf(items);
  }

  /** A `null` item makes the whole rendering raise. */
  lemma NullItemRaises(rule: ItemRule, items: seq<Js>, stringify: Stringify, sep: string, i: nat)
    requires i < |items| && items[i] == Null
    ensures JoinItems(rule, items, stringify, sep).None?
  {
    assert ItemText(rule, items[i], stringify).None?;
  }

  // ---------------------------------------------------------------------------
  // Building values

  /** `new Error(message)`. */
  function NewErrorJs(message: string): Js {
    ErrorObj([Field("message", Str(message))])
  }

  /** A TypeError an engine raises, with the wording V8 gives it. */
  function TypeErrorJs(message: string): Js {
    ErrorObj([Field("name", Str("TypeError")), Field("message", Str(message))])
  }

  /** `j.includes(sub)`: a substring test on a string, an element test on an
      array; `None` is the TypeError raised on any other value, which has no
      `includes` method. */
  function Includes(j: Js, sub: string): (r: Option<bool>)
    ensures j.Str? ==> r == Some(Contains(j.s, sub))
    ensures j.Arr? ==> r == Some(Str(sub) in j.items)
    ensures !j.Str? && !j.Arr? ==> r.None?
  {
    match j
    case Str(s) => Some(Contains(s, sub))
    case Arr(items) => Some(Str(sub) in items)
    case _ => None
  }

  /** `obj.key = v` on an object: the value read back afterwards is `v`, other keys unchanged. */
  function SetProp(fields: seq<Field>, key: string, v: Js): (r: seq<Field>)
    ensures Lookup(r, key) == v
    ensures forall k :: k != key ==> Lookup(r, k) == Lookup(fields, k)
  {
    fields + [Field(key, v)]
  }
}
