/** The values that flow through the cleaners: the JSON-like Python objects built from
    table cells. Each operation here is one Python builtin applied to an arbitrary
    value, with the exception Python raises when the value has the wrong type. */
module Values {
  import opened Wrappers
  import opened Dicts
  import Text

  datatype Value =
    | Null                 // None (and NaN in the players cleaner)
    | Str(s: string)
    | Int(i: int)
    | Float(text: string)  // float(text); the number itself is not modelled
    | List(items: seq<Value>)
    | Map(m: Dict<Value>)

  /** `[str(x) for x in xs]` as values */
  function Strs(xs: seq<string>): (r: seq<Value>)
    ensures |r| == |xs|
    ensures forall i :: 0 <= i < |xs| ==> r[i] == Str(xs[i])
  {
    seq(|xs|, i requires 0 <= i < |xs| => Str(xs[i]))
  }

  /** The one-character strings of `s`, as iterating over a `str` yields them. */
  function Chars(s: string): (r: seq<Value>)
    ensures |r| == |s|
    ensures forall i :: 0 <= i < |s| ==> r[i] == Str([s[i]])
  {
    seq(|s|, i requires 0 <= i < |s| => Str([s[i]]))
  }

  /** `for x in v`: a list yields its items, a string its characters, a dict its keys;
      anything else raises TypeError. */
  function Iterate(v: Value): (r: Result<seq<Value>>)
    ensures r.Ok? <==> v.List? || v.Str? || v.Map?
    ensures r.Err? ==> r.error == TypeError
    ensures v.List? ==> r == Ok(v.items)
  {
    match v
    case List(items) => Ok(items)
    case Str(s) => Ok(Chars(s))
    case Map(m) => Ok(Strs(Keys(m)))
    case _ => Err(TypeError)
  }

  /** `len(v)`, which agrees with the number of elements iteration yields. */
  function Len(v: Value): (r: Result<nat>)
    ensures r.Ok? <==> Iterate(v).Ok?
    ensures r.Ok? ==> r.value == |Iterate(v).value|
    ensures r.Err? ==> r.error == TypeError
  {
    match v
    case List(items) => Ok(|items|)
    case Str(s) => Ok(|s|)
    case Map(m) => Ok(|m|)
    case _ => Err(TypeError)
  }

  /** `v[i]` for a non-negative integer index: a list item, a one-character string,
      KeyError for a dict (its keys are strings), TypeError otherwise. */
  function IndexAt(v: Value, i: nat): (r: Result<Value>)
    ensures r.Ok? <==> (v.List? && i < |v.items|) || (v.Str? && i < |v.s|)
    ensures v.List? && i < |v.items| ==> r == Ok(v.items[i])
    ensures v.List? && i >= |v.items| ==> r == Err(IndexError)
  {
    match v
    case List(items) => if i < |items| then Ok(items[i]) else Err(IndexError)
    case Str(s) => if i < |s| then Ok(Str([s[i]])) else Err(IndexError)
    case Map(_) => Err(KeyError)
    case _ => Err(TypeError)
  }

  /** `v[i]` inside `try: ... except: None` */
  function IndexOrNull(v: Value, i: nat): (r: Value)
    ensures IndexAt(v, i).Ok? ==> r == IndexAt(v, i).value
    ensures IndexAt(v, i).Err? ==> r == Null
  {
    match IndexAt(v, i)
    case Ok(x) => x
    case Err(_) => Null
  }

  /** A value used as a dict (`v.keys()`, `v[k]`): AttributeError otherwise. */
  function AsDict(v: Value): (r: Result<Dict<Value>>)
    ensures r.Ok? <==> v.Map?
    ensures v.Map? ==> r.value == v.m
  {
    if v.Map? then Ok(v.m) else Err(AttributeError)
  }

  /** A value used as a string by a `str` method: AttributeError otherwise. */
  function AsStr(v: Value): (r: Result<string>)
    ensures r.Ok? <==> v.Str?
    ensures v.Str? ==> r.value == v.s
  {
    if v.Str? then Ok(v.s) else Err(AttributeError)
  }

  /** `x in v` for a string `x`: list membership, key membership, substring test. */
  function In(x: Value, v: Value): (r: Result<bool>)
    ensures v.List? ==> r == Ok(x in v.items)
    ensures v.Null? ==> r == Err(TypeError)
  {
    match v
    case List(items) => Ok(x in items)
    case Map(m) => if x.Str? then Ok(Has(m, x.s)) else Ok(false)
    case Str(s) => if x.Str? then Ok(Text.Contains(s, x.s)) else Err(TypeError)
    case _ => Err(TypeError)
  }

  /** Applies `f` to every element of a list, stopping at the first failure. */
  function MapResult(xs: seq<Value>, f: Value -> Result<Value>): (r: Result<seq<Value>>)
    ensures r.Ok? ==> |r.value| == |xs|
    ensures r.Ok? ==> forall i :: 0 <= i < |xs| ==> f(xs[i]) == Ok(r.value[i])
    ensures r.Ok? <==> forall i :: 0 <= i < |xs| ==> f(xs[i]).Ok?
  {
    if |xs| == 0 then Ok([])
    else
      var init :- MapResult(xs[..|xs| - 1], f);
      var last :- f(xs[|xs| - 1]);
      Ok(init + [last])
  }

  /** `[f(x) for x in v]` over whatever `v` iterates to. */
  function MapOver(v: Value, f: Value -> Result<Value>): (r: Result<Value>)
    ensures r.Ok? ==> r.value.List?
    ensures r.Ok? ==> Iterate(v).Ok? && |r.value.items| == |Iterate(v).value|
    ensures v.List? && (forall i :: 0 <= i < |v.items| ==> f(v.items[i]).Ok?) ==> r.Ok?
  {
    var xs :- Iterate(v);
    var ys :- MapResult(xs, f);
    Ok(List(ys))
  }

  /** `v.append(x)`: only a list has it (AttributeError otherwise). */
  function Append(v: Value, x: Value): (r: Result<Value>)
    ensures r.Ok? <==> v.List?
    ensures v.List? ==> r == Ok(List(v.items + [x]))
  {
    if v.List? then Ok(List(v.items + [x])) else Err(AttributeError)
  }

  /** `[None] * n` */
  function Nulls(n: nat): (r: seq<Value>)
    ensures |r| == n && forall i :: 0 <= i < n ==> r[i] == Null
  {
    seq(n, _ => Null)
  }

  /** Padding by no Nones leaves a list as it was. */
  lemma NullsNone(xs: seq<Value>)
    ensures xs + Nulls(0) == xs
  {
  }

  /** One more None after `n` of them is `n + 1` of them. */
  lemma NullsSnoc(xs: seq<Value>, n: nat)
    ensures xs + Nulls(n) + [Null] == xs + Nulls(n + 1)
  {
    assert Nulls(n) + [Null] == Nulls(n + 1);
  }

  /** `n - 1` Nones and then one more are `n` Nones. */
  lemma NullsStep(xs: seq<Value>, n: nat)
    requires n > 0
    ensures xs + Nulls(n - 1) + Nulls(1) == xs + Nulls(n)
  {
    assert Nulls(n - 1) + Nulls(1) == Nulls(n);
  }

  /** One None appended is one None of padding. */
  lemma NullsOne(xs: seq<Value>)
    ensures xs + [Null] == xs + Nulls(1)
  {
  }

  /** `{'data': items}`, the shape every cleaned output takes. */
  function DataOf(items: seq<Value>): Value {
    Map(DataDict(items))
  }

  /** The dict `{'data': items}`. */
  function DataDict(items: seq<Value>): (r: Dict<Value>)
    ensures r == [("data", List(items))]
  {
    [("data", List(items))]
  }
}
