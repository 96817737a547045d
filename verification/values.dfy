/** JavaScript values as the bot's code sees them: JSON returned by the language
    model, rows returned by the venue and event tables, and the preference
    record kept per user. Numbers are integers (no floating point). */
module Values {

  datatype Value = Null | Bool(b: bool) | Num(n: int) | Str(s: string) | Arr(items: seq<Value>)

  /** A JSON object; a key that is absent is JavaScript's `undefined`. */
  type Object = map<string, Value>

  /** What a JavaScript expression does: produce a value or throw. */
  datatype Outcome<T> = Ok(value: T) | Throw

  datatype Option<T> = None | Some(value: T)

  /** The answer of a table to one query: `{ data }` or `{ error }`. */
  datatype Query<T> = Rows(rows: seq<T>) | QueryError

  /** Reading a property: `Some(v)` when the key is present, `None` for `undefined`. */
  function Get(o: Object, key: string): (r: Option<Value>)
    ensures r.Some? <==> key in o
    ensures r.Some? ==> r.value == o[key]
  {
    if key in o then Some(o[key]) else None
  }

  /** JavaScript truthiness; `undefined` (None) is falsy. */
  predicate Truthy(v: Option<Value>) {
    match v
    case None => false
    case Some(Null) => false
    case Some(Bool(b)) => b
    case Some(Num(n)) => n != 0
    case Some(Str(s)) => s != ""
    case Some(Arr(_)) => true
  }

  /** `v || fallback` with a string fallback, as a value. */
  function OrElse(v: Option<Value>, fallback: string): (r: Value)
    ensures Truthy(v) ==> r == v.value
    ensures !Truthy(v) ==> r == Str(fallback)
  {
    if Truthy(v) then v.value else Str(fallback)
  }

  /** `x.length` tested for truthiness: `Throw` when `x` is `undefined` or
      `null` (a TypeError), otherwise whether the length is non-zero; a
      boolean or a number has no `length`, which reads as `undefined`. */
  function HasLength(v: Option<Value>): (r: Outcome<bool>)
    ensures r.Throw? <==> (v.None? || v.value.Null?)
    ensures r.Ok? && r.value ==> v.value.Str? || v.value.Arr?
    ensures v.Some? && v.value.Arr? ==> r == Ok(v.value.items != [])
    ensures v.Some? && v.value.Str? ==> r == Ok(v.value.s != "")
  {
    match v
    case None => Throw
    case Some(Null) => Throw
    case Some(Str(s)) => Ok(s != "")
    case Some(Arr(xs)) => Ok(xs != [])
    case Some(_) => Ok(false)
  }

  /** Decimal text of a natural number. */
  function NatText(n: nat): (r: string)
    ensures r != []
    decreases n
  {
    var d := ['0' + (n % 10) as char];
    if n < 10 then d else NatText(n / 10) + d
  }

  /** `String(v)`, as a template literal `${v}` renders it. */
  function Render(v: Option<Value>): string {
    match v
    case None => "undefined"
    case Some(x) => RenderValue(x)
  }

  function RenderValue(v: Value): string
    decreases v, 1
  {
    match v
    case Null => "null"
    case Bool(b) => if b then "true" else "false"
    case Num(n) => if n < 0 then "-" + NatText(-n) else NatText(n)
    case Str(s) => s
    case Arr(xs) => JoinItems(v, xs)
  }

  /** An array renders as its elements joined by commas, with `null` shown empty. */
  function JoinItems(parent: Value, xs: seq<Value>): string
    requires parent.Arr? && forall x | x in xs :: x < parent
    decreases parent, 0, |xs|
  {
    if xs == [] then ""
    else
      assert xs[0] in xs;
      var head := if xs[0].Null? then "" else RenderValue(xs[0]);
      if |xs| == 1 then head
      else
        assert forall x | x in xs[1..] :: x in xs;
        head + "," + JoinItems(parent, xs[1..])
  }

  /** `${v || fallback}` */
  function RenderOr(v: Option<Value>, fallback: string): (r: string)
    ensures !Truthy(v) ==> r == fallback
    ensures Truthy(v) && v.value.Str? ==> r == v.value.s
  {
    Render(Some(OrElse(v, fallback)))
  }

  /** The text built by `forEach(x => text += block(x))`: one block per
      element, in order. */
  function Blocks<T>(xs: seq<T>, block: T -> string): string {
    if xs == [] then "" else Blocks(xs[..|xs| - 1], block) + block(xs[|xs| - 1])
  }

  /** The blocks of a concatenation are the blocks of its parts. */
  lemma {:induction false} BlocksAppend<T>(a: seq<T>, b: seq<T>, block: T -> string)
    ensures Blocks(a + b, block) == Blocks(a, block) + Blocks(b, block)
    decreases |b|
  {
    if b == [] {
      assert a + b == a;
    } else {
      var b' := b[..|b| - 1];
      assert (a + b)[..|a + b| - 1] == a + b';
      assert (a + b)[|a + b| - 1] == b[|b| - 1];
      BlocksAppend(a, b', block);
    }
  }

  /** Adding one element adds its block at the end. */
  lemma BlocksStep<T>(xs: seq<T>, i: nat, block: T -> string)
    requires i < |xs|
    ensures Blocks(xs[..i + 1], block) == Blocks(xs[..i], block) + block(xs[i])
  {
    assert xs[..i + 1][..i] == xs[..i];
  }

  /** The `forEach(x => text += block(x))` loop that builds a reply after its header. */
  method AppendBlocks<T>(header: string, xs: seq<T>, block: T -> string) returns (text: string)
    ensures text == header + Blocks(xs, block)
  {
    text := header;
    for i := 0 to |xs|
      invariant text == header + Blocks(xs[..i], block)
    {
      BlocksStep(xs, i, block);
      text := text + block(xs[i]);
    }
    assert xs[..|xs|] == xs;
  }
}
