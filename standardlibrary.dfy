/**
 * The standard library registry and its sequence built-ins: `len`, `get`, `set`, `sum`,
 * `product` and `map`.
 *
 * In the source a registry entry is a closure that receives the argument vector, the
 * variable table, the function table and the library itself. Here an entry is a `Builtin`
 * tag and `Apply` is the closure it stands for. What the library does not define itself --
 * the coercions of `Data` other than the identities, the length of an unsized set, the
 * numeric and I/O built-ins and the evaluation of a user function's body -- comes from a
 * `Host` record fixed for one evaluation.
 */
module Stdlib {
  import opened Outcomes
  import opened Values

  /** The closures `init_std` installs, one tag each. */
  datatype Builtin =
    | Print | Read | Round | Ceil | Floor | Log | Sin | Cos | Tan | Sqrt | Cbrt | Nrt
    | Len | Get | Set | Sum | Product | Map | Graph

  /**
   * The library's name table. `map` looks up the empty name when its arguments hold no
   * function value; no registry the interpreter builds has an entry under that name.
   */
  type Registry = r: map<string, Builtin> | "" !in r witness map[]

  /** Behaviour defined outside the library, fixed for one evaluation. */
  datatype Host = Host(
    toNumber: Data -> Result<real>,        // `Data::to_number` on anything but a number
    toSet: Data -> Result<seq<Data>>,      // `Data::to_set` on anything but a sized set
    unsizedLen: Data -> real,              // `UnsizedSet::len`
    native: (Builtin, seq<Data>) -> Result<Data>, // print, read, graph and the f32 built-ins
    run: (Data, map<string, Data>) -> Result<Data> // `Function::run` with its variable table
  )

  /** The four arguments every closure receives besides its argument vector. */
  datatype Context = Context(
    variables: map<string, Data>,
    functions: map<string, Data>,
    registry: Registry,
    host: Host)

  /** `x[k]` on the argument vector: out of range is an index panic. */
  function Arg(args: seq<Data>, k: nat): (r: Result<Data>)
    ensures r.Ok? <==> k < |args|
    ensures r.Ok? ==> r.value == args[k]
    ensures r.Panic? ==> r.fault == IndexOutOfBounds
  {
    if k < |args| then Ok(args[k]) else Panic(IndexOutOfBounds)
  }

  /** `Data::to_number`: a number is itself. */
  function ToNumber(ctx: Context, x: Data): (r: Result<real>)
    ensures x.Number? ==> r == Ok(x.value)
  {
    if x.Number? then Ok(x.value) else ctx.host.toNumber(x)
  }

  /** `Data::to_set(..).values`: a sized set is its own vector. */
  function ToSet(ctx: Context, x: Data): (r: Result<seq<Data>>)
    ensures x.SizedSet? ==> r == Ok(x.values)
  {
    if x.SizedSet? then Ok(x.values) else ctx.host.toSet(x)
  }

  /** `len`: 1 for a scalar, the element count of a sized set. */
  function LenOp(args: seq<Data>, ctx: Context): (r: Result<Data>)
    ensures r.Ok? <==> |args| > 0
    ensures r.Ok? ==> r.value.Number?
    ensures |args| > 0 && (args[0].Number? || args[0].Bool? || args[0].Function?) ==>
              r == Ok(Number(1.0))
    ensures |args| > 0 && args[0].SizedSet? ==> r == Ok(Number(|args[0].values| as real))
  {
    var x :- Arg(args, 0);
    match x
    case Number(_) => Ok(Number(1.0))
    case Bool(_) => Ok(Number(1.0))
    case Function(_, _) => Ok(Number(1.0))
    case SizedSet(values) => Ok(Number(|values| as real))
    case UnsizedSet(_) => Ok(Number(ctx.host.unsizedLen(x)))
  }

  /** `get(S, i)`: element `i` of `S`, or the `unwrap` panic past the end. */
  function GetOp(args: seq<Data>, ctx: Context): (r: Result<Data>)
    ensures |args| >= 2 && args[0].SizedSet? && args[1].Number? ==>
              var s, i := args[0].values, AsIndex(args[1].value);
              (i < |s| ==> r == Ok(s[i])) && (i >= |s| ==> r == Panic(UnwrapNone))
    ensures |args| < 2 ==> r.Panic?
  {
    var x0 :- Arg(args, 0);
    var s :- ToSet(ctx, x0);
    var x1 :- Arg(args, 1);
    var n :- ToNumber(ctx, x1);
    var i := AsIndex(n);
    if i < |s| then Ok(s[i]) else Panic(UnwrapNone)
  }

  /**
   * `set(S, i, v)`: a copy of `S` with `v` inserted before position `i` (`Vec::insert`,
   * so nothing is overwritten), or the insertion panic when `i` is past the end.
   */
  function SetOp(args: seq<Data>, ctx: Context): (r: Result<Data>)
    ensures |args| >= 3 && args[0].SizedSet? && args[1].Number? ==>
              var s, i := args[0].values, AsIndex(args[1].value);
              (i <= |s| ==> r.Ok? && r.value.SizedSet? && |r.value.values| == |s| + 1 &&
                            r.value.values[i] == args[2] &&
                            r.value.values[..i] == s[..i] && r.value.values[i + 1..] == s[i..]) &&
              (i > |s| ==> r == Panic(InsertPastEnd))
    ensures |args| < 3 ==> r.Panic?
  {
    var x0 :- Arg(args, 0);
    var s :- ToSet(ctx, x0);
    var x1 :- Arg(args, 1);
    var n :- ToNumber(ctx, x1);
    var i := AsIndex(n);
    var v :- Arg(args, 2);
    if i <= |s| then Ok(SizedSet(s[..i] + [v] + s[i..])) else Panic(InsertPastEnd)
  }

  /** The running sum of one set's elements, first to last (exact; f32 rounding is left out). */
  function SetTotal(ctx: Context, elems: seq<Data>): Result<real>
  {
    if elems == [] then Ok(0.0)
    else
      var p :- SetTotal(ctx, elems[..|elems| - 1]);
      var y :- ToNumber(ctx, elems[|elems| - 1]);
      Ok(p + y)
  }

  /** The sum of the per-set sums, argument by argument. */
  function SumOver(ctx: Context, args: seq<Data>): Result<real>
  {
    if args == [] then Ok(0.0)
    else
      var p :- SumOver(ctx, args[..|args| - 1]);
      var s :- ToSet(ctx, args[|args| - 1]);
      var t :- SetTotal(ctx, s);
      Ok(p + t)
  }

  /** `sum`. */
  function SumOp(args: seq<Data>, ctx: Context): Result<Data>
  {
    var t :- SumOver(ctx, args);
    Ok(Number(t))
  }

  /** Multiplication of two numbers (exact; f32 rounding is left out). */
  function Times(a: real, b: real): real {
    a * b
  }

  /** The running product of one set's elements, first to last (exact; f32 rounding is left out). */
  function SetProduct(ctx: Context, elems: seq<Data>): Result<real>
  {
    if elems == [] then Ok(1.0)
    else
      var p :- SetProduct(ctx, elems[..|elems| - 1]);
      var y :- ToNumber(ctx, elems[|elems| - 1]);
      Ok(Times(p, y))
  }

  /** The product of the per-set products, argument by argument. */
  function ProductOver(ctx: Context, args: seq<Data>): Result<real>
  {
    if args == [] then Ok(1.0)
    else
      var p :- ProductOver(ctx, args[..|args| - 1]);
      var s :- ToSet(ctx, args[|args| - 1]);
      var t :- SetProduct(ctx, s);
      Ok(Times(p, t))
  }

  /** `product`. */
  function ProductOp(args: seq<Data>, ctx: Context): Result<Data>
  {
    var t :- ProductOver(ctx, args);
    Ok(Number(t))
  }

  /**
   * How `map` splits its arguments: the arguments before the first function value are
   * the sets, and the name is that function's name, or "" when there is none.
   */
  function SplitArguments(args: seq<Data>): (r: (seq<Data>, string))
    ensures |r.0| <= |args| && r.0 == args[..|r.0|]
    ensures forall k | 0 <= k < |r.0| :: !r.0[k].Function?
    ensures |r.0| < |args| ==> args[|r.0|].Function? && r.1 == args[|r.0|].name
    ensures |r.0| == |args| ==> r.1 == ""
  {
    if args == [] then ([], "")
    else if args[0].Function? then ([], args[0].name)
    else
      var (sets, name) := SplitArguments(args[1..]);
      assert args[1..][..|sets|] == args[1..|sets| + 1];
      ([args[0]] + sets, name)
  }

  /**
   * Binding a user function's parameters in a copy of the variable table, parameter by
   * parameter; a parameter with no set left for it is an index panic.
   */
  function Bind(variables: map<string, Data>, params: seq<string>, sets: seq<Data>)
    : (r: Result<map<string, Data>>)
    ensures r.Ok? <==> |params| <= |sets|
    ensures r.Panic? ==> r.fault == IndexOutOfBounds
  {
    if params == [] then Ok(variables)
    else
      var m :- Bind(variables, params[..|params| - 1], sets);
      var k := |params| - 1;
      if k < |sets| then Ok(m[params[k] := sets[k]]) else Panic(IndexOutOfBounds)
  }

  /**
   * `map`. With a registry name, the named closure is applied to every element of every
   * set, each as a one-element argument vector, and the results form one sized set.
   * Otherwise the name must be in the function table (else the `unwrap` panics) and name
   * a function value, whose parameters are bound to the whole set arguments before its
   * body runs.
   */
  function MapOp(args: seq<Data>, ctx: Context): (r: Result<Data>)
    decreases |args|, 2, 0
  {
    var (sets, name) := SplitArguments(args);
    if name in ctx.registry then
      var out :- MapEach(ctx.registry[name], sets, |args|, ctx);
      Ok(SizedSet(out))
    else if name !in ctx.functions then Panic(UnwrapNone)
    else
      match ctx.functions[name]
      case Function(_, params) =>
        var variables :- Bind(ctx.variables, params, sets);
        ctx.host.run(ctx.functions[name], variables)
      case _ => Panic(Unreachable)
  }

  /**
   * The outer loop of `map`'s registry branch over `sets`. `bound` is the length of the
   * argument vector `map` was called with, which the sets leave room for a function in.
   */
  function MapEach(f: Builtin, sets: seq<Data>, ghost bound: nat, ctx: Context): Result<seq<Data>>
    requires |sets| < bound
    decreases bound, 1, |sets|
  {
    if sets == [] then Ok([])
    else
      var prefix :- MapEach(f, sets[..|sets| - 1], bound, ctx);
      var elems :- ToSet(ctx, sets[|sets| - 1]);
      var out :- MapElements(f, elems, bound, ctx);
      Ok(prefix + out)
  }

  /** The inner loop of `map`'s registry branch over the elements of one set. */
  function MapElements(f: Builtin, elems: seq<Data>, ghost bound: nat, ctx: Context)
    : Result<seq<Data>>
    requires bound >= 2
    decreases bound, 0, |elems|
  {
    if elems == [] then Ok([])
    else
      var prefix :- MapElements(f, elems[..|elems| - 1], bound, ctx);
      var y :- Apply(f, [elems[|elems| - 1]], ctx);
      Ok(prefix + [y])
  }

  /** Calling the closure a registry entry stands for. */
  function Apply(f: Builtin, args: seq<Data>, ctx: Context): Result<Data>
    decreases |args|, 3, 0
  {
    match f
    case Len => LenOp(args, ctx)
    case Get => GetOp(args, ctx)
    case Set => SetOp(args, ctx)
    case Sum => SumOp(args, ctx)
    case Product => ProductOp(args, ctx)
    case Map => MapOp(args, ctx)
    case _ => ctx.host.native(f, args)
  }

  /** The split `SplitArguments` computes is the only one its description allows. */
  lemma SplitUnique(args: seq<Data>, sets: seq<Data>, name: string)
    requires |sets| <= |args| && sets == args[..|sets|]
    requires forall k | 0 <= k < |sets| :: !sets[k].Function?
    requires |sets| < |args| ==> args[|sets|].Function? && name == args[|sets|].name
    requires |sets| == |args| ==> name == ""
    ensures SplitArguments(args) == (sets, name)
  {
    if sets != [] {
      assert sets[0] == args[0];
      assert sets[1..] == args[1..][..|sets| - 1];
      SplitUnique(args[1..], sets[1..], name);
    }
  }

  /** Once a prefix of the sets has panicked, the outer loop ends in that panic. */
  lemma {:induction false} MapEachStops(f: Builtin, sets: seq<Data>, k: nat, bound: nat, ctx: Context)
    requires k <= |sets| < bound
    requires MapEach(f, sets[..k], bound, ctx).Panic?
    ensures MapEach(f, sets, bound, ctx) == MapEach(f, sets[..k], bound, ctx)
    decreases |sets|
  {
    if k < |sets| {
      var shorter := sets[..|sets| - 1];
      assert shorter[..k] == sets[..k];
      MapEachStops(f, shorter, k, bound, ctx);
    } else {
      assert sets[..k] == sets;
    }
  }

  /** Once a prefix of the elements has panicked, the inner loop ends in that panic. */
  lemma {:induction false} MapElementsStops(f: Builtin, elems: seq<Data>, k: nat, bound: nat, ctx: Context)
    requires k <= |elems| && bound >= 2
    requires MapElements(f, elems[..k], bound, ctx).Panic?
    ensures MapElements(f, elems, bound, ctx) == MapElements(f, elems[..k], bound, ctx)
    decreases |elems|
  {
    if k < |elems| {
      var shorter := elems[..|elems| - 1];
      assert shorter[..k] == elems[..k];
      MapElementsStops(f, shorter, k, bound, ctx);
    } else {
      assert elems[..k] == elems;
    }
  }

  /** One more element: its result is appended, or its panic ends the inner loop. */
  lemma MapElementsStep(f: Builtin, elems: seq<Data>, i: nat, bound: nat, ctx: Context, out: seq<Data>)
    requires i < |elems| && bound >= 2
    requires MapElements(f, elems[..i], bound, ctx) == Ok(out)
    ensures MapElements(f, elems[..i + 1], bound, ctx)
      == (var y :- Apply(f, [elems[i]], ctx); Ok(out + [y]))
  {
    assert elems[..i + 1][..i] == elems[..i] && elems[..i + 1][i] == elems[i];
  }

  /** One more set: its elements' results are appended, or a panic ends the outer loop. */
  lemma MapEachStep(f: Builtin, sets: seq<Data>, j: nat, bound: nat, ctx: Context, out: seq<Data>)
    requires j < |sets| < bound
    requires MapEach(f, sets[..j], bound, ctx) == Ok(out)
    ensures MapEach(f, sets[..j + 1], bound, ctx)
      == (var elems :- ToSet(ctx, sets[j]); var part :- MapElements(f, elems, bound, ctx); Ok(out + part))
  {
    assert sets[..j + 1][..j] == sets[..j] && sets[..j + 1][j] == sets[j];
  }

  /** The inner loop of `map`'s registry branch: one call of `f` per element, in order. */
  method ApplyToElements(f: Builtin, elems: seq<Data>, ghost bound: nat, ctx: Context)
    returns (r: Result<seq<Data>>)
    requires bound >= 2
    ensures r == MapElements(f, elems, bound, ctx)
  {
    var out: seq<Data> := [];
    var i := 0;
    while i < |elems|
      invariant i <= |elems|
      invariant MapElements(f, elems[..i], bound, ctx) == Ok(out)
    {
      MapElementsStep(f, elems, i, bound, ctx, out);
      var y := Apply(f, [elems[i]], ctx);
      if y.Panic? {
        MapElementsStops(f, elems, i + 1, bound, ctx);
        return Panic(y.fault);
      }
      out := out + [y.value];
      i := i + 1;
    }
    assert elems[..|elems|] == elems;
    return Ok(out);
  }

  /** The outer loop of `map`'s registry branch: set by set, each coerced to its vector. */
  method ApplyToSets(f: Builtin, sets: seq<Data>, ghost bound: nat, ctx: Context)
    returns (r: Result<seq<Data>>)
    requires |sets| < bound
    ensures r == MapEach(f, sets, bound, ctx)
  {
    var out: seq<Data> := [];
    var j := 0;
    while j < |sets|
      invariant j <= |sets|
      invariant MapEach(f, sets[..j], bound, ctx) == Ok(out)
    {
      MapEachStep(f, sets, j, bound, ctx, out);
      var elems := ToSet(ctx, sets[j]);
      if elems.Panic? {
        MapEachStops(f, sets, j + 1, bound, ctx);
        return Panic(elems.fault);
      }
      var part := ApplyToElements(f, elems.value, bound, ctx);
      if part.Panic? {
        MapEachStops(f, sets, j + 1, bound, ctx);
        return Panic(part.fault);
      }
      out := out + part.value;
      j := j + 1;
    }
    assert sets[..|sets|] == sets;
    return Ok(out);
  }

  /** The binding loop of `map`'s user-function branch, on a copy of the variable table. */
  method BindParameters(variables: map<string, Data>, params: seq<string>, sets: seq<Data>)
    returns (r: Result<map<string, Data>>)
    ensures r == Bind(variables, params, sets)
  {
    var extended := variables;
    for i := 0 to |params|
      invariant Bind(variables, params[..i], sets) == Ok(extended)
    {
      assert params[..i + 1][..i] == params[..i];
      if i >= |sets| {
        return Panic(IndexOutOfBounds);
      }
      extended := extended[params[i] := sets[i]];
    }
    assert params[..|params|] == params;
    return Ok(extended);
  }

  /**
   * The `map` closure as the source runs it: the loop that collects the set arguments up
   * to the first function value, then the registry branch's nested loops or the user
   * function branch's binding loop.
   */
  method MapClosure(args: seq<Data>, ctx: Context) returns (r: Result<Data>)
    ensures r == MapOp(args, ctx)
  {
    var sets: seq<Data> := [];
    var name := "";
    var k := 0;
    while k < |args|
      invariant k <= |args| && sets == args[..k]
      invariant forall j | 0 <= j < k :: !args[j].Function?
      invariant name == ""
    {
      if args[k].Function? {
        name := args[k].name;
        break;
      }
      sets := sets + [args[k]];
      k := k + 1;
    }
    SplitUnique(args, sets, name);
    if name in ctx.registry {
      var out :- ApplyToSets(ctx.registry[name], sets, |args|, ctx);
      return Ok(SizedSet(out));
    } else if name !in ctx.functions {
      return Panic(UnwrapNone);
    }
    var g := ctx.functions[name];
    if !g.Function? {
      return Panic(Unreachable);
    }
    var variables :- BindParameters(ctx.variables, g.params, sets);
    r := ctx.host.run(g, variables);
  }

  /**
   * The `set` closure as the source runs it: the argument's vector is cloned and the
   * value is inserted into the clone in place.
   */
  method SetClosure(args: seq<Data>, ctx: Context) returns (r: Result<Data>)
    ensures r == SetOp(args, ctx)
  {
    var x0 :- Arg(args, 0);
    var s :- ToSet(ctx, x0);
    var x1 :- Arg(args, 1);
    var n :- ToNumber(ctx, x1);
    var i := AsIndex(n);
    var v :- Arg(args, 2);
    if i > |s| {
      return Panic(InsertPastEnd);
    }
    var t := Insert(s, i, v);
    return Ok(SizedSet(t));
  }

  /**
   * `Vec::insert` within its bounds: the vector grows by one slot, the elements from
   * `i` on move up one place, last first, and `v` goes into the freed slot `i`.
   */
  method Insert(s: seq<Data>, i: nat, v: Data) returns (t: seq<Data>)
    requires i <= |s|
    ensures t == s[..i] + [v] + s[i..]
  {
    var a := new Data[|s| + 1]((k: int) => if 0 <= k < |s| then s[k] else v);
    var k := |s|;
    while k > i
      invariant i <= k <= |s|
      invariant a[..k] == s[..k] && a[k + 1..] == s[k..]
    {
      a[k] := a[k - 1];
      k := k - 1;
    }
    a[i] := v;
    assert a[..] == a[..i] + [a[i]] + a[i + 1..];
    t := a[..];
  }
}
