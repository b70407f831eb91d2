/**
 * What the sequence built-ins promise, stated against reference definitions that are
 * independent of the way the closures compute.
 */
module StdlibProperties {
  import opened Outcomes
  import opened Values
  import opened Stdlib

  // ---------------------------------------------------------------- reference definitions

  predicate AllNumbers(xs: seq<Data>)
  {
    forall k | 0 <= k < |xs| :: xs[k].Number?
  }

  predicate AllSized(sets: seq<Data>)
  {
    forall k | 0 <= k < |sets| :: sets[k].SizedSet?
  }

  /** Sized sets of numbers only. */
  predicate NumberSets(sets: seq<Data>)
  {
    AllSized(sets) && forall k | 0 <= k < |sets| :: AllNumbers(sets[k].values)
  }

  /** The sum of the set lengths. */
  function SizeSum(sets: seq<Data>): nat
    requires AllSized(sets)
  {
    if sets == [] then 0 else |sets[0].values| + SizeSum(sets[1..])
  }

  /** The elements of the sets, set by set and in order within each set. */
  function Flatten(sets: seq<Data>): (r: seq<Data>)
    requires AllSized(sets)
    ensures |r| == SizeSum(sets)
    ensures NumberSets(sets) ==> AllNumbers(r)
  {
    if sets == [] then [] else sets[0].values + Flatten(sets[1..])
  }

  /** Plain sum of numbers, first element first. */
  function Total(xs: seq<Data>): real
    requires AllNumbers(xs)
  {
    if xs == [] then 0.0 else xs[0].value + Total(xs[1..])
  }

  /** Plain product of numbers, first element first. */
  function Prod(xs: seq<Data>): real
    requires AllNumbers(xs)
  {
    if xs == [] then 1.0 else Times(xs[0].value, Prod(xs[1..]))
  }

  /** `f` applied to every element on its own, in order. */
  function Results(f: Builtin, elems: seq<Data>, ctx: Context): (r: seq<Data>)
    requires forall k | 0 <= k < |elems| :: Apply(f, [elems[k]], ctx).Ok?
    ensures |r| == |elems|
  {
    seq(|elems|, k requires 0 <= k < |elems| => Apply(f, [elems[k]], ctx).value)
  }

  // ---------------------------------------------------------------- len, get and set

  /** `get(set(S, i, v), i) == v` and `len(set(S, i, v)) == len(S) + 1`. */
  lemma GetAfterSet(s: seq<Data>, i: nat, v: Data, ctx: Context)
    requires i <= |s| < UsizeMax
    ensures var t := SetOp([SizedSet(s), Number(i as real), v], ctx);
      && t.Ok? && t.value.SizedSet?
      && GetOp([t.value, Number(i as real)], ctx) == Ok(v)
      && LenOp([t.value], ctx) == Ok(Number((|s| + 1) as real))
      && LenOp([SizedSet(s)], ctx) == Ok(Number(|s| as real))
  {
    WholeIndex(i);
  }

  /**
   * Reading `set(S, i, v)` anywhere but at `i`: before `i` it reads as `S`, after `i` as
   * `S` one position earlier.
   */
  lemma GetAfterSetElsewhere(s: seq<Data>, i: nat, v: Data, j: nat, ctx: Context)
    requires i <= |s| < UsizeMax && j <= |s| && j != i
    ensures var t := SetOp([SizedSet(s), Number(i as real), v], ctx);
      && t.Ok?
      && (j < i ==> GetOp([t.value, Number(j as real)], ctx) == GetOp([SizedSet(s), Number(j as real)], ctx))
      && (j > i ==> GetOp([t.value, Number(j as real)], ctx) ==
                    GetOp([SizedSet(s), Number((j - 1) as real)], ctx))
  {
    WholeIndex(i);
    WholeIndex(j);
    var t := SetOp([SizedSet(s), Number(i as real), v], ctx);
    if j < i {
      assert t.value.values[..i][j] == s[..i][j];
    } else {
      WholeIndex(j - 1);
      assert t.value.values[i + 1..][j - 1 - i] == s[i..][j - 1 - i];
    }
  }

  /** `set` leaves the argument's elements in place around the new one: removing it gives `S`. */
  lemma SetThenRemove(s: seq<Data>, i: nat, v: Data, ctx: Context)
    requires i <= |s| < UsizeMax
    ensures var t := SetOp([SizedSet(s), Number(i as real), v], ctx);
      t.Ok? && t.value.values[..i] + t.value.values[i + 1..] == s
  {
    WholeIndex(i);
    var t := SetOp([SizedSet(s), Number(i as real), v], ctx);
    assert t.value.values[..i] + t.value.values[i + 1..] == s[..i] + s[i..];
    assert s[..i] + s[i..] == s;
  }

  /** `get` on an index: in range it is the element, from the length on it panics. */
  lemma GetByIndex(s: seq<Data>, j: nat, ctx: Context)
    requires j <= UsizeMax
    ensures j < |s| ==> GetOp([SizedSet(s), Number(j as real)], ctx) == Ok(s[j])
    ensures j >= |s| ==> GetOp([SizedSet(s), Number(j as real)], ctx) == Panic(UnwrapNone)
  {
    WholeIndex(j);
  }

  // ---------------------------------------------------------------- sum and product

  lemma {:induction false} TotalAppend(xs: seq<Data>, ys: seq<Data>)
    requires AllNumbers(xs) && AllNumbers(ys)
    ensures AllNumbers(xs + ys) && Total(xs + ys) == Total(xs) + Total(ys)
  {
    if xs != [] {
      assert (xs + ys)[1..] == xs[1..] + ys;
      TotalAppend(xs[1..], ys);
    } else {
      assert xs + ys == ys;
    }
  }

  lemma {:induction false} ProdAppend(xs: seq<Data>, ys: seq<Data>)
    requires AllNumbers(xs) && AllNumbers(ys)
    ensures AllNumbers(xs + ys) && Prod(xs + ys) == Times(Prod(xs), Prod(ys))
  {
    if xs != [] {
      assert (xs + ys)[1..] == xs[1..] + ys;
      ProdAppend(xs[1..], ys);
      TimesAssociative(xs[0].value, Prod(xs[1..]), Prod(ys));
    } else {
      assert xs + ys == ys;
    }
  }

  lemma {:induction false} FlattenAppend(sets: seq<Data>, x: Data)
    requires AllSized(sets) && x.SizedSet?
    ensures AllSized(sets + [x]) && Flatten(sets + [x]) == Flatten(sets) + x.values
  {
    if sets == [] {
      assert [x][1..] == [];
    } else {
      assert (sets + [x])[1..] == sets[1..] + [x];
      FlattenAppend(sets[1..], x);
    }
  }

  /** One set's running sum is the plain sum of its numbers. */
  lemma {:induction false} SetTotalIsTotal(ctx: Context, xs: seq<Data>)
    requires AllNumbers(xs)
    ensures SetTotal(ctx, xs) == Ok(Total(xs))
  {
    if xs != [] {
      var init := xs[..|xs| - 1];
      SetTotalIsTotal(ctx, init);
      TotalAppend(init, [xs[|xs| - 1]]);
      assert init + [xs[|xs| - 1]] == xs;
    }
  }

  /** One set's running product is the plain product of its numbers. */
  lemma {:induction false} SetProductIsProd(ctx: Context, xs: seq<Data>)
    requires AllNumbers(xs)
    ensures SetProduct(ctx, xs) == Ok(Prod(xs))
  {
    if xs != [] {
      var init, y := xs[..|xs| - 1], xs[|xs| - 1];
      SetProductIsProd(ctx, init);
      assert [y][1..] == [];
      assert Prod([y]) == y.value;
      ProdAppend(init, [y]);
      assert init + [y] == xs;
    }
  }

  /** `sum` over sets of numbers is the plain sum of all their elements together. */
  lemma {:induction false} SumIsTotal(args: seq<Data>, ctx: Context)
    requires NumberSets(args)
    ensures SumOp(args, ctx) == Ok(Number(Total(Flatten(args))))
  {
    SumOverIsTotal(args, ctx);
  }

  lemma {:induction false} SumOverIsTotal(args: seq<Data>, ctx: Context)
    requires NumberSets(args)
    ensures SumOver(ctx, args) == Ok(Total(Flatten(args)))
  {
    if args != [] {
      var init, last := args[..|args| - 1], args[|args| - 1];
      assert init + [last] == args;
      assert NumberSets(init) && AllNumbers(last.values);
      SumOverIsTotal(init, ctx);
      SetTotalIsTotal(ctx, last.values);
      SumOverStep(ctx, init, last, Total(Flatten(init)), Total(last.values));
      FlattenAppend(init, last);
      TotalAppend(Flatten(init), last.values);
    }
  }

  /** One more set adds its running sum to the running sum so far. */
  lemma SumOverStep(ctx: Context, init: seq<Data>, last: Data, p: real, t: real)
    requires SumOver(ctx, init) == Ok(p) && last.SizedSet? && SetTotal(ctx, last.values) == Ok(t)
    ensures SumOver(ctx, init + [last]) == Ok(p + t)
  {
    var args := init + [last];
    assert args[..|args| - 1] == init && args[|args| - 1] == last;
  }

  /** `product` over sets of numbers is the plain product of all their elements together. */
  lemma {:induction false} ProductIsProd(args: seq<Data>, ctx: Context)
    requires NumberSets(args)
    ensures ProductOp(args, ctx) == Ok(Number(Prod(Flatten(args))))
  {
    ProductOverIsProd(args, ctx);
  }

  lemma {:induction false} ProductOverIsProd(args: seq<Data>, ctx: Context)
    requires NumberSets(args)
    ensures ProductOver(ctx, args) == Ok(Prod(Flatten(args)))
  {
    if args != [] {
      var init, last := args[..|args| - 1], args[|args| - 1];
      assert init + [last] == args;
      assert NumberSets(init) && AllNumbers(last.values);
      ProductOverIsProd(init, ctx);
      SetProductIsProd(ctx, last.values);
      FlattenAppend(init, last);
      ProdAppend(Flatten(init), last.values);
      ProductOverStep(ctx, init, last, Prod(Flatten(init)), Prod(last.values));
    }
  }

  /** One more set multiplies the running product so far by its own running product. */
  lemma ProductOverStep(ctx: Context, init: seq<Data>, last: Data, p: real, t: real)
    requires ProductOver(ctx, init) == Ok(p) && last.SizedSet? && SetProduct(ctx, last.values) == Ok(t)
    ensures ProductOver(ctx, init + [last]) == Ok(Times(p, t))
  {
    var args := init + [last];
    assert args[..|args| - 1] == init && args[|args| - 1] == last;
  }

  lemma TimesAssociative(a: real, b: real, c: real)
    ensures Times(a, Times(b, c)) == Times(Times(a, b), c)
  {
  }

  /** An empty set adds nothing to a sum and multiplies a product by one. */
  lemma EmptySetIsNeutral(args: seq<Data>, ctx: Context)
    ensures SumOp(args + [SizedSet([])], ctx) == SumOp(args, ctx)
    ensures ProductOp(args + [SizedSet([])], ctx) == ProductOp(args, ctx)
  {
    assert (args + [SizedSet([])])[..|args|] == args;
  }

  /** sum({2, 3}, {5}) is 10 and product({2, 3}, {5}) is 30. */
  lemma SumAndProductExample(ctx: Context)
    ensures SumOp([SizedSet([Number(2.0), Number(3.0)]), SizedSet([Number(5.0)])], ctx)
            == Ok(Number(10.0))
    ensures ProductOp([SizedSet([Number(2.0), Number(3.0)]), SizedSet([Number(5.0)])], ctx)
            == Ok(Number(30.0))
  {
    var args := [SizedSet([Number(2.0), Number(3.0)]), SizedSet([Number(5.0)])];
    var xs := [Number(2.0), Number(3.0), Number(5.0)];
    assert args[1..][1..] == [];
    assert Flatten(args) == xs;
    assert xs[1..][1..] == [Number(5.0)] && xs[1..][1..][1..] == [];
    assert Total(xs) == 10.0 && Prod(xs) == 30.0;
    SumIsTotal(args, ctx);
    ProductIsProd(args, ctx);
  }

  // ---------------------------------------------------------------- map

  lemma {:induction false} ResultsAppend(f: Builtin, xs: seq<Data>, ys: seq<Data>, ctx: Context)
    requires forall k | 0 <= k < |xs + ys| :: Apply(f, [(xs + ys)[k]], ctx).Ok?
    ensures forall k | 0 <= k < |xs| :: Apply(f, [xs[k]], ctx).Ok?
    ensures forall k | 0 <= k < |ys| :: Apply(f, [ys[k]], ctx).Ok?
    ensures Results(f, xs + ys, ctx) == Results(f, xs, ctx) + Results(f, ys, ctx)
  {
    forall k | 0 <= k < |xs| ensures Apply(f, [xs[k]], ctx).Ok? {
      assert (xs + ys)[k] == xs[k];
    }
    forall k | 0 <= k < |ys| ensures Apply(f, [ys[k]], ctx).Ok? {
      assert (xs + ys)[|xs| + k] == ys[k];
    }
  }

  /** The inner loop of the registry branch yields `f` of every element, in order. */
  lemma {:induction false} MapElementsResults(f: Builtin, elems: seq<Data>, bound: nat, ctx: Context)
    requires bound >= 2
    requires forall k | 0 <= k < |elems| :: Apply(f, [elems[k]], ctx).Ok?
    ensures MapElements(f, elems, bound, ctx) == Ok(Results(f, elems, ctx))
  {
    if elems != [] {
      var n := |elems| - 1;
      var init := elems[..n];
      assert forall k | 0 <= k < |init| :: init[k] == elems[k];
      MapElementsResults(f, init, bound, ctx);
      MapElementsStep(f, elems, n, bound, ctx, Results(f, init, ctx));
      assert elems[..n + 1] == elems && init + [elems[n]] == elems;
      ResultsAppend(f, init, [elems[n]], ctx);
      assert Results(f, [elems[n]], ctx) == [Apply(f, [elems[n]], ctx).value];
    }
  }

  /** The outer loop of the registry branch yields `f` of every element of every set, in order. */
  lemma {:induction false} MapEachResults(f: Builtin, sets: seq<Data>, bound: nat, ctx: Context)
    requires |sets| < bound && AllSized(sets)
    requires forall k | 0 <= k < |Flatten(sets)| :: Apply(f, [Flatten(sets)[k]], ctx).Ok?
    ensures MapEach(f, sets, bound, ctx) == Ok(Results(f, Flatten(sets), ctx))
  {
    if sets != [] {
      var n := |sets| - 1;
      var init, last := sets[..n], sets[n];
      FlattenAppend(init, last);
      assert init + [last] == sets;
      var a, b := Flatten(init), last.values;
      assert Flatten(sets) == a + b;
      ResultsAppend(f, a, b, ctx);
      MapEachResults(f, init, bound, ctx);
      MapElementsResults(f, b, bound, ctx);
      MapEachStep(f, sets, n, bound, ctx, Results(f, a, ctx));
      assert sets[..n + 1] == sets;
    }
  }

  /**
   * `map` with a registry name: a sized set of `f` applied to each element of each set
   * argument on its own, set by set and element by element, as long as the sets.
   */
  lemma MapWithBuiltin(args: seq<Data>, k: nat, ctx: Context)
    requires k < |args| && args[k].Function? && args[k].name in ctx.registry
    requires forall j | 0 <= j < k :: !args[j].Function?
    requires AllSized(args[..k])
    requires forall e | 0 <= e < |Flatten(args[..k])| ::
               Apply(ctx.registry[args[k].name], [Flatten(args[..k])[e]], ctx).Ok?
    ensures var out := Results(ctx.registry[args[k].name], Flatten(args[..k]), ctx);
      MapOp(args, ctx) == Ok(SizedSet(out)) && |out| == SizeSum(args[..k])
  {
    SplitUnique(args, args[..k], args[k].name);
    MapEachResults(ctx.registry[args[k].name], args[..k], |args|, ctx);
  }

  /** map({1, 2, 3}, len) is {1, 1, 1}. */
  lemma MapLenExample(ctx: Context)
    requires "len" in ctx.registry && ctx.registry["len"] == Len
    ensures MapOp([SizedSet([Number(1.0), Number(2.0), Number(3.0)]), Function("len", [])], ctx)
            == Ok(SizedSet([Number(1.0), Number(1.0), Number(1.0)]))
  {
    var args := [SizedSet([Number(1.0), Number(2.0), Number(3.0)]), Function("len", [])];
    assert args[..1] == [args[0]];
    var elems := [Number(1.0), Number(2.0), Number(3.0)];
    assert Flatten(args[..1]) == elems;
    assert forall e | 0 <= e < 3 :: Apply(Len, [elems[e]], ctx) == Ok(Number(1.0));
    MapWithBuiltin(args, 1, ctx);
    assert Results(Len, elems, ctx) == [Number(1.0), Number(1.0), Number(1.0)];
  }

  lemma {:induction false} MapElementsAnyBound(f: Builtin, elems: seq<Data>, b1: nat, b2: nat, ctx: Context)
    requires b1 >= 2 && b2 >= 2
    ensures MapElements(f, elems, b1, ctx) == MapElements(f, elems, b2, ctx)
  {
    if elems != [] {
      MapElementsAnyBound(f, elems[..|elems| - 1], b1, b2, ctx);
    }
  }

  lemma {:induction false} MapEachAnyBound(f: Builtin, sets: seq<Data>, b1: nat, b2: nat, ctx: Context)
    requires |sets| < b1 && |sets| < b2
    ensures MapEach(f, sets, b1, ctx) == MapEach(f, sets, b2, ctx)
  {
    if sets != [] {
      MapEachAnyBound(f, sets[..|sets| - 1], b1, b2, ctx);
      var elems := ToSet(ctx, sets[|sets| - 1]);
      if elems.Ok? {
        MapElementsAnyBound(f, elems.value, b1, b2, ctx);
      }
    }
  }

  /** Everything after the first function value is ignored by `map`. */
  lemma MapIgnoresRest(args: seq<Data>, k: nat, ctx: Context)
    requires k < |args| && args[k].Function?
    requires forall j | 0 <= j < k :: !args[j].Function?
    ensures MapOp(args, ctx) == MapOp(args[..k + 1], ctx)
  {
    var name := args[k].name;
    SplitUnique(args, args[..k], name);
    assert args[..k + 1][..k] == args[..k];
    SplitUnique(args[..k + 1], args[..k], name);
    if name in ctx.registry {
      MapEachAnyBound(ctx.registry[name], args[..k], |args|, k + 1, ctx);
    }
  }

  /**
   * `map` without any function value looks up the empty name, which no registry holds,
   * and the function-table `unwrap` panics.
   */
  lemma MapWithoutFunction(args: seq<Data>, ctx: Context)
    requires forall j | 0 <= j < |args| :: !args[j].Function?
    requires "" !in ctx.functions
    ensures MapOp(args, ctx) == Panic(UnwrapNone)
  {
    SplitUnique(args, args, "");
  }

  /** Binding adds exactly the parameter names to the variable table. */
  lemma {:induction false} BindKeys(variables: map<string, Data>, params: seq<string>, sets: seq<Data>)
    requires |params| <= |sets|
    ensures Bind(variables, params, sets).Ok?
    ensures Bind(variables, params, sets).value.Keys == variables.Keys + set x | x in params
  {
    if params != [] {
      var init := params[..|params| - 1];
      BindKeys(variables, init, sets);
      assert params == init + [params[|params| - 1]];
    }
  }

  /** A parameter, at its last occurrence, is bound to the whole set in its position. */
  lemma {:induction false} BindParameter(variables: map<string, Data>, params: seq<string>, sets: seq<Data>, j: nat)
    requires |params| <= |sets| && j < |params| && params[j] !in params[j + 1..]
    ensures Bind(variables, params, sets).Ok?
    ensures var m := Bind(variables, params, sets).value;
      params[j] in m && m[params[j]] == sets[j]
  {
    var n := |params| - 1;
    if j < n {
      var init := params[..n];
      assert params[n] in params[j + 1..];
      assert init[j] == params[j] && init[j + 1..] == params[j + 1..n];
      BindParameter(variables, init, sets, j);
    }
  }

  /** A variable that is not a parameter keeps its value. */
  lemma {:induction false} BindOther(variables: map<string, Data>, params: seq<string>, sets: seq<Data>, x: string)
    requires |params| <= |sets| && x !in params && x in variables
    ensures Bind(variables, params, sets).Ok?
    ensures var m := Bind(variables, params, sets).value;
      x in m && m[x] == variables[x]
  {
    if params != [] {
      var init := params[..|params| - 1];
      assert x !in init by {
        assert forall k | 0 <= k < |init| :: init[k] == params[k];
      }
      BindOther(variables, init, sets, x);
    }
  }

  /**
   * `map` with a user function runs it once on the variable table extended by the
   * binding; with fewer set arguments than parameters the binding panics.
   */
  lemma MapWithUserFunction(args: seq<Data>, k: nat, ctx: Context)
    requires k < |args| && args[k].Function?
    requires forall j | 0 <= j < k :: !args[j].Function?
    requires var name := args[k].name;
      name !in ctx.registry && name in ctx.functions && ctx.functions[name].Function?
    ensures var g := ctx.functions[args[k].name];
      var b := Bind(ctx.variables, g.params, args[..k]);
      && (|g.params| > k ==> MapOp(args, ctx) == Panic(IndexOutOfBounds))
      && (|g.params| <= k ==> b.Ok? && MapOp(args, ctx) == ctx.host.run(g, b.value))
  {
    SplitUnique(args, args[..k], args[k].name);
  }

  /**
   * The table a user function runs on binds parameter `j` (at its last occurrence) to the
   * whole `j`-th set argument, not to one of its elements.
   */
  lemma MapBindsWholeSets(args: seq<Data>, k: nat, ctx: Context, j: nat)
    requires k < |args| && args[k].Function?
    requires var name := args[k].name; name in ctx.functions && ctx.functions[name].Function?
    requires var params := ctx.functions[args[k].name].params;
      |params| <= k && j < |params| && params[j] !in params[j + 1..]
    ensures var params := ctx.functions[args[k].name].params;
      var b := Bind(ctx.variables, params, args[..k]);
      b.Ok? && params[j] in b.value && b.value[params[j]] == args[j]
  {
    BindParameter(ctx.variables, ctx.functions[args[k].name].params, args[..k], j);
  }

  /** A name in the function table that does not hold a function value is unreachable code. */
  lemma MapWithNonFunction(args: seq<Data>, k: nat, ctx: Context)
    requires k < |args| && args[k].Function?
    requires forall j | 0 <= j < k :: !args[j].Function?
    requires var name := args[k].name;
      name !in ctx.registry && name in ctx.functions && !ctx.functions[name].Function?
    ensures MapOp(args, ctx) == Panic(Unreachable)
  {
    SplitUnique(args, args[..k], args[k].name);
  }
}
