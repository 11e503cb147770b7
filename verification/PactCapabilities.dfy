/** Which capabilities a requirement sees: those of the with-capability forms on the way to it, through
    bindings, branches and calls, and no others. */
module PactCapabilities {
  import opened Ints
  import opened Wrappers
  import opened Gas
  import opened PactSyntax
  import opened PactSemantics
  import opened PactProperties

  /** One form on the way from an expression to a part of it. The body of a function is a part of its call. */
  datatype Layer =
    | InBody(cap: string, args: seq<Expr>)
    | InLet(name: string, val: Expr)
    | InBranch(cond: Expr, other: Expr, taken: bool)
    | InCall(func: string, args: seq<Expr>)

  /** Where a part is evaluated, and the frames entered on the way. */
  datatype Place = Place(sc: Scope, st: Store, frames: seq<Cap>)

  function Wrap(layer: Layer, inner: Expr): Expr {
    match layer
    case InBody(cap, args) => WithCapability(cap, args, inner)
    case InLet(name, val) => Let([Binding(name, val)], inner)
    case InBranch(cond, other, taken) => if taken then If(cond, inner, other) else If(cond, other, inner)
    case InCall(func, args) => App(Symbol(func), args)
  }

  function WrapAll(layers: seq<Layer>, inner: Expr): Expr {
    if layers == [] then inner else Wrap(layers[0], WrapAll(layers[1..], inner))
  }

  // Where the part of the form is evaluated, if evaluation gets there: the arguments and conditions before it
  // have values, the capability is granted, and the called function is defined with this body.
  function Enter(layer: Layer, inner: Expr, sc: Scope, st: Store, h: Host, limit: u64): Option<Place> {
    var paid := Spend(st, BASE, limit);
    if sc.depth + 1 > MAX_RECURSION_DEPTH || !paid.out.Ok? then None
    else EnterForm(layer, inner, sc.(depth := sc.depth + 1), paid.st, h, limit)
  }

  function EnterForm(layer: Layer, inner: Expr, sc: Scope, st: Store, h: Host, limit: u64): Option<Place> {
    match layer
    case InBody(cap, args) =>
      var r := Args(args, sc, st, h, limit);
      if !r.out.Ok? then None
      else
        var key := (cap, r.out.value);
        var g := Acquire(key, sc, r.st, h, limit);
        if g.out.Ok? then Some(Place(sc.(caps := sc.caps + [key]), g.st, [key])) else None
    case InLet(name, val) =>
      var r := Eval(val, sc, st, h, limit);
      if r.out.Ok? then Some(Place(sc.(env := sc.env[name := r.out.value]), r.st, [])) else None
    case InBranch(cond, _, taken) =>
      var r := Eval(cond, sc, st, h, limit);
      if r.out.Ok? && ToBool(r.out.value) == taken then Some(Place(sc, r.st, [])) else None
    case InCall(func, args) =>
      var r := Args(args, sc, st, h, limit);
      if !r.out.Ok? || IsPure(func) || func in EFFECTFUL || func !in r.st.functions then None
      else
        var f := r.st.functions[func];
        if |f.params| == |r.out.value| && f.body == inner
        then Some(Place(sc.(env := Bind(sc.env, f.params, r.out.value)), r.st, [])) else None
  }

  function Reach(layers: seq<Layer>, inner: Expr, sc: Scope, st: Store, h: Host, limit: u64): Option<Place>
    decreases |layers|
  {
    if layers == [] then Some(Place(sc, st, []))
    else
      match Enter(layers[0], WrapAll(layers[1..], inner), sc, st, h, limit)
      case None => None
      case Some(p) =>
        match Reach(layers[1..], inner, p.sc, p.st, h, limit)
        case None => None
        case Some(q) => Some(q.(frames := p.frames + q.frames))
  }

  lemma EnterFormEvaluates(layer: Layer, inner: Expr, sc: Scope, st: Store, h: Host, limit: u64)
    requires EnterForm(layer, inner, sc, st, h, limit).Some?
    ensures var p := EnterForm(layer, inner, sc, st, h, limit).value;
            && Form(Wrap(layer, inner), sc, st, h, limit) == Eval(inner, p.sc, p.st, h, limit)
            && p.sc.caps == sc.caps + p.frames
  {
    hide Eval, Args, Acquire, IsPure, Bind;
    assert sc.caps + [] == sc.caps;
    match layer
    case InLet(name, val) =>
      var bs := [Binding(name, val)];
      assert bs[1..] == [];
      var r := Eval(val, sc, st, h, limit);
      assert LetIn(bs, inner, sc, st, h, limit) ==
             LetIn([], inner, sc.(env := sc.env[name := r.out.value]), r.st, h, limit);
    case InBranch(cond, other, taken) =>
      var thn, els := if taken then inner else other, if taken then other else inner;
      assert Wrap(layer, inner) == If(cond, thn, els);
      ConditionFirst(cond, thn, els, sc, st, h, limit);
    case InBody(cap, args) =>
      assert Form(Wrap(layer, inner), sc, st, h, limit) == WithCap(cap, args, inner, sc, st, h, limit);
    case InCall(func, args) =>
      var r := Args(args, sc, st, h, limit);
      assert Form(Wrap(layer, inner), sc, st, h, limit) == Application(Symbol(func), args, sc, st, h, limit);
      assert Application(Symbol(func), args, sc, st, h, limit) ==
             Call(r.st.functions[func], r.out.value, sc, r.st, h, limit);
  }

  lemma EnterEvaluates(layer: Layer, inner: Expr, sc: Scope, st: Store, h: Host, limit: u64)
    requires Enter(layer, inner, sc, st, h, limit).Some?
    ensures var p := Enter(layer, inner, sc, st, h, limit).value;
            && Eval(Wrap(layer, inner), sc, st, h, limit) == Eval(inner, p.sc, p.st, h, limit)
            && p.sc.caps == sc.caps + p.frames
  {
    hide Eval, Form, EnterForm, Wrap, Spend;
    EvalPaysFirst(Wrap(layer, inner), sc, st, h, limit);
    EnterFormEvaluates(layer, inner, sc.(depth := sc.depth + 1), Spend(st, BASE, limit).st, h, limit);
  }

  // Evaluating an expression is evaluating the part of it that is reached, inside exactly the frames entered
  // on the way.
  lemma {:induction false} ReachEvaluates(layers: seq<Layer>, inner: Expr, sc: Scope, st: Store, h: Host, limit: u64)
    requires Reach(layers, inner, sc, st, h, limit).Some?
    ensures var p := Reach(layers, inner, sc, st, h, limit).value;
            && Eval(WrapAll(layers, inner), sc, st, h, limit) == Eval(inner, p.sc, p.st, h, limit)
            && p.sc.caps == sc.caps + p.frames
    decreases |layers|
  {
    hide Eval, Enter, Wrap;
    if layers != [] {
      var rest := WrapAll(layers[1..], inner);
      EnterEvaluates(layers[0], rest, sc, st, h, limit);
      var p := Enter(layers[0], rest, sc, st, h, limit).value;
      ReachEvaluates(layers[1..], inner, p.sc, p.st, h, limit);
    } else {
      assert sc.caps + [] == sc.caps;
    }
  }

  // So a requirement that is reached succeeds if and only if its capability, with the values of its arguments,
  // is that of a frame entered on the way or around the whole.
  lemma RequireSeesEnteredFrames(layers: seq<Layer>, cap: string, args: seq<Expr>, sc: Scope, st: Store, h: Host,
                                 limit: u64)
    requires Reach(layers, RequireCapability(cap, args), sc, st, h, limit).Some?
    ensures var p := Reach(layers, RequireCapability(cap, args), sc, st, h, limit).value;
            var out := Eval(WrapAll(layers, RequireCapability(cap, args)), sc, st, h, limit).out;
            var r := Args(args, p.sc.(depth := p.sc.depth + 1), Spend(p.st, BASE, limit).st, h, limit);
            && (p.sc.depth < MAX_RECURSION_DEPTH && Spend(p.st, BASE, limit).out.Ok? && r.out.Ok? ==>
                  out == if (cap, r.out.value) in sc.caps + p.frames then Ok(Boolean(true))
                         else Err(CapNotInScope(cap)))
            && (out.Ok? ==> r.out.Ok? && (cap, r.out.value) in sc.caps + p.frames)
  {
    hide Eval, Reach, WrapAll, Args, Spend;
    var e := RequireCapability(cap, args);
    ReachEvaluates(layers, e, sc, st, h, limit);
    var p := Reach(layers, e, sc, st, h, limit).value;
    EvalPaysFirst(e, p.sc, p.st, h, limit);
  }
}
