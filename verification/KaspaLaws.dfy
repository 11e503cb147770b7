/** How the stack operations of the Kaspa script VM relate to and undo each other. */
module KaspaLaws {
  import opened Ints
  import opened Gas
  import opened ScriptNumber
  import opened KaspaOps

  // One operation after another.
  function Both(r: Res<Data>, op: StackOp): Res<Data> {
    match r
    case Good(d) => ApplyStack(op, d)
    case Bad(e, used) => Bad(e, used)
  }

  // Room for one more element.
  predicate Roomy(d: Data) {
    |d.stack| < MAX_STACK_SIZE && AllShort(d.stack)
  }

  lemma SwapTwice(d: Data)
    requires |d.stack| >= 2
    ensures Both(ApplyStack(Swap, d), Swap) == Good(d)
  {
    var s, n := d.stack, |d.stack|;
    var t := s[..n - 2] + [s[n - 1], s[n - 2]];
    assert t[..n - 2] + [t[n - 1], t[n - 2]] == s;
  }

  lemma RotThrice(d: Data)
    requires |d.stack| >= 3
    ensures Both(Both(ApplyStack(Rot, d), Rot), Rot) == Good(d)
  {
    var s, n := d.stack, |d.stack|;
    var base, a, b, c := s[..n - 3], s[n - 3], s[n - 2], s[n - 1];
    RotOf(d, base, a, b, c);
    RotOf(d.(stack := base + [b, c, a]), base, b, c, a);
    RotOf(d.(stack := base + [c, a, b]), base, c, a, b);
    assert s == base + [a, b, c];
  }

  lemma RotOf(d: Data, base: seq<Elem>, a: Elem, b: Elem, c: Elem)
    requires d.stack == base + [a, b, c]
    ensures ApplyStack(Rot, d) == Good(d.(stack := base + [b, c, a]))
  {
    assert d.stack[..|base|] == base;
  }

  // A copy on top is taken off again by a drop.
  lemma DupThenDrop(d: Data)
    requires d.stack != [] && Roomy(d)
    ensures Both(ApplyStack(Dup, d), Drop) == Good(d)
  {
    var n := |d.stack|;
    var e := d.stack[n - 1];
    var copy := d.stack[n - 1..];
    assert Short(e) && copy == [e] && copy[1..] == [];
    assert PushAll(d.(stack := d.stack + [e]), copy[1..]) == Good(d.(stack := d.stack + [e]));
    assert (d.stack + [e])[..n] == d.stack;
  }

  // An element moved to the other stack comes back.
  lemma ToAltThenFromAlt(d: Data)
    requires d.stack != [] && |d.stack| <= MAX_STACK_SIZE && AllShort(d.stack)
    ensures Both(ApplyStack(ToAlt, d), FromAlt) == Good(d)
  {
    var n := |d.stack|;
    var e := d.stack[n - 1];
    assert Short(e) && (d.alt + [e])[..|d.alt|] == d.alt;
    assert d.stack[..n - 1] + [e] == d.stack;
  }

  // Tuck is a swap and a copy of the second element, but for the check of the stack size.
  lemma TuckIsSwapOver(d: Data)
    requires |d.stack| >= 2 && Roomy(d)
    ensures ApplyStack(Tuck, d) == Both(ApplyStack(Swap, d), Over)
  {
    var s, n := d.stack, |d.stack|;
    var t := s[..n - 2] + [s[n - 1], s[n - 2]];
    assert Short(s[n - 1]) && t[n - 2] == s[n - 1];
    assert t + [s[n - 1]] == s[..n - 2] + [s[n - 1], s[n - 2], s[n - 1]];
  }

  lemma NipIsSwapDrop(d: Data)
    requires |d.stack| >= 2
    ensures ApplyStack(Nip, d) == Both(ApplyStack(Swap, d), Drop)
  {
    var s, n := d.stack, |d.stack|;
    assert (s[..n - 2] + [s[n - 1], s[n - 2]])[..n - 1] == s[..n - 2] + [s[n - 1]];
  }

  // Roll with the number k takes out the element under k others and puts it on top; pick copies it.
  lemma RollAndPick(d: Data, low: seq<Elem>, e: Elem, high: seq<Elem>)
    requires d.stack == low + [e] + high && Roomy(d) && |high| < I64_HALF
    ensures ApplyStack(Roll, d.(stack := d.stack + [FromI64(|high|)])) == Good(d.(stack := low + high + [e]))
    ensures ApplyStack(Pick, d.(stack := d.stack + [FromI64(|high|)])) == Good(d.(stack := d.stack + [e]))
  {
    hide FromI64, ToI64;
    var k := |high|;
    var d0 := d.(stack := d.stack + [FromI64(k)]);
    RoundTripNumber(k);
    assert d0.stack[..|d.stack|] == d.stack;
    assert PopNumber(d0) == Good((k, d));
    assert d.stack[|low|] == e && Short(e);
    assert d.stack[..|low|] == low && d.stack[|low| + 1..] == high;
  }
}
