/** A whole Pact execution: the code is parsed and run, then the call data, if there is any. */
module PactRun {
  import opened Ints
  import opened Wrappers
  import opened PactSyntax
  import opened PactSemantics
  import opened PactProperties
  import PactGrammar
  import PactPrinter

  /** What running ends in, or the error of a text that does not parse. */
  datatype Finish = Finished(out: Outcome<Value>) | Malformed(error: PactGrammar.ParseError)

  datatype Ran = Ran(finish: Finish, st: Store)

  predicate Succeeds(r: Ran) {
    r.finish.Finished? && r.finish.out.Ok?
  }

  // A text is parsed as a whole before any of it is run.
  function RunText(text: string, last: Value, st: Store, h: Host, limit: u64): Ran {
    match PactGrammar.AllExprs(text, 0)
    case Got(es, _) =>
      var r := Program(es, last, st, h, limit);
      Ran(Finished(r.out), r.st)
    case Fail(e) => Ran(Malformed(e), st)
    case Panic => Ran(Finished(Outcome.Panic), st)
  }

  function ParseAndExecute(code: string, callData: Option<string>, st: Store, h: Host, limit: u64): Ran {
    var r := RunText(code, Unit, st, h, limit);
    if callData.Some? && Succeeds(r) then RunText(callData.value, r.finish.out.value, r.st, h, limit) else r
  }

  // ---------- Printed programs ----------

  lemma {:induction false} ProgramAppends(es: seq<Expr>, cs: seq<Expr>, last: Value, st: Store, h: Host, limit: u64)
    ensures var r := Program(es, last, st, h, limit);
            Program(es + cs, last, st, h, limit) ==
            if r.out.Ok? then Program(cs, r.out.value, r.st, h, limit) else r
    decreases |es|
  {
    hide Eval;
    if es == [] {
      assert es + cs == cs;
    } else {
      assert (es + cs)[0] == es[0] && (es + cs)[1..] == es[1..] + cs;
      var r := Eval(es[0], TOP_LEVEL, st, h, limit);
      if r.out.Ok? {
        ProgramAppends(es[1..], cs, r.out.value, r.st, h, limit);
      }
    }
  }

  lemma PrintedTextRuns(es: seq<Expr>, last: Value, st: Store, h: Host, limit: u64)
    requires PactPrinter.AllPrintable(es)
    ensures var r := Program(es, last, st, h, limit);
            RunText(PactPrinter.PrintAll(es), last, st, h, limit) == Ran(Finished(r.out), r.st)
  {
    hide Program, PactGrammar.AllExprs, PactPrinter.PrintAll, PactPrinter.AllPrintable;
    PactPrinter.ParseAfterPrint(es);
  }

  // Running printed code with printed call data is running their expressions one after the other, whether the
  // call comes as call data or at the end of the code.
  lemma PrintedProgramRuns(es: seq<Expr>, cs: seq<Expr>, st: Store, h: Host, limit: u64)
    requires PactPrinter.AllPrintable(es) && PactPrinter.AllPrintable(cs)
    ensures var r := Program(es + cs, Unit, st, h, limit);
            && ParseAndExecute(PactPrinter.PrintAll(es), Some(PactPrinter.PrintAll(cs)), st, h, limit) ==
               Ran(Finished(r.out), r.st)
            && ParseAndExecute(PactPrinter.PrintAll(es + cs), None, st, h, limit) == Ran(Finished(r.out), r.st)
  {
    assert PactPrinter.AllPrintable(es + cs);
    hide Program, RunText, PactPrinter.PrintAll, PactPrinter.Printable;
    ProgramAppends(es, cs, Unit, st, h, limit);
    PrintedTextRuns(es, Unit, st, h, limit);
    PrintedTextRuns(es + cs, Unit, st, h, limit);
    var r := Program(es, Unit, st, h, limit);
    if r.out.Ok? {
      PrintedTextRuns(cs, r.out.value, r.st, h, limit);
    }
  }

  // ---------- Gas ----------

  // The outcome under a low limit against the outcome under a higher one.
  ghost predicate RunsAgree(r1: Ran, r2: Ran, low: u64) {
    if r2.st.used <= low then r1 == r2
    else r1.finish.Finished? && Starved(r1.finish.out) && r1.st.used == low
  }

  lemma TextAgrees(text: string, last: Value, st: Store, h: Host, low: u64, high: u64)
    requires st.used <= low <= high
    ensures var r2 := RunText(text, last, st, h, high);
            st.used <= r2.st.used <= high && RunsAgree(RunText(text, last, st, h, low), r2, low)
  {
    hide Program, PactGrammar.AllExprs;
    match PactGrammar.AllExprs(text, 0)
    case Got(es, _) => ProgramMetered(es, last, st, h, low, high);
    case _ =>
  }

  // A whole execution that completes with G gas ends the same under every limit from G on, and under every
  // limit below G is starved with exactly that limit used.
  lemma ExecutionGasMonotone(code: string, callData: Option<string>, h: Host, limit: u64, other: u64)
    requires Succeeds(ParseAndExecute(code, callData, EMPTY_STORE, h, limit))
    ensures var r := ParseAndExecute(code, callData, EMPTY_STORE, h, limit);
            RunsAgree(ParseAndExecute(code, callData, EMPTY_STORE, h, other), r, other)
  {
    hide RunText;
    ExecutionAgrees(code, callData, h, Min(limit, other), Max(limit, other));
    ExecutionAgrees(code, callData, h, limit, limit);
  }

  lemma ExecutionAgrees(code: string, callData: Option<string>, h: Host, low: u64, high: u64)
    requires low <= high
    ensures var r2 := ParseAndExecute(code, callData, EMPTY_STORE, h, high);
            r2.st.used <= high && RunsAgree(ParseAndExecute(code, callData, EMPTY_STORE, h, low), r2, low)
  {
    hide RunText;
    TextAgrees(code, Unit, EMPTY_STORE, h, low, high);
    var r2 := RunText(code, Unit, EMPTY_STORE, h, high);
    if callData.Some? && Succeeds(r2) {
      if r2.st.used <= low {
        TextAgrees(callData.value, r2.finish.out.value, r2.st, h, low, high);
      } else {
        TextAgrees(callData.value, r2.finish.out.value, r2.st, h, high, high);
      }
    }
  }
}
