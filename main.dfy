/**
 * The entry point: the source text is lexed, parsed into one block,
 * and run in a global table holding the builtins and `true`/`false`.
 * Each stage's failure ends the run.
 */
module Program {
  import opened Wrappers
  import Lexer
  import G = Grammar
  import Parser
  import opened Ast
  import opened Values
  import opened Scope
  import opened Calls
  import opened Machine
  import S = Semantics
  import Interpreter

  /** Why a run stopped: the stage that threw, and what it threw. */
  datatype Failure =
    | LexFailure(lexError: Lexer.LexError)
    | ParseFailure(parseError: G.ParseError)
    | RuntimeFailure(runtimeError: RuntimeError)

  /**
   * `Main.main` after reading the file: lex, parse, build the global
   * table, interpret. The lexer and parser failures are exactly those of
   * their specifications; after them the run is what the semantics gives
   * for the parsed block from the initial store: the same lines printed,
   * the same error, or a result holding the same payload.
   */
  method Run(text: string, fileName: string, out: Console, fuel: nat) returns (r: Result<Value, Failure>)
    modifies out
    ensures Lexer.LexSpec(text, fileName).Err? ==>
      r == Err(LexFailure(Lexer.LexSpec(text, fileName).error)) && out.lines == old(out.lines)
    ensures Lexer.LexSpec(text, fileName).Ok? && G.Parse(Lexer.LexSpec(text, fileName).value).Err? ==>
      r == Err(ParseFailure(G.Parse(Lexer.LexSpec(text, fileName).value).error)) && out.lines == old(out.lines)
    ensures Lexer.LexSpec(text, fileName).Ok? && G.Parse(Lexer.LexSpec(text, fileName).value).Ok? ==>
      var s := Meaning(G.Parse(Lexer.LexSpec(text, fileName).value).value, old(out.lines), fuel);
      out.lines == s.st.lines &&
      (s.res.Err? ==> r == Err(RuntimeFailure(s.res.error))) &&
      (s.res.Ok? ==> r.Ok? && Snap(r.value) == Read(s.st, s.res.value))
  {
    var lexed := Lexer.Lex(text, fileName);
    if lexed.Err? {
      return Err(LexFailure(lexed.error));
    }
    var parsed := Parser.Parse(lexed.value);
    if parsed.Err? {
      return Err(ParseFailure(parsed.error));
    }
    var v := Execute(parsed.value, out, fuel);
    if v.Err? {
      return Err(RuntimeFailure(v.error));
    }
    r := Ok(v.value);
  }

  /** What the semantics gives for a program run from the initial store with `lines` already printed. */
  function Meaning(program: Node, lines: seq<string>, fuel: nat): (s: Step)
    ensures fuel == 0 ==> s == Step(Err(OutOfFuel), S.Initial(lines))
  {
    S.Eval(S.Initial(lines), 0, program, fuel)
  }

  /**
   * The interpreting stage: the parsed block runs in a new global table.
   * The lines printed and the error are those of `Meaning`, and a result
   * holds the payload `Meaning`'s result holds.
   */
  method Execute(program: Node, out: Console, fuel: nat) returns (r: Result<Value, RuntimeError>)
    modifies out
    ensures out.lines == Meaning(program, old(out.lines), fuel).st.lines
    ensures r.Err? <==> Meaning(program, old(out.lines), fuel).res.Err?
    ensures r.Err? ==> r.error == Meaning(program, old(out.lines), fuel).res.error
    ensures r.Ok? ==> Snap(r.value) == Read(Meaning(program, old(out.lines), fuel).st, Meaning(program, old(out.lines), fuel).res.value)
  {
    var global, yes, no := Prelude();
    ghost var U := Universe([global], [yes, no], []);
    ghost var st := S.Initial(out.lines);
    PreludeAgrees(U, BUILTINS);
    MapRelBind(U, Registered(BUILTINS), S.ARegistered(BUILTINS), "true", Int(yes), AInt(0));
    MapRelBind(U, Registered(BUILTINS)["true" := Int(yes)], S.ARegistered(BUILTINS)["true" := AInt(0)], "false", Int(no), AInt(1));
    assert TablesModel(U, st);
    ghost var U2;
    r, U2 := Interpreter.Interpret(global, program, out, fuel, U, st, 0);
    if r.Ok? {
      SnapRead(U2, Meaning(program, old(out.lines), fuel).st, r.value, Meaning(program, old(out.lines), fuel).res.value);
    }
  }

  /** The builtin registrations agree with their values in the store. */
  lemma {:induction false} PreludeAgrees(U: Universe, bs: seq<(string, ValueType, BuiltinBody)>)
    ensures MapRel(U, Registered(bs), S.ARegistered(bs))
  {
    if bs != [] {
      var n := |bs| - 1;
      PreludeAgrees(U, bs[..n]);
      var e := BuiltinEntry(bs[n]);
      MapRelBind(U, Registered(bs[..n]), S.ARegistered(bs[..n]), e.0, e.1, ABuiltin(e.1.bid, e.1.bparams, e.1.body));
    }
  }
}
