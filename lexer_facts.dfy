/** What the scanner guarantees about the token lists it produces. */
module LexerFacts {
  import opened Wrappers
  import JavaLang
  import opened Lexer

  /** No Newline token first, and never two Newline tokens in a row. */
  predicate WellSpaced(ts: seq<Token>) {
    (ts != [] ==> ts[0].kind != Newline) &&
    forall i :: 0 < i < |ts| ==> !(ts[i - 1].kind == Newline && ts[i].kind == Newline)
  }

  /**
   * Every token is neither EOF nor a comma, begins before index `bound` in
   * the file `fileName`, carries the row and column of its index and fits
   * the text there; the tokens appear in text order.
   */
  predicate Placed(text: string, fileName: string, ts: seq<Token>, bound: int) {
    (forall i :: 0 <= i < |ts| ==>
      ts[i].kind != EndOfFile && ts[i].kind != Comma && ts[i].pos.fileName == fileName &&
      ts[i].pos.index < bound && ts[i].pos.index < |text| && Tracked(text, ts[i].pos) && TokenFits(text, ts[i])) &&
    (forall i, j :: 0 <= i < j < |ts| ==> ts[i].pos.index < ts[j].pos.index)
  }

  /** The token an operator turn adds is the operator's text. */
  lemma OperatorStepFits(text: string, p: Position, acc: seq<Token>)
    requires p.index >= 0 && CharAt(text, p.index) != NUL
    ensures var r := OperatorStep(text, p, acc);
      r.Ok? ==> |r.value.tokens| == |acc| + 1 && TokenFits(text, r.value.tokens[|acc|])
  {
    var c := CharAt(text, p.index);
    var d := CharAt(text, p.index + 1);
    var r := OperatorStep(text, p, acc);
    if r.Ok? {
      var op := Operator(c, d).value;
      assert r.value.tokens == acc + [Token(op.kind, op.contents, p)];
      if |op.contents| == 2 {
        assert d != NUL;
      }
      OperatorFits(text, p, op);
    }
  }

  /** An operator whose characters stand at `p` fits there. */
  lemma OperatorFits(text: string, p: Position, op: Op)
    requires p.index >= 0 && 1 <= |op.contents| <= 2 && CharAt(text, p.index) == op.contents[0] != NUL
    requires |op.contents| == 2 ==> CharAt(text, p.index + 1) == op.contents[1] != NUL
    requires op.kind !in {Newline, String, Integer} && op.kind !in WORD_KINDS
    ensures TokenFits(text, Token(op.kind, op.contents, p))
  {
    var i := p.index;
    if |op.contents| == 2 {
      assert text[i..i + 2] == op.contents;
    } else {
      assert text[i..i + 1] == op.contents;
    }
  }

  /** The token a word or number turn adds is the longest run at its position. */
  lemma RunStepFits(text: string, p: Position, acc: seq<Token>, kind: RunKind)
    requires p.index >= 0 && InRun(kind, CharAt(text, p.index))
    requires kind == Word ==> IsIdentifierStart(CharAt(text, p.index))
    ensures var r := RunStep(text, p, acc, kind);
      r.Ok? && |r.value.tokens| == |acc| + 1 && TokenFits(text, r.value.tokens[|acc|])
  {
    var w := Run(text, p, kind, "");
    RunLongest(text, p, kind);
    var t := RunStep(text, p, acc, kind).value.tokens[|acc|];
    assert t == Token(if kind == Word then WordKind(w.text) else Integer, w.text, p);
  }

  /** A run scanned from `p` is the longest run there, and starts with the character at `p`. */
  lemma RunLongest(text: string, p: Position, kind: RunKind)
    requires p.index >= 0 && InRun(kind, CharAt(text, p.index))
    ensures var w := Run(text, p, kind, "");
      LongestRunAt(text, p.index, w.text, kind) && w.text[0] == CharAt(text, p.index)
  {
    var w := Run(text, p, kind, "");
    assert w.text == text[p.index..w.pos.index];
    RunIsLongest(text, p.index, w.pos.index, w.text, kind);
  }

  /** The characters from `i` up to `j`, all in the run and stopped by one outside it, are the longest run at `i`. */
  lemma RunIsLongest(text: string, i: int, j: int, run: string, kind: RunKind)
    requires 0 <= i < j <= |text| && run == text[i..j]
    requires forall k :: i <= k < j ==> InRun(kind, CharAt(text, k))
    requires !InRun(kind, CharAt(text, j))
    ensures LongestRunAt(text, i, run, kind) && run[0] == text[i]
  {
    forall k | 0 <= k < |run|
      ensures InRun(kind, run[k])
    {
      assert run[k] == CharAt(text, i + k);
    }
  }

  /** The token a turn adds fits the text where it begins. */
  lemma StepTokenFits(text: string, p: Position, acc: seq<Token>)
    requires p.index >= 0 && CharAt(text, p.index) != NUL
    ensures var r := Step(text, p, acc);
      r.Ok? && |r.value.tokens| > |acc| ==> TokenFits(text, r.value.tokens[|acc|])
  {
    var c := CharAt(text, p.index);
    if c == '/' {
      assert Step(text, p, acc) == SlashStep(text, p, acc);
      SlashStepFits(text, p, acc);
    } else if c == ' ' {
      assert Step(text, p, acc) == Ok(Lexed(Advance(text, p), acc));
    } else if c == ';' || c == '\n' {
      assert Step(text, p, acc) == Ok(Lexed(Advance(text, p), AddNewline(acc, if c == ';' then ";" else "\\n", p)));
      NewlineFits(text, acc, if c == ';' then ";" else "\\n", p);
    } else if c == '"' {
      assert Step(text, p, acc) == StringStep(text, p, acc);
      StringStepFits(text, p, acc);
    } else if IsIdentifierStart(c) {
      assert Step(text, p, acc) == RunStep(text, p, acc, Word);
      RunStepFits(text, p, acc, Word);
    } else if JavaLang.IsDigit(c) {
      assert Step(text, p, acc) == RunStep(text, p, acc, Number);
      RunStepFits(text, p, acc, Number);
    } else {
      assert Step(text, p, acc) == OperatorStep(text, p, acc);
      OperatorStepFits(text, p, acc);
    }
  }

  /** The token a line end adds is a Newline, which fits anywhere. */
  lemma NewlineFits(text: string, acc: seq<Token>, contents: string, at: Position)
    ensures var ts := AddNewline(acc, contents, at);
      |ts| > |acc| ==> ts[|acc|] == Token(Newline, contents, at) && TokenFits(text, ts[|acc|])
  {
  }

  /** The padded text holds what the cursor reads. */
  lemma PaddedAt(text: string, i: int)
    requires 0 <= i <= |text|
    ensures Padded(text)[i] == CharAt(text, i)
  {
  }

  /** A kept character heads the decoding of the raw text it starts. */
  lemma DecodeKept(t: string, a: int, b: int)
    requires 0 <= a < b <= |t| && t[a] != '"' && t[a] != '\\'
    ensures Decode(t[a..b]) == match Decode(t[a + 1..b]) case Some(rest) => Some([t[a]] + rest) case None => None
  {
    assert t[a..b][1..] == t[a + 1..b];
  }

  /** A known escape's character heads the decoding of the raw text it starts. */
  lemma DecodeEscaped(t: string, a: int, b: int)
    requires 0 <= a && a + 2 <= b <= |t| && t[a] == '\\' && EscapeOf(t[a + 1]).Some?
    ensures Decode(t[a..b]) == match Decode(t[a + 2..b]) case Some(rest) => Some([EscapeOf(t[a + 1]).value] + rest) case None => None
  {
    assert t[a..b][2..] == t[a + 2..b];
  }

  /** Raw text with no backslash and no quote stands for itself. */
  lemma {:induction false} DecodePlain(raw: string)
    requires forall i :: 0 <= i < |raw| ==> raw[i] != '\\' && raw[i] != '"'
    ensures Decode(raw) == Some(raw)
    decreases |raw|
  {
    if raw != [] {
      DecodePlain(raw[1..]);
      assert [raw[0]] + raw[1..] == raw;
    }
  }

  /**
   * A string body that ends holds exactly what the raw characters it read
   * stand for, escapes decoded: the text from its start up to the closing
   * quote, or up to the end of the text with the NUL read there when the
   * body starts at the very end.
   */
  lemma {:induction false} StringBodyDecodes(text: string, p: Position, acc: string)
    requires 0 <= p.index <= |text| && StringBody(text, p, acc).Ok?
    ensures var r := StringBody(text, p, acc).value;
      var raw := Padded(text)[p.index..r.pos.index];
      Decode(raw).Some? && r.text == acc + Decode(raw).value
    decreases |text| - p.index
  {
    var c := CharAt(text, p.index);
    if c == '"' {
      StringBodyStops(text, p, acc);
    } else if c == '\\' {
      StringBodyEscape(text, p, acc);
    } else {
      StringBodyKeeps(text, p, acc);
    }
  }

  lemma StringBodyStops(text: string, p: Position, acc: string)
    requires 0 <= p.index <= |text| && CharAt(text, p.index) == '"'
    ensures StringBody(text, p, acc) == Ok(Scanned(acc, p))
    ensures Padded(text)[p.index..p.index] == [] && Decode([]) == Some([])
  {
  }

  lemma {:induction false} StringBodyEscape(text: string, p: Position, acc: string)
    requires 0 <= p.index <= |text| && CharAt(text, p.index) == '\\' && StringBody(text, p, acc).Ok?
    ensures var r := StringBody(text, p, acc).value;
      var raw := Padded(text)[p.index..r.pos.index];
      Decode(raw).Some? && r.text == acc + Decode(raw).value
    decreases |text| - p.index, 0
  {
    var e := Unescape(text, p).value;
    assert StringBody(text, p, acc) == StringBody(text, e.pos, acc + [e.ch]);
    var r := StringBody(text, e.pos, acc + [e.ch]).value;
    StringBodyDecodes(text, e.pos, acc + [e.ch]);
    PaddedAt(text, p.index);
    PaddedAt(text, p.index + 1);
    DecodeEscaped(Padded(text), p.index, r.pos.index);
  }

  lemma {:induction false} StringBodyKeeps(text: string, p: Position, acc: string)
    requires 0 <= p.index <= |text| && CharAt(text, p.index) != '\\' && CharAt(text, p.index) != '"'
    requires StringBody(text, p, acc).Ok?
    ensures var r := StringBody(text, p, acc).value;
      var raw := Padded(text)[p.index..r.pos.index];
      Decode(raw).Some? && r.text == acc + Decode(raw).value
    decreases |text| - p.index, 0
  {
    if CharAt(text, p.index + 1) == NUL {
      StringBodyLast(text, p, acc);
    } else {
      var q := Advance(text, p);
      assert StringBody(text, p, acc) == StringBody(text, q, acc + [CharAt(text, p.index)]);
      StringBodyDecodes(text, q, acc + [CharAt(text, p.index)]);
      PaddedAt(text, p.index);
      DecodeKept(Padded(text), p.index, StringBody(text, q, acc + [CharAt(text, p.index)]).value.pos.index);
    }
  }

  /** A kept character followed by NUL ends the body, just after it. */
  lemma StringBodyLast(text: string, p: Position, acc: string)
    requires 0 <= p.index <= |text| && CharAt(text, p.index) != '\\' && CharAt(text, p.index) != '"'
    requires CharAt(text, p.index + 1) == NUL
    ensures var r := StringBody(text, p, acc).value;
      var raw := Padded(text)[p.index..r.pos.index];
      StringBody(text, p, acc).Ok? && Decode(raw).Some? && r.text == acc + Decode(raw).value
  {
    var c := CharAt(text, p.index);
    var q := Advance(text, p);
    assert StringBody(text, p, acc) == Ok(Scanned(acc + [c], q));
    PaddedAt(text, p.index);
    DecodeKept(Padded(text), p.index, q.index);
    assert Padded(text)[q.index..q.index] == [];
  }

  /** The token a turn on `"` adds is a String literal at the quote, which fits anywhere. */
  lemma StringStepFits(text: string, p: Position, acc: seq<Token>)
    requires 0 <= p.index < |text| && text[p.index] == '"'
    ensures var r := StringStep(text, p, acc);
      r.Ok? ==> |r.value.tokens| == |acc| + 1 && r.value.tokens[|acc|].kind == String && TokenFits(text, r.value.tokens[|acc|])
    ensures var r := StringStep(text, p, acc);
      r.Ok? ==>
        var close := r.value.pos.index - 1;
        var raw := Padded(text)[p.index + 1..close];
        p.index < close && CharAt(text, close) in {'"', NUL} &&
        Decode(raw).Some? && r.value.tokens[|acc|].contents == Decode(raw).value
  {
    var q := Advance(text, p);
    if StringBody(text, q, "").Ok? {
      StringBodyDecodes(text, q, "");
    }
  }

  /** The only token a turn on `/` adds is the division operator, at the slash. */
  lemma SlashStepFits(text: string, p: Position, acc: seq<Token>)
    requires p.index >= 0 && CharAt(text, p.index) == '/'
    ensures var r := SlashStep(text, p, acc);
      r.Ok? && |r.value.tokens| > |acc| ==> r.value.tokens[|acc|] == Token(Div, "/", p) && TokenFits(text, r.value.tokens[|acc|])
  {
    var r := SlashStep(text, p, acc);
    if r.Ok? && |r.value.tokens| > |acc| {
      assert text[p.index..p.index + 1] == "/";
    }
  }

  /** A turn keeps the tokens well spaced and placed, and the cursor tracked. */
  lemma StepKeepsShape(text: string, fileName: string, p: Position, acc: seq<Token>)
    requires p.index >= 0 && CharAt(text, p.index) != NUL && p.fileName == fileName && Tracked(text, p)
    requires WellSpaced(acc) && Placed(text, fileName, acc, p.index)
    ensures var r := Step(text, p, acc);
      r.Ok? ==>
        r.value.pos.index >= 0 && r.value.pos.fileName == fileName && Tracked(text, r.value.pos) &&
        r.value.tokens[..|acc|] == acc &&
        WellSpaced(r.value.tokens) && Placed(text, fileName, r.value.tokens, r.value.pos.index)
  {
    var r := Step(text, p, acc);
    if r.Ok? {
      var l := r.value;
      AppendsShape(acc, l.tokens, p);
      if |l.tokens| > |acc| {
        StepTokenFits(text, p, acc);
        ExtendShape(text, fileName, acc, l.tokens[|acc|], p, l.pos.index);
      }
    }
  }

  /** A list that `Appends` to `acc` is `acc` itself or `acc` and one more token. */
  lemma AppendsShape(acc: seq<Token>, tokens: seq<Token>, at: Position)
    requires Appends(acc, tokens, at)
    ensures |tokens| == |acc| ==> tokens == acc
    ensures |tokens| > |acc| ==> tokens == acc + [tokens[|acc|]]
  {
    if |tokens| > |acc| {
      assert tokens == tokens[..|acc|] + [tokens[|acc|]];
    }
  }

  /** A token that fits where the scan stands keeps the list well spaced and placed. */
  lemma ExtendShape(text: string, fileName: string, acc: seq<Token>, t: Token, p: Position, bound: int)
    requires WellSpaced(acc) && Placed(text, fileName, acc, p.index)
    requires p.index < bound && p.index < |text| && p.fileName == fileName && Tracked(text, p)
    requires t.pos == p && t.kind != EndOfFile && t.kind != Comma && TokenFits(text, t)
    requires t.kind == Newline ==> acc != [] && acc[|acc| - 1].kind != Newline
    ensures WellSpaced(acc + [t]) && Placed(text, fileName, acc + [t], bound)
  {
    var ts := acc + [t];
    forall i | 0 < i < |ts|
      ensures !(ts[i - 1].kind == Newline && ts[i].kind == Newline)
    {
      assert ts[i - 1] == acc[i - 1];
      if i < |acc| {
        assert ts[i] == acc[i];
      }
    }
    ExtendPlaced(text, fileName, acc, t, p.index, bound);
  }

  /** Appending a token placed at `at`, past every earlier one, keeps the list placed. */
  lemma ExtendPlaced(text: string, fileName: string, acc: seq<Token>, t: Token, at: int, bound: int)
    requires Placed(text, fileName, acc, at)
    requires at < bound && at < |text| && t.pos.index == at && t.pos.fileName == fileName && Tracked(text, t.pos)
    requires t.kind != EndOfFile && t.kind != Comma && TokenFits(text, t)
    ensures Placed(text, fileName, acc + [t], bound)
  {
    var ts := acc + [t];
    forall i | 0 <= i < |ts|
      ensures ts[i].pos.index <= at
    {
      if i < |acc| {
        assert ts[i] == acc[i];
      }
    }
  }

  /** A scan result that extends `acc`, ends with EOF, and is well spaced and placed. */
  predicate ShapedAfter(text: string, fileName: string, acc: seq<Token>, r: Result<seq<Token>, LexError>) {
    r.Ok? ==>
      |r.value| > |acc| && r.value[..|acc|] == acc && r.value[|r.value| - 1] == EOF &&
      WellSpaced(r.value) && Placed(text, fileName, r.value[..|r.value| - 1], |text|)
  }

  lemma EndShape(text: string, fileName: string, p: Position, acc: seq<Token>)
    requires p.index >= 0 && CharAt(text, p.index) == NUL
    requires WellSpaced(acc) && Placed(text, fileName, acc, p.index)
    ensures ShapedAfter(text, fileName, acc, LexFrom(text, p, acc))
  {
    var ts := acc + [EOF];
    assert ts[..|ts| - 1] == acc;
  }

  lemma LexFromStep(text: string, p: Position, acc: seq<Token>, l: Lexed)
    requires p.index >= 0 && CharAt(text, p.index) != NUL && Step(text, p, acc) == Ok(l)
    ensures l.pos.index >= 0 && LexFrom(text, p, acc) == LexFrom(text, l.pos, l.tokens)
  {
  }

  lemma ShapedAfterPrefix(text: string, fileName: string, acc: seq<Token>, mid: seq<Token>, r: Result<seq<Token>, LexError>)
    requires |acc| <= |mid| && mid[..|acc|] == acc && ShapedAfter(text, fileName, mid, r)
    ensures ShapedAfter(text, fileName, acc, r)
  {
    if r.Ok? {
      assert r.value[..|acc|] == mid[..|acc|];
    }
  }

  /** The scan from a well-formed state ends with EOF after tokens that are well spaced and placed. */
  lemma {:induction false} LexFromShape(text: string, fileName: string, p: Position, acc: seq<Token>)
    requires p.index >= 0 && p.fileName == fileName && Tracked(text, p)
    requires WellSpaced(acc) && Placed(text, fileName, acc, p.index)
    decreases |text| - p.index
    ensures ShapedAfter(text, fileName, acc, LexFrom(text, p, acc))
  {
    if CharAt(text, p.index) == NUL {
      EndShape(text, fileName, p, acc);
    } else {
      var r := Step(text, p, acc);
      if r.Ok? {
        var l := r.value;
        StepKeepsShape(text, fileName, p, acc);
        LexFromShape(text, fileName, l.pos, l.tokens);
        LexFromStep(text, p, acc, l);
        ShapedAfterPrefix(text, fileName, acc, l.tokens, LexFrom(text, l.pos, l.tokens));
      }
    }
  }

  /**
   * A whole scan that succeeds ends with the EOF token and nowhere else,
   * never starts with a Newline or puts two in a row, and gives every other
   * token the row and column of its index, text that fits its position, and
   * text order.
   */
  lemma LexShape(text: string, fileName: string)
    ensures var r := LexSpec(text, fileName);
      r.Ok? ==>
        |r.value| > 0 && r.value[|r.value| - 1] == EOF &&
        WellSpaced(r.value) && Placed(text, fileName, r.value[..|r.value| - 1], |text|)
  {
    LexFromShape(text, fileName, Start(fileName), []);
  }

  /**
   * No scan ever yields a Comma token: a `,` in the text is an error. So
   * the comma-separated argument and parameter lists of the grammar can
   * hold at most one element in any program the scanner accepts.
   */
  lemma NoCommaToken(text: string, fileName: string)
    ensures var r := LexSpec(text, fileName);
      r.Ok? ==> forall i :: 0 <= i < |r.value| ==> r.value[i].kind != Comma
  {
    LexShape(text, fileName);
    var r := LexSpec(text, fileName);
    if r.Ok? {
      forall i | 0 <= i < |r.value|
        ensures r.value[i].kind != Comma
      {
        if i < |r.value| - 1 {
          assert r.value[i] == r.value[..|r.value| - 1][i];
        }
      }
    }
  }

  // ---------------------------------------------------------------------------
  // Single turns

  /** Comments add no token. */
  lemma CommentsAddNothing(text: string, p: Position, acc: seq<Token>)
    requires p.index >= 0 && CharAt(text, p.index) == '/' && CharAt(text, p.index + 1) in {'/', '*'}
    ensures Step(text, p, acc).Ok? ==> Step(text, p, acc).value.tokens == acc
  {
  }

  /** A `//` comment with no line break after it, or a block comment with no closing star-slash, never ends. */
  lemma UnendedComments(text: string, p: Position, acc: seq<Token>)
    requires p.index >= 0 && CharAt(text, p.index) == '/'
    ensures CharAt(text, p.index + 1) == '/' && (forall k :: p.index < k < |text| ==> text[k] != '\n') ==>
      Step(text, p, acc) == Err(UnterminatedComment(p))
    ensures CharAt(text, p.index + 1) == '*' && (forall k :: p.index + 2 <= k ==> !ClosesAt(text, k)) ==>
      Step(text, p, acc) == Err(UnterminatedComment(p))
  {
  }

  /** A division sign consumes the character that follows it, whatever it is. */
  lemma DivisionSkipsNextChar(text: string, p: Position, acc: seq<Token>)
    requires p.index >= 0 && CharAt(text, p.index) == '/' && CharAt(text, p.index + 1) !in {'/', '*'}
    ensures Step(text, p, acc) == Ok(Lexed(Advance(text, Advance(text, p)), acc + [Token(Div, "/", p)]))
  {
  }

  /** A lone `=`, `&` or `|` is an error, as are a comma, a tab and a carriage return. */
  lemma RejectedCharacters(text: string, p: Position, acc: seq<Token>)
    requires p.index >= 0
    ensures var c, d := CharAt(text, p.index), CharAt(text, p.index + 1);
      c in {'=', '&', '|'} && d != c ==> Step(text, p, acc) == Err(ExpectedChar(c, d, Advance(text, p)))
    ensures var c := CharAt(text, p.index);
      c in {',', '\t', '\r'} ==> Step(text, p, acc) == Err(InvalidCharacter(c, p))
  {
  }

  /** `;` and a line break both lex to a Newline token, and only after a token that is not one. */
  lemma NewlineTokens(text: string, p: Position, acc: seq<Token>)
    requires p.index >= 0 && CharAt(text, p.index) in {';', '\n'}
    ensures var r := Step(text, p, acc);
      r.Ok? && r.value.pos == Advance(text, p) &&
      (|r.value.tokens| > |acc| <==> acc != [] && acc[|acc| - 1].kind != Newline) &&
      (|r.value.tokens| > |acc| ==> r.value.tokens[|acc|].kind == Newline)
  {
  }
}
