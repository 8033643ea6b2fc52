/**
 * The scanner: one pass over the source text that turns characters into
 * typed tokens carrying the position where each token begins.
 *
 * The pure functions below (`Step`, `LexFrom`, `LexSpec`) describe one turn
 * of the scanner's main loop and the whole run; the class `LexState` and the
 * method `Lex` are the scanner itself, a loop over a mutable cursor, proved to
 * compute exactly `LexSpec`.
 */
module Lexer {
  import opened Wrappers
  import JavaLang

  /** Where a token begins: a character index, a column, a row and the file. */
  datatype Position = Position(index: int, column: int, row: int, fileName: string)

  /** Every token kind the scanner knows; `Comma` is declared but never produced. */
  datatype TokenType =
    | LParen | RParen | End | If | Else | Integer | Identifier | Var | Fun
    | Add | Sub | Mod | Div | Mul | Pow | Colon | Assign | EqualsEquals
    | NotEquals | LessThan | LessThanEquals | GreaterThan | GreaterThanEquals
    | AndAnd | OrOr | Newline | Comma | Not | EndOfFile | String | For | Do | Then

  datatype Token = Token(kind: TokenType, contents: string, pos: Position)

  /** The end-of-file token that closes every token list. */
  const EOF: Token := Token(EndOfFile, "<EOF>", Position(0, 0, 0, ""))

  /** The reserved words and the kinds they lex to. */
  const KEYWORDS: map<string, TokenType> := map[
    "else" := Else, "if" := If, "end" := End, "fun" := Fun,
    "for" := For, "do" := Do, "var" := Var, "then" := Then]

  /** The kinds a scanned word can have. */
  const WORD_KINDS: set<TokenType> := {Identifier, Else, If, End, Fun, For, Do, Var, Then}

  /** The kind of a scanned word: its keyword kind, or `Identifier`. */
  function WordKind(word: string): (k: TokenType)
    ensures word in KEYWORDS ==> k == KEYWORDS[word]
    ensures word !in KEYWORDS ==> k == Identifier
    ensures k in WORD_KINDS
  {
    if word in KEYWORDS then KEYWORDS[word] else Identifier
  }

  /** Why scanning stopped. */
  datatype LexError =
    | ExpectedChar(expected: char, got: char, at: Position)
    | NothingToEscape(at: Position)
    | UnexpectedEscape(got: char, at: Position)
    | InvalidCharacter(got: char, at: Position)
    | UnterminatedComment(at: Position)

  /** ASCII letters; the scanner's letter class. */
  predicate IsLetter(c: char) {
    'a' <= c <= 'z' || 'A' <= c <= 'Z'
  }

  predicate IsIdentifierStart(c: char) {
    IsLetter(c) || c == '_'
  }

  predicate IsIdentifierContinue(c: char) {
    IsIdentifierStart(c) || JavaLang.IsDigit(c)
  }

  const NUL: char := 0 as char
  const BACKSPACE: char := 8 as char

  /** The character at `i`, or NUL outside the text. */
  function CharAt(text: string, i: int): (c: char)
    ensures c != NUL ==> 0 <= i < |text|
    ensures 0 <= i < |text| ==> c == text[i]
  {
    if 0 <= i < |text| then text[i] else NUL
  }

  /** The position a scan starts from. */
  function Start(fileName: string): Position {
    Position(0, 1, 1, fileName)
  }

  /**
   * One step of the cursor: the index and column move on by one, and
   * landing on a line break starts a new row at column 0.
   */
  function Advance(text: string, p: Position): (q: Position)
    ensures q.index == p.index + 1 && q.fileName == p.fileName
  {
    var index := p.index + 1;
    if CharAt(text, index) == '\n' then
      Position(index, 0, p.row + 1, p.fileName)
    else
      Position(index, p.column + 1, p.row, p.fileName)
  }

  // ---------------------------------------------------------------------------
  // Rows and columns as functions of the index alone

  function Min(a: int, b: int): int {
    if a < b then a else b
  }

  /** The line breaks the cursor has landed on by index `i` (the first character is never landed on). */
  function Breaks(text: string, i: int): nat {
    if i < 1 || |text| <= 1 then 0 else multiset(text[1..Min(i + 1, |text|)])['\n']
  }

  /** The last line break at or before `i` that the cursor lands on, or -1. */
  function LastBreak(text: string, i: int): (j: int)
    decreases i
    ensures j == -1 || (1 <= j <= i && j < |text| && text[j] == '\n')
    ensures forall k :: j < k <= i && 1 <= k < |text| ==> text[k] != '\n'
  {
    if i < 1 then -1
    else if i < |text| && text[i] == '\n' then i
    else LastBreak(text, i - 1)
  }

  /** `p`'s row and column are those of its index: row one plus the breaks so far, column the distance from the last break. */
  predicate Tracked(text: string, p: Position) {
    p.index >= 0 && p.row == 1 + Breaks(text, p.index) && p.column == p.index - LastBreak(text, p.index)
  }

  /** Advancing keeps the row and column in step with the index. */
  lemma AdvanceTracked(text: string, p: Position)
    ensures Tracked(text, p) ==> Tracked(text, Advance(text, p))
  {
    var i := p.index + 1;
    if Tracked(text, p) && 1 < |text| {
      if i < |text| {
        assert text[1..i + 1] == text[1..i] + [text[i]];
      } else {
        assert Min(i + 1, |text|) == Min(i, |text|);
      }
    }
  }

  lemma StartTracked(text: string, fileName: string)
    ensures Tracked(text, Start(fileName))
  {
  }

  // ---------------------------------------------------------------------------
  // The sub-scanners of one loop turn

  /** What a run of letters or digits is made of. */
  datatype RunKind = Word | Number

  predicate InRun(kind: RunKind, c: char) {
    match kind
    case Word => IsIdentifierContinue(c)
    case Number => JavaLang.IsDigit(c)
  }

  datatype Scanned = Scanned(text: string, pos: Position)

  /**
   * Collects characters while they belong to the run: the result is the
   * longest run starting at `p`, and the cursor stops on the first character
   * outside it.
   */
  function Run(text: string, p: Position, kind: RunKind, acc: string): (r: Scanned)
    requires p.index >= 0
    decreases |text| - p.index
    ensures r.pos.index >= p.index && (r.pos.index > p.index ==> r.pos.index <= |text|)
    ensures r.pos.fileName == p.fileName
    ensures r.pos.index <= |text| ==> r.text == acc + text[p.index..r.pos.index]
    ensures forall k :: p.index <= k < r.pos.index ==> InRun(kind, CharAt(text, k))
    ensures !InRun(kind, CharAt(text, r.pos.index))
    ensures Tracked(text, p) ==> Tracked(text, r.pos)
  {
    var c := CharAt(text, p.index);
    if InRun(kind, c) then
      AdvanceTracked(text, p);
      Run(text, Advance(text, p), kind, acc + [c])
    else
      Scanned(acc, p)
  }

  /**
   * Where a `//` comment ends: the line break that stops it, which is left
   * for the next turn. With no line break ahead the comment never ends
   * (`None`).
   */
  function LineCommentEnd(text: string, p: Position): (r: Option<Position>)
    requires p.index >= 0
    decreases |text| - p.index
    ensures r.Some? ==> p.index <= r.value.index < |text| && text[r.value.index] == '\n'
    ensures r.Some? ==> forall k :: p.index <= k < r.value.index ==> text[k] != '\n'
    ensures r.None? <==> forall k :: p.index <= k < |text| ==> text[k] != '\n'
    ensures r.Some? ==> r.value.fileName == p.fileName && (Tracked(text, p) ==> Tracked(text, r.value))
  {
    if CharAt(text, p.index) == '\n' then Some(p)
    else if p.index >= |text| then None
    else
      AdvanceTracked(text, p);
      LineCommentEnd(text, Advance(text, p))
  }

  /** A star-slash begins at `k`. */
  predicate ClosesAt(text: string, k: int) {
    0 <= k && k + 1 < |text| && text[k] == '*' && text[k + 1] == '/'
  }

  // Where a block comment's closing star-slash begins, searching from `p`;
  // `None` when none follows, where the comment never ends.
  function BlockCommentEnd(text: string, p: Position): (r: Option<Position>)
    requires p.index >= 0
    decreases |text| - p.index
    ensures r.Some? ==> p.index <= r.value.index && ClosesAt(text, r.value.index)
    ensures r.Some? ==> forall k :: p.index <= k < r.value.index ==> !ClosesAt(text, k)
    ensures r.None? <==> forall k :: p.index <= k ==> !ClosesAt(text, k)
    ensures r.Some? ==> r.value.fileName == p.fileName && (Tracked(text, p) ==> Tracked(text, r.value))
  {
    if CharAt(text, p.index) == '*' && CharAt(text, p.index + 1) == '/' then
      assert ClosesAt(text, p.index);
      Some(p)
    else if p.index >= |text| then None
    else
      AdvanceTracked(text, p);
      BlockCommentEnd(text, Advance(text, p))
  }

  /** The character a backslash escape stands for: only `\n \r \b \0 \"` are known. */
  function EscapeOf(c: char): (r: Option<char>)
    ensures r.Some? <==> c in {'n', 'r', 'b', '0', '"'}
  {
    if c == 'n' then Some('\n')
    else if c == 'r' then Some('\r')
    else if c == 'b' then Some(BACKSPACE)
    else if c == '0' then Some(NUL)
    else if c == '"' then Some('"')
    else None
  }

  datatype Escaped = Escaped(ch: char, pos: Position)

  /** Decodes the escape at `p`: a backslash and a known escape letter, both consumed. */
  function Unescape(text: string, p: Position): (r: Result<Escaped, LexError>)
    ensures r.Ok? <==> CharAt(text, p.index) == '\\' && EscapeOf(CharAt(text, p.index + 1)).Some?
    ensures r.Ok? ==> r.value.ch == EscapeOf(CharAt(text, p.index + 1)).value
    ensures r.Ok? ==> r.value.pos.index == p.index + 2 <= |text| && r.value.pos.fileName == p.fileName
    ensures r.Ok? && Tracked(text, p) ==> Tracked(text, r.value.pos)
  {
    if CharAt(text, p.index) != '\\' then Err(NothingToEscape(p))
    else
      var q := Advance(text, p);
      AdvanceTracked(text, p);
      AdvanceTracked(text, q);
      match EscapeOf(CharAt(text, q.index))
      case Some(e) => Ok(Escaped(e, Advance(text, q)))
      case None => Err(UnexpectedEscape(CharAt(text, q.index), q))
  }

  /**
   * What the raw text of a string body stands for: each backslash and the
   * known escape letter after it decoded, every other character kept. None
   * when the raw text holds a bare quote or an escape that is not known.
   */
  function Decode(raw: string): (r: Option<string>)
    decreases |raw|
  {
    if raw == [] then Some([])
    else if raw[0] == '"' then None
    else if raw[0] == '\\' then
      if |raw| >= 2 && EscapeOf(raw[1]).Some? then
        match Decode(raw[2..])
        case Some(rest) => Some([EscapeOf(raw[1]).value] + rest)
        case None => None
      else None
    else
      match Decode(raw[1..])
      case Some(rest) => Some([raw[0]] + rest)
      case None => None
  }

  /** The characters the cursor reads: the text, then NUL. */
  function Padded(text: string): (t: string)
    ensures |t| == |text| + 1
  {
    text + [NUL]
  }

  /**
   * The body of a string literal from `p` on: characters are kept and
   * escapes decoded until the closing quote, which is left for the caller to
   * skip. At the end of the text the literal simply stops, after keeping the
   * NUL that the cursor reads there.
   */
  function StringBody(text: string, p: Position, acc: string): (r: Result<Scanned, LexError>)
    requires 0 <= p.index <= |text|
    decreases |text| - p.index
    ensures r.Ok? ==> p.index <= r.value.pos.index <= |text| + 1 && r.value.pos.fileName == p.fileName
    ensures r.Ok? ==> CharAt(text, r.value.pos.index) in {'"', NUL}
    ensures r.Ok? ==> |acc| <= |r.value.text| && r.value.text[..|acc|] == acc
    ensures r.Ok? && Tracked(text, p) ==> Tracked(text, r.value.pos)
  {
    var c := CharAt(text, p.index);
    if c == '"' then Ok(Scanned(acc, p))
    else if c == '\\' then
      var e :- Unescape(text, p);
      StringBody(text, e.pos, acc + [e.ch])
    else
      var q := Advance(text, p);
      AdvanceTracked(text, p);
      if CharAt(text, q.index) == NUL then Ok(Scanned(acc + [c], q))
      else StringBody(text, q, acc + [c])
  }

  // ---------------------------------------------------------------------------
  // One turn of the main loop, and the whole scan

  datatype Lexed = Lexed(pos: Position, tokens: seq<Token>)

  /** An operator token: its kind and its text. */
  datatype Op = Op(kind: TokenType, contents: string)

  /**
   * The operator that starts with `c`, followed by `d`: `+ - * % ^ ( ) :`
   * stand alone; `==`, `&&` and `||` need their second character; `!`, `>`
   * and `<` take a following `=` (and `<` a following `-`) when there is one.
   */
  function Operator(c: char, d: char): (r: Option<Op>)
    ensures r.Some? ==> 1 <= |r.value.contents| <= 2 && r.value.contents[0] == c
    ensures r.Some? && |r.value.contents| == 2 ==> r.value.contents[1] == d
    ensures r.Some? ==> r.value.kind !in {Newline, String, Integer, Identifier, EndOfFile, Comma}
    ensures r.Some? ==> r.value.kind !in {Else, If, End, Fun, For, Do, Var, Then}
  {
    if c == '+' then Some(Op(Add, "+"))
    else if c == '-' then Some(Op(Sub, "-"))
    else if c == '*' then Some(Op(Mul, "*"))
    else if c == '%' then Some(Op(Mod, "%"))
    else if c == '^' then Some(Op(Pow, "^"))
    else if c == '(' then Some(Op(LParen, "("))
    else if c == ')' then Some(Op(RParen, ")"))
    else if c == ':' then Some(Op(Colon, ":"))
    else if c == '=' then (if d == '=' then Some(Op(EqualsEquals, "==")) else None)
    else if c == '&' then (if d == '&' then Some(Op(AndAnd, "&&")) else None)
    else if c == '|' then (if d == '|' then Some(Op(OrOr, "||")) else None)
    else if c == '!' then Some(if d == '=' then Op(NotEquals, "!=") else Op(Not, "!"))
    else if c == '>' then Some(if d == '=' then Op(GreaterThanEquals, ">=") else Op(GreaterThan, ">"))
    else if c == '<' then
      Some(if d == '-' then Op(Assign, "<-") else if d == '=' then Op(LessThanEquals, "<=") else Op(LessThan, "<"))
    else None
  }

  /** Adds a Newline token unless there are no tokens yet or the last one is a Newline already. */
  function AddNewline(tokens: seq<Token>, contents: string, at: Position): seq<Token> {
    if tokens == [] || tokens[|tokens| - 1].kind == Newline then tokens
    else tokens + [Token(Newline, contents, at)]
  }

  /**
   * `tokens` is `acc` with at most one token added, which begins at `at`,
   * is neither EOF nor a comma, and is a Newline only after a token that
   * is not one.
   */
  predicate Appends(acc: seq<Token>, tokens: seq<Token>, at: Position) {
    |acc| <= |tokens| <= |acc| + 1 && tokens[..|acc|] == acc &&
    (|tokens| > |acc| ==>
      var t := tokens[|acc|];
      t.pos == at && t.kind != EndOfFile && t.kind != Comma &&
      (t.kind == Newline ==> acc != [] && acc[|acc| - 1].kind != Newline))
  }

  /** `w` is the longest run of `kind` characters that starts at index `i`. */
  predicate LongestRunAt(text: string, i: int, w: string, kind: RunKind) {
    0 <= i && i + |w| <= |text| && w == text[i..i + |w|] && |w| > 0 &&
    (forall k :: 0 <= k < |w| ==> InRun(kind, w[k])) && !InRun(kind, CharAt(text, i + |w|))
  }

  /**
   * What a token says about the text at its position: except for line
   * breaks and string literals its contents are the text found there; a
   * number is a longest run of digits; a word is a longest run of letters,
   * digits and underscores that starts with a letter or underscore, and its
   * kind is its keyword kind, if any.
   */
  predicate TokenFits(text: string, t: Token) {
    var i := t.pos.index;
    (t.kind !in {Newline, String} ==> 0 <= i && i + |t.contents| <= |text| && t.contents == text[i..i + |t.contents|]) &&
    (t.kind == Integer ==> LongestRunAt(text, i, t.contents, Number)) &&
    (t.kind in WORD_KINDS ==>
      LongestRunAt(text, i, t.contents, Word) && IsIdentifierStart(t.contents[0]) && t.kind == WordKind(t.contents))
  }

  /** A turn on an operator character, or on a character that starts nothing. */
  function OperatorStep(text: string, p: Position, acc: seq<Token>): (r: Result<Lexed, LexError>)
    requires p.index >= 0 && CharAt(text, p.index) != NUL
    ensures r.Ok? ==> p.index < r.value.pos.index && r.value.pos.fileName == p.fileName
    ensures r.Ok? ==> Appends(acc, r.value.tokens, p)
    ensures r.Ok? && Tracked(text, p) ==> Tracked(text, r.value.pos)
  {
    var c := CharAt(text, p.index);
    var q := Advance(text, p);
    var d := CharAt(text, q.index);
    AdvanceTracked(text, p);
    AdvanceTracked(text, q);
    if c in {'=', '&', '|'} && d != c then Err(ExpectedChar(c, d, q))
    else
      match Operator(c, d)
      case Some(op) =>
        Ok(Lexed(if |op.contents| == 1 then q else Advance(text, q), acc + [Token(op.kind, op.contents, p)]))
      case None => Err(InvalidCharacter(c, p))
  }

  /**
   * A turn on `/`: a line comment, a block comment, or a division sign.
   * The division sign consumes the character after it as well.
   */
  function SlashStep(text: string, p: Position, acc: seq<Token>): (r: Result<Lexed, LexError>)
    requires p.index >= 0 && CharAt(text, p.index) == '/'
    ensures r.Ok? ==> p.index < r.value.pos.index && r.value.pos.fileName == p.fileName
    ensures r.Ok? ==> Appends(acc, r.value.tokens, p)
    ensures r.Ok? && Tracked(text, p) ==> Tracked(text, r.value.pos)
  {
    var q := Advance(text, p);
    var d := CharAt(text, q.index);
    AdvanceTracked(text, p);
    AdvanceTracked(text, q);
    if d == '/' then
      match LineCommentEnd(text, q)
      case Some(e) => Ok(Lexed(e, acc))
      case None => Err(UnterminatedComment(p))
    else if d == '*' then
      match BlockCommentEnd(text, Advance(text, q))
      case Some(e) =>
        AdvanceTracked(text, e);
        AdvanceTracked(text, Advance(text, e));
        Ok(Lexed(Advance(text, Advance(text, e)), acc))
      case None => Err(UnterminatedComment(p))
    else
      Ok(Lexed(Advance(text, q), acc + [Token(Div, "/", p)]))
  }

  /** A turn on `"`: a string literal, its closing quote consumed. */
  function StringStep(text: string, p: Position, acc: seq<Token>): (r: Result<Lexed, LexError>)
    requires 0 <= p.index < |text| && text[p.index] == '"'
    ensures r.Ok? ==> p.index < r.value.pos.index && r.value.pos.fileName == p.fileName
    ensures r.Ok? ==> Appends(acc, r.value.tokens, p)
    ensures r.Ok? && Tracked(text, p) ==> Tracked(text, r.value.pos)
  {
    var q := Advance(text, p);
    AdvanceTracked(text, p);
    var s :- StringBody(text, q, "");
    AdvanceTracked(text, s.pos);
    Ok(Lexed(Advance(text, s.pos), acc + [Token(String, s.text, p)]))
  }

  /** A turn on a letter, underscore or digit: a word (keyword or identifier) or a number. */
  function RunStep(text: string, p: Position, acc: seq<Token>, kind: RunKind): (r: Result<Lexed, LexError>)
    requires p.index >= 0 && InRun(kind, CharAt(text, p.index))
    ensures r.Ok? ==> p.index < r.value.pos.index && r.value.pos.fileName == p.fileName
    ensures r.Ok? ==> Appends(acc, r.value.tokens, p)
    ensures r.Ok? && Tracked(text, p) ==> Tracked(text, r.value.pos)
  {
    var w := Run(text, p, kind, "");
    Ok(Lexed(w.pos, acc + [Token(if kind == Word then WordKind(w.text) else Integer, w.text, p)]))
  }

  /**
   * One turn of the main loop, begun at `p` on a character that is not NUL:
   * it consumes at least one character and adds at most one token.
   */
  function Step(text: string, p: Position, acc: seq<Token>): (r: Result<Lexed, LexError>)
    requires p.index >= 0 && CharAt(text, p.index) != NUL
    ensures r.Ok? ==> p.index < r.value.pos.index && r.value.pos.fileName == p.fileName
    ensures r.Ok? ==> Appends(acc, r.value.tokens, p)
    ensures r.Ok? && Tracked(text, p) ==> Tracked(text, r.value.pos)
  {
    var c := CharAt(text, p.index);
    AdvanceTracked(text, p);
    if c == ' ' then Ok(Lexed(Advance(text, p), acc))
    else if c == ';' then Ok(Lexed(Advance(text, p), AddNewline(acc, ";", p)))
    else if c == '\n' then Ok(Lexed(Advance(text, p), AddNewline(acc, "\\n", p)))
    else if c == '/' then SlashStep(text, p, acc)
    else if c == '"' then StringStep(text, p, acc)
    else if IsIdentifierStart(c) then RunStep(text, p, acc, Word)
    else if JavaLang.IsDigit(c) then RunStep(text, p, acc, Number)
    else OperatorStep(text, p, acc)
  }

  /** The scan from `p` on, with `acc` scanned so far: turns until NUL, then EOF. */
  function LexFrom(text: string, p: Position, acc: seq<Token>): Result<seq<Token>, LexError>
    requires p.index >= 0
    decreases |text| - p.index
  {
    if CharAt(text, p.index) == NUL then Ok(acc + [EOF])
    else
      var l :- Step(text, p, acc);
      LexFrom(text, l.pos, l.tokens)
  }

  /** The token list of a whole source text, or the error that stops the scan. */
  function LexSpec(text: string, fileName: string): Result<seq<Token>, LexError> {
    LexFrom(text, Start(fileName), [])
  }

  // ---------------------------------------------------------------------------
  // The scanner itself

  /** The scanner's state: the text, the cursor, where the current token began, and the tokens so far. */
  class LexState {
    const text: string
    var pos: Position
    var begin: Position
    var tokens: seq<Token>

    constructor (text: string, fileName: string)
      ensures this.text == text && pos == Start(fileName) && begin == pos && tokens == []
    {
      this.text := text;
      pos := Start(fileName);
      begin := Start(fileName);
      tokens := [];
    }

    /** The character under the cursor, NUL outside the text. */
    function Cur(): char
      reads this
    {
      CharAt(text, pos.index)
    }

    /** The character `rel` places after the cursor, NUL outside the text. */
    function Relative(rel: int): char
      reads this
    {
      CharAt(text, pos.index + rel)
    }

    /** Moves the cursor one character on. */
    method Adv()
      modifies this
      ensures pos == Advance(text, old(pos))
      ensures begin == old(begin) && tokens == old(tokens)
    {
      var index := pos.index + 1;
      var column := pos.column + 1;
      var row := pos.row;
      if CharAt(text, index) == '\n' {
        row := row + 1;
        column := 0;
      }
      pos := Position(index, column, row, pos.fileName);
    }

    /** Adds a token that begins where the current one began. */
    method Add(kind: TokenType, contents: string)
      modifies this
      ensures tokens == old(tokens) + [Token(kind, contents, begin)]
      ensures pos == old(pos) && begin == old(begin)
    {
      tokens := tokens + [Token(kind, contents, begin)];
    }

    /** Decodes the escape under the cursor. */
    method Escape() returns (r: Result<char, LexError>)
      modifies this
      ensures var u := Unescape(text, old(pos));
        && (u.Ok? ==> r == Ok(u.value.ch) && pos == u.value.pos)
        && (u.Err? ==> r == Err(u.error))
      ensures begin == old(begin) && tokens == old(tokens)
    {
      if Cur() != '\\' {
        return Err(NothingToEscape(pos));
      }
      Adv();
      var e := EscapeOf(Cur());
      if e.None? {
        return Err(UnexpectedEscape(Cur(), pos));
      }
      Adv();
      return Ok(e.value);
    }

    /** Skips a `//` comment up to the line break that ends it. */
    method SkipLineComment() returns (ended: bool)
      requires pos.index >= 0
      modifies this
      ensures var e := LineCommentEnd(text, old(pos));
        && (ended <==> e.Some?)
        && (e.Some? ==> pos == e.value)
      ensures begin == old(begin) && tokens == old(tokens)
    {
      while Cur() != '\n'
        invariant pos.index >= 0 && begin == old(begin) && tokens == old(tokens)
        invariant LineCommentEnd(text, pos) == LineCommentEnd(text, old(pos))
        decreases |text| - pos.index
      {
        if pos.index >= |text| {
          return false;
        }
        Adv();
      }
      return true;
    }

    /** Skips a block comment's body up to its closing star-slash, which is left under the cursor. */
    method SkipBlockComment() returns (ended: bool)
      requires pos.index >= 0
      modifies this
      ensures var e := BlockCommentEnd(text, old(pos));
        && (ended <==> e.Some?)
        && (e.Some? ==> pos == e.value)
      ensures begin == old(begin) && tokens == old(tokens)
    {
      while Cur() != '*' || Relative(1) != '/'
        invariant pos.index >= 0 && begin == old(begin) && tokens == old(tokens)
        invariant BlockCommentEnd(text, pos) == BlockCommentEnd(text, old(pos))
        decreases |text| - pos.index
      {
        if pos.index >= |text| {
          return false;
        }
        Adv();
      }
      return true;
    }

    /** Scans a string literal's body, the cursor just past the opening quote. */
    method ScanString() returns (r: Result<string, LexError>)
      requires 0 <= pos.index <= |text|
      modifies this
      ensures var b := StringBody(text, old(pos), "");
        && (b.Ok? ==> r == Ok(b.value.text) && pos == b.value.pos)
        && (b.Err? ==> r == Err(b.error))
      ensures begin == old(begin) && tokens == old(tokens)
    {
      var sb := "";
      while Cur() != '"'
        invariant 0 <= pos.index <= |text| && begin == old(begin) && tokens == old(tokens)
        invariant StringBody(text, pos, sb) == StringBody(text, old(pos), "")
        decreases |text| - pos.index
      {
        if Cur() == '\\' {
          var e := Escape();
          if e.Err? {
            return Err(e.error);
          }
          sb := sb + [e.value];
          continue;
        }
        sb := sb + [Cur()];
        Adv();
        if Cur() == NUL {
          break;
        }
      }
      return Ok(sb);
    }

    /** Collects the run of letters or digits that starts under the cursor. */
    method ScanRun(kind: RunKind) returns (run: string)
      requires pos.index >= 0
      modifies this
      ensures var w := Run(text, old(pos), kind, "");
        run == w.text && pos == w.pos
      ensures begin == old(begin) && tokens == old(tokens)
    {
      run := "";
      while InRun(kind, Cur())
        invariant pos.index >= 0 && begin == old(begin) && tokens == old(tokens)
        invariant Run(text, pos, kind, run) == Run(text, old(pos), kind, "")
        decreases |text| - pos.index
      {
        run := run + [Cur()];
        Adv();
      }
    }

    /** One turn of the main loop: `None` when it went through, the error when it stopped. */
    method LexStep() returns (err: Option<LexError>)
      requires pos.index >= 0 && Cur() != NUL
      modifies this
      ensures var l := Step(text, old(pos), old(tokens));
        && (l.Ok? ==> err.None? && pos == l.value.pos && tokens == l.value.tokens)
        && (l.Err? ==> err == Some(l.error))
    {
      begin := pos;
      var c := Cur();
      if c == ' ' {
        Adv();
      } else if c == ';' {
        Adv();
        if tokens == [] || tokens[|tokens| - 1].kind == Newline {
          return None;
        }
        Add(Newline, ";");
      } else if c == '/' {
        err := LexSlash();
        return;
      } else if c == '\n' {
        Adv();
        if tokens == [] || tokens[|tokens| - 1].kind == Newline {
          return None;
        }
        Add(Newline, "\\n");
      } else if c == '"' {
        err := LexString();
        return;
      } else if IsIdentifierStart(c) {
        var word := ScanRun(Word);
        Add(WordKind(word), word);
      } else if JavaLang.IsDigit(c) {
        var number := ScanRun(Number);
        Add(Integer, number);
      } else {
        err := LexOperator();
        return;
      }
      return None;
    }

    /** A turn on an operator character, or on one that starts nothing. */
    method LexOperator() returns (err: Option<LexError>)
      requires pos.index >= 0 && Cur() != NUL && begin == pos
      modifies this
      ensures var l := OperatorStep(text, old(pos), old(tokens));
        && (l.Ok? ==> err.None? && pos == l.value.pos && tokens == l.value.tokens)
        && (l.Err? ==> err == Some(l.error))
    {
      var c := Cur();
      if c in {'+', '-', '*', '%', '^', '(', ')', ':'} {
        Add(Operator(c, Relative(1)).value.kind, [c]);
        Adv();
      } else if c in {'=', '&', '|'} {
        Adv();
        if Cur() != c {
          return Some(ExpectedChar(c, Cur(), pos));
        }
        Adv();
        Add(Operator(c, c).value.kind, [c, c]);
      } else if c == '!' {
        Adv();
        if Cur() == '=' {
          Adv();
          Add(NotEquals, "!=");
        } else {
          Add(Not, "!");
        }
      } else if c == '>' {
        Adv();
        if Cur() == '=' {
          Adv();
          Add(GreaterThanEquals, ">=");
        } else {
          Add(GreaterThan, ">");
        }
      } else if c == '<' {
        Adv();
        if Cur() == '-' {
          Adv();
          Add(Assign, "<-");
        } else if Cur() == '=' {
          Adv();
          Add(LessThanEquals, "<=");
        } else {
          Add(LessThan, "<");
        }
      } else {
        return Some(InvalidCharacter(c, pos));
      }
      return None;
    }

    /** A turn on `/`: a comment, skipped, or a division sign, which takes the next character with it. */
    method LexSlash() returns (err: Option<LexError>)
      requires pos.index >= 0 && Cur() == '/' && begin == pos
      modifies this
      ensures var l := SlashStep(text, old(pos), old(tokens));
        && (l.Ok? ==> err.None? && pos == l.value.pos && tokens == l.value.tokens)
        && (l.Err? ==> err == Some(l.error))
    {
      Adv();
      if Cur() == '/' {
        var ended := SkipLineComment();
        if !ended {
          return Some(UnterminatedComment(begin));
        }
        return None;
      } else if Cur() == '*' {
        Adv();
        var ended := SkipBlockComment();
        if !ended {
          return Some(UnterminatedComment(begin));
        }
        Adv();
        Adv();
        return None;
      }
      Add(Div, "/");
      Adv();
      return None;
    }

    /** A turn on `"`: the literal's body, then its closing quote. */
    method LexString() returns (err: Option<LexError>)
      requires 0 <= pos.index < |text| && text[pos.index] == '"' && begin == pos
      modifies this
      ensures var l := StringStep(text, old(pos), old(tokens));
        && (l.Ok? ==> err.None? && pos == l.value.pos && tokens == l.value.tokens)
        && (l.Err? ==> err == Some(l.error))
    {
      Adv();
      var body := ScanString();
      if body.Err? {
        return Some(body.error);
      }
      Adv();
      Add(String, body.value);
      return None;
    }
  }

  /** Scans a whole source text: exactly the token list, or the error, that `LexSpec` describes. */
  method Lex(text: string, fileName: string) returns (r: Result<seq<Token>, LexError>)
    ensures r == LexSpec(text, fileName)
  {
    var s := new LexState(text, fileName);
    while s.Cur() != NUL
      invariant s.text == text && s.pos.index >= 0
      invariant LexFrom(text, s.pos, s.tokens) == LexSpec(text, fileName)
      decreases |text| - s.pos.index
    {
      var err := s.LexStep();
      if err.Some? {
        return Err(err.value);
      }
    }
    s.tokens := s.tokens + [EOF];
    return Ok(s.tokens);
  }
}
