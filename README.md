# avaj in Dafny

A model of the core of *avaj*, a small dynamically typed scripting language
with a tree-walking interpreter written in Java. The model has the three
stages of that interpreter:

- **The scanner** (`lexer.dfy`, module `Lexer`). A class `LexState` holds
  the text, a cursor position (index, column, row, file) and the token
  list. One loop turns characters into typed tokens, and the method `Lex`
  is proved to compute exactly `LexSpec`. `LexSpec` is a pure description
  of one turn of the loop (`Step`), run until the text ends, with the EOF
  token appended. `lexer_facts.dfy` proves what every scan guarantees:
  - EOF comes last and appears nowhere else;
  - no Newline comes first and no two come in a row;
  - every token carries the row and column of its index and fits the text
    there;
  - words and numbers are longest runs, and keywords are mapped;
  - plus the operator, escape and comment rules.
- **The parser** (`parser.dfy`, module `Parser`). A cursor `State` over the
  token list, with one method per grammar rule. Each method is proved to
  agree with a pure reference grammar (`grammar.dfy`, module `Grammar`): the
  same node, the same cursor afterwards, the same error. `grammar_facts.dfy`
  proves:
  - for every token list, the precedence of each pair of binary-operator
    levels on three operands (`TighterOnRight`, `TighterOnLeft`), left
    nesting of two operators of one level (`SameLevelNestsLeft`), and right
    nesting of `^` (`PowNestsRight`); longer chains and prefix operators
    are shown on examples only;
  - greediness of expressions;
  - the prefix forms;
  - the program rule (a block, then EndOfFile), the whole `for` rule with
    its terminator consumed unchecked, the closing `end` of `if` and `fun`,
    and the block's one-Newline rule, for every token list;
  - the call and integer-literal rules.

  The scanner never produces a Comma token (`LexerFacts.NoCommaToken`),
  so in practice argument and parameter lists have at most one element;
  the grammar still models the comma loops as the code writes them.
- **The interpreter** (`values.dfy`, `scope.dfy`, `calls.dfy`,
  `interpreter.dfy`, `main.dfy`):
  - Integers and strings are cells (classes `IntegerValue`, `StringValue`).
    `<-` overwrites them in place, and a variable access or declaration
    shares the very same cell.
  - A `SymbolTable` class has a parent link. `Get` caches what it finds in
    every table on the way down; `scope.dfy` proves the cache holds the
    same value and never changes what any name resolves to.
  - The operator tables of the value kinds are pure functions of the
    operands' payloads (`Binary`). `value_facts.dfy` proves Java's 32-bit
    arithmetic, the one-sided `+`, repetition, string ordering, truth
    tables and the overload keys.
  - Each node kind has an evaluator method, with fuel. `semantics.dfy`
    (module `Semantics`) describes evaluation as pure functions over a
    store of numbered tables and cells (`machine.dfy`, module `Machine`).
    Each evaluator is proved to compute the function of the same name: the
    heap afterwards is the store it gives, under a numbering that only adds
    new objects, and the result agrees with its result.
    `semantics_facts.dfy` proves, for all inputs, what the evaluator
    promises: stores only grow, a block gives its last value, `if` runs the
    first truthy arm, a declaration binds the initialiser's value, an
    operator acts on its operands' payloads, a loop gives void, and a call
    runs its body in a new child of the caller's table holding the
    parameters.
  - `Program.Run` chains lexing, parsing, the global table of builtins and
    interpretation.

Where the prose description of the language and the Java code differ, the
model follows the code:

- `Integer + String` is an error; only `String + Integer` concatenates.
- Asking the void value for its truth is an error, not `false`.
- `||` and `&&` evaluate both operands, but Java's own short circuit skips
  the right operand's truth check when the left operand decides. So
  `1 || x` is 1 even when `x` is void.
- A `for` loop's body may end with any token, which is consumed unchecked.

The scanner also keeps a quirk of the code: after a division sign it skips
the next character whatever it is (`LexerFacts.DivisionSkipsNextChar`).
So `6/2` scans as `6 /`.

Platform behaviour is written out in `java_lang.dfy` (module `JavaLang`):
- `int` wrap-around;
- truncating `/` and `%`;
- `(int) Math.pow`;
- `Integer.toString` and `Integer.parseInt`;
- `String.repeat` and `String.compareTo`.

## Model

| member | source | states |
|---|---|---|
| Lexer.WordKind | src/Lexer.java:9-22 | a word in the keyword table gets its keyword kind; any other word is an Identifier |
| Lexer.CharAt | src/Lexer.java:275-288 | the character at an index inside the text, NUL anywhere outside it |
| Lexer.Advance | src/Lexer.java:290-300 | one step moves the index on by exactly one and keeps the file name |
| Lexer.AdvanceTracked | src/Lexer.java:290-300 | advancing keeps row and column equal to one plus the line breaks landed on and the distance from the last one |
| Lexer.StartTracked | src/Lexer.java:266-268 | the starting position (index 0, row 1, column 1) is tracked |
| Lexer.Run | src/Lexer.java:170-184 | a run scan returns exactly the longest run of letters/digits from the cursor and stops on the first character outside it |
| Lexer.LineCommentEnd | src/Lexer.java:70-74 | a `//` comment ends on the first line break, which it leaves unconsumed; it never ends when no line break follows |
| Lexer.BlockCommentEnd | src/Lexer.java:75-82 | a block comment ends at the first star-slash; it never ends when none follows |
| Lexer.EscapeOf | src/Lexer.java:24-44 | exactly the escapes `n r b 0 "` are known |
| Lexer.Unescape | src/Lexer.java:24-44 | an escape succeeds iff a backslash is followed by a known letter; it yields that letter's character and consumes both |
| Lexer.StringBody | src/Lexer.java:156-169 | a string body stops on the closing quote or at the end of the text, keeping what it read as a prefix; `LexerFacts.StringBodyDecodes` states what it holds |
| Lexer.Decode | src/Lexer.java:24-44 | what the raw text of a literal stands for: known escapes decoded, other characters kept, a bare quote or an unknown escape undecodable |
| Lexer.Operator | src/Lexer.java:59-155 | an operator token's text starts with its character and is one or two characters long; it is never a word, literal, Newline, EOF or comma |
| Lexer.OperatorStep | src/Lexer.java:50-155 | an operator turn consumes at least one character and adds at most one well-placed token |
| Lexer.SlashStep | src/Lexer.java:68-85 | a turn on `/` consumes input and adds at most one token |
| Lexer.StringStep | src/Lexer.java:156-169 | a string turn consumes input and adds at most one token |
| Lexer.RunStep | src/Lexer.java:170-184 | a word or number turn consumes input and adds at most one token |
| Lexer.Step | src/Lexer.java:48-187 | every turn of the main loop consumes at least one character and adds at most one token, never two Newlines in a row, and keeps the cursor tracked |
| Lexer.LexState.constructor | src/Lexer.java:258-269 | a fresh scanner holds the text, starts at the start position and has no tokens |
| Lexer.LexState.Adv | src/Lexer.java:290-300 | the cursor moves by `Advance`; nothing else changes |
| Lexer.LexState.Add | src/Lexer.java:271-273 | appends one token that begins where the current token began |
| Lexer.LexState.Escape | src/Lexer.java:24-44 | the escape method returns and consumes what `Unescape` describes |
| Lexer.LexState.SkipLineComment | src/Lexer.java:70-74 | the skip loop stops where `LineCommentEnd` says, or reports that the comment never ends |
| Lexer.LexState.SkipBlockComment | src/Lexer.java:75-79 | the skip loop stops where `BlockCommentEnd` says, or reports that the comment never ends |
| Lexer.LexState.ScanString | src/Lexer.java:157-167 | the string loop returns what `StringBody` describes |
| Lexer.LexState.ScanRun | src/Lexer.java:170-184 | the run loop collects exactly `Run`'s longest run |
| Lexer.LexState.LexStep | src/Lexer.java:49-187 | one turn of the loop updates cursor and tokens exactly as `Step` does, or fails with its error |
| Lexer.LexState.LexOperator | src/Lexer.java:59-155 | a turn on an operator character, or on an invalid one, updates cursor and tokens exactly as `OperatorStep` does, or fails with its error |
| Lexer.LexState.LexSlash | src/Lexer.java:68-85 | a turn on `/` skips a comment or adds the division sign exactly as `SlashStep` does, or reports the unterminated comment |
| Lexer.LexState.LexString | src/Lexer.java:156-169 | a turn on `"` adds the literal's unescaped body exactly as `StringStep` does, or fails with its error |
| Lexer.Lex | src/Lexer.java:46-192 | the scanner's result is exactly `LexSpec` |
| LexerFacts.OperatorStepFits | src/Lexer.java:59-155 | the token an operator turn adds is the operator's text at its position |
| LexerFacts.OperatorFits | src/Lexer.java:59-155 | an operator whose one or two characters stand at a position fits the text there |
| LexerFacts.RunStepFits | src/Lexer.java:170-184 | a word or number token is the longest run at its position; a word's kind is its keyword kind or Identifier |
| LexerFacts.RunLongest | src/Lexer.java:170-184 | the word or number scanned from a position is the longest run of its class there and begins with the character at that position |
| LexerFacts.RunIsLongest | src/Lexer.java:172-183 | characters all in the run class, stopped by one outside it, form the longest run at their start |
| LexerFacts.StepTokenFits | src/Lexer.java:48-187 | the token any turn adds fits the text where it begins |
| LexerFacts.NewlineFits | src/Lexer.java:52-58 | the token a `;` or line end adds, when it adds one, is a Newline at that position |
| LexerFacts.StringStepFits | src/Lexer.java:156-169 | a string literal turn adds exactly one String token; its contents are exactly the decoding of the raw characters between the opening quote and the closing quote (or the end of the text), escapes replaced by their characters |
| LexerFacts.SlashStepFits | src/Lexer.java:68-85 | the only token a turn on `/` adds is the division sign at the slash, and it fits there |
| LexerFacts.StepKeepsShape | src/Lexer.java:48-187 | a turn keeps the token list well spaced, in text order and placed |
| LexerFacts.AppendsShape | src/Lexer.java:48-187 | a turn leaves the token list as it was or adds exactly one token at its end |
| LexerFacts.ExtendShape | src/Lexer.java:48-187 | a token added where the scan stands, fitting the text there and not doubling a Newline, keeps the list well spaced and placed |
| LexerFacts.ExtendPlaced | src/Lexer.java:48-187 | a token added at an index past every earlier token keeps the list in text order and placed |
| LexerFacts.LexFromShape | src/Lexer.java:48-191 | a scan from any well-formed state ends with EOF after well-spaced, placed tokens |
| LexerFacts.LexShape | src/Lexer.java:46-192 | a successful scan ends with EOF and has it nowhere else; it never starts with a Newline or has two in a row; every other token is placed, fits the text and is in order |
| LexerFacts.CommentsAddNothing | src/Lexer.java:68-83 | comments add no token |
| LexerFacts.UnendedComments | src/Lexer.java:70-79 | a `//` comment with no later line break, or a block comment with no closing star-slash, is reported as unterminated |
| LexerFacts.DivisionSkipsNextChar | src/Lexer.java:68-85 | a division sign is added and the cursor moves two characters on, skipping the character after `/` |
| LexerFacts.RejectedCharacters | src/Lexer.java:108-128 | a lone `=`, `&` or `|` is an error, and so are a comma, a tab and a carriage return |
| LexerFacts.NewlineTokens | src/Lexer.java:52-58 | `;` and a line break both give a Newline token, and only after a token that is not a Newline |
| LexerFacts.DecodePlain | src/Lexer.java:156-169 | raw text with no backslash and no quote decodes to itself |
| LexerFacts.StringBodyDecodes | src/Lexer.java:156-169 | a string body that ends holds what it held before, followed by exactly the decoding of the raw characters it read |
| LexerFacts.NoCommaToken | src/Lexer.java:48-187 | no successful scan yields a Comma token |
| Grammar.Cur | src/Parser.java:548-553 | the current token is EOF past the end |
| Grammar.Next | src/Parser.java:555-558 | advancing moves on by one inside the list and never past its end |
| Grammar.Expect | src/Parser.java:26-29 | succeeds iff the current token has the expected kind; otherwise the error names the kind and the token |
| Grammar.LeftOf | src/Parser.java:84-158 | each level's left operand is parsed by the next tighter level |
| Grammar.Expr | src/Parser.java:76-78 | an expression consumes at least one token |
| Grammar.AtLevel | src/Parser.java:84-158 | a parse at any level consumes at least one token |
| Grammar.Maths | src/Parser.java:168-177 | the generic fold consumes at least one token |
| Grammar.MathsLoop | src/Parser.java:170-175 | the operator loop stops only at a token that is not one of its level's operators |
| Grammar.AtomAt | src/Parser.java:193-238 | an atom consumes at least one token |
| Grammar.CallArgs | src/Parser.java:222-226 | the argument loop keeps the arguments so far as a prefix and stops at a token that is not a comma |
| Grammar.Block | src/Parser.java:60-70 | a block stops at a terminator (EOF, end, else, do) without consuming it and yields a BlockNode; `GrammarFacts.SecondNewlineRejected` and `NewlineStartsNothing` state the one-Newline rule |
| Grammar.BlockFrom | src/Parser.java:62-68 | the block loop keeps the expressions so far as a prefix and stops at a terminator |
| Grammar.ForLoop | src/Parser.java:246-260 | a `for` form consumes at least one token; `GrammarFacts.ForLoopShape` states the whole rule |
| Grammar.VariableDeclaration | src/Parser.java:268-286 | a `var` form consumes at least one token |
| Grammar.IfBranch | src/Parser.java:294-306 | an `if` arm ends at a block terminator |
| Grammar.IfStatement | src/Parser.java:319-337 | an `if` statement consumes at least one token; `GrammarFacts.IfConsumesEnd` states that it ends with its `end` |
| Grammar.ElseArms | src/Parser.java:324-334 | the `else if` loop keeps the arms so far as a prefix |
| Grammar.ArgumentAt | src/Parser.java:345-356 | a parameter consumes at least one token |
| Grammar.Params | src/Parser.java:378-384 | the parameter loop keeps the parameters so far as a prefix and stops at a token that is not a comma |
| Grammar.FunctionDeclaration | src/Parser.java:367-390 | a `fun` form consumes at least one token |
| Grammar.Parse | src/Parser.java:36-43 | a parsed program is a BlockNode; `GrammarFacts.ParseIsBlockThenEof` states the whole rule |
| Parser.State.constructor | src/Parser.java:543-546 | a fresh cursor is at index 0 over the given tokens |
| Parser.State.Adv | src/Parser.java:555-558 | `adv` moves as `Next` says, never beyond the list |
| Parser.Parse | src/Parser.java:36-43 | the parser's result is exactly `Grammar.Parse` |
| Parser.Block | src/Parser.java:60-70 | the block loop agrees with `Grammar.Block` on node, final cursor and error |
| Parser.Expr | src/Parser.java:76-78 | agrees with `Grammar.Expr` |
| Parser.AtLevel | src/Parser.java:84-158 | each of the seven precedence levels, with the prefix forms, agrees with `Grammar.AtLevel` |
| Parser.Maths | src/Parser.java:168-177 | the fold loop agrees with `Grammar.Maths` |
| Parser.Atom | src/Parser.java:193-238 | agrees with `Grammar.AtomAt`, including the call-argument loop |
| Parser.ForLoop | src/Parser.java:246-260 | agrees with `Grammar.ForLoop` |
| Parser.VariableDeclaration | src/Parser.java:268-286 | agrees with `Grammar.VariableDeclaration` |
| Parser.IfBranch | src/Parser.java:294-306 | agrees with `Grammar.IfBranch` |
| Parser.IfStatement | src/Parser.java:319-337 | the `else if` loop agrees with `Grammar.IfStatement` |
| Parser.Argument | src/Parser.java:345-356 | agrees with `Grammar.ArgumentAt` |
| Parser.FunctionDeclaration | src/Parser.java:367-390 | the parameter loop and the body agree with `Grammar.FunctionDeclaration` |
| GrammarFacts.ExprIsGreedy | src/Parser.java:84-177 | a parsed expression is never followed by a binary operator of any level |
| GrammarFacts.OpsUpToMonotone | src/Parser.java:84-158 | each level can continue with the operators of every tighter level |
| GrammarFacts.OpNotTighter | src/Parser.java:84-158 | an operator of a level belongs to no tighter level |
| GrammarFacts.AtomLifts | src/Parser.java:84-177 | an atom followed by no operator of a level, with no prefix operator, is alone the parse at that level |
| GrammarFacts.Combine | src/Parser.java:168-177 | a left operand of a level, one of its operators, and a right operand with no operator after it form exactly one MathNode as the whole expression |
| GrammarFacts.Pair | src/Parser.java:168-177 | helper: two atoms joined by an operator of a level read as that MathNode at every looser level where no operator follows |
| GrammarFacts.PairEnd | src/Parser.java:168-177 | helper: two atoms joined by an operator with nothing after them read as that MathNode at every looser level |
| GrammarFacts.PairBefore | src/Parser.java:168-177 | helper: two atoms joined by an operator, followed by a looser operator, are that looser level's whole left operand |
| GrammarFacts.CombineAtomLeft | src/Parser.java:168-177 | helper: an atom, an operator and a right operand form one MathNode |
| GrammarFacts.CombineAtomRight | src/Parser.java:168-177 | helper: a left operand, an operator and an atom form one MathNode |
| GrammarFacts.TighterOnRight | src/Parser.java:84-177 | for all tokens and all level pairs: `a op1 b op2 c` with `op2` tighter than `op1` parses as `a op1 (b op2 c)` |
| GrammarFacts.TighterOnLeft | src/Parser.java:84-177 | for all tokens and all level pairs but `^` before `*`/`/`/`%`: `a op2 b op1 c` with `op2` tighter parses as `(a op2 b) op1 c` |
| GrammarFacts.LoopStepAtom | src/Parser.java:170-175 | helper: at an operator of a level other than `^`, the loop takes the atom after it as its right operand and continues |
| GrammarFacts.LoopTwice | src/Parser.java:170-175 | helper: two more operators of one level nest what came before as their left operand |
| GrammarFacts.SameLevelNestsLeft | src/Parser.java:168-177 | for all tokens: two operators of one level other than `^` nest to the left, `(a op b) op c` |
| GrammarFacts.PowNestsRight | src/Parser.java:156-158 | for all tokens: `a ^ b ^ c` parses as `a ^ (b ^ c)` |
| GrammarFacts.ParseIsBlockThenEof | src/Parser.java:36-43 | a program parses iff its block parses and is followed by EndOfFile; the program is that block, and a failing block is the program's error |
| GrammarFacts.ForLoopShape | src/Parser.java:246-260 | a `for` form parses iff `for`, a condition block, `do`, an optional Newline and a body block parse; it ends one token after the body, whatever terminator kind that token is |
| GrammarFacts.IfConsumesEnd | src/Parser.java:319-337 | an `if` statement starts at `if`, has at least one arm, and its last token is the `end` it requires |
| GrammarFacts.FunctionConsumesEnd | src/Parser.java:367-390 | a function declaration starts at `fun` and its last token is the `end` it requires |
| GrammarFacts.SecondNewlineRejected | src/Parser.java:62-68 | after an expression a block skips one Newline, and a second one is refused as an atom |
| GrammarFacts.NewlineStartsNothing | src/Parser.java:62-68 | a Newline where an expression should start is refused as an atom |
| GrammarFacts.NameAtom | src/Parser.java:218-233 | helper: a name not followed by `(` is a VariableAccessNode |
| GrammarFacts.Fold | src/Parser.java:168-177 | helper: without a prefix operator, a level is its left operand followed by its operator loop |
| GrammarFacts.LoopStop | src/Parser.java:170 | helper: the operator loop stops at a token that is not one of its level's operators |
| GrammarFacts.LoopStep | src/Parser.java:170-175 | helper: at one of the level's operators the loop nests what it has so far as the left operand of a new MathNode |
| GrammarFacts.OneOperator | src/Parser.java:168-177 | one operator of a level between two operands, with none after, parses to that one MathNode |
| GrammarFacts.NameAt | src/Parser.java:84-158 | a lone name is a VariableAccessNode at every level when no operator of that level follows it |
| GrammarFacts.LiftTo | src/Parser.java:84-158 | a parse at a tighter level is the parse at every looser level when no operator of theirs follows |
| GrammarFacts.AtomErrorRises | src/Parser.java:193-238 | an atom that fails, with no prefix operator, fails the same way at every level |
| GrammarFacts.NotAnExpression | src/Parser.java:237 | a token that starts neither an atom nor a prefix form is refused at every level |
| GrammarFacts.BlockOne | src/Parser.java:60-70 | a single expression up to a terminator is a one-element block |
| GrammarFacts.NameBlock | src/Parser.java:60-70 | a lone name up to a terminator is the block holding its VariableAccessNode |
| GrammarFacts.WholeProgram | src/Parser.java:36-43 | a program that is one expression running to the end of the input parses to the block of that expression |
| GrammarFacts.AtomProgram | src/Parser.java:36-43 | a program that is one atom with no prefix operator, running to the end of the input, parses to the block of that atom |
| GrammarFacts.MulBindsTighterThanAdd | src/Parser.java:133-154 | `a + b * c` is `a + (b * c)` |
| GrammarFacts.AssignmentIsLeftAssociative | src/Parser.java:84-86 | `a <- b <- c` is `(a <- b) <- c` |
| GrammarFacts.PowIsRightAssociative | src/Parser.java:156-158 | `a ^ b ^ c` is `a ^ (b ^ c)` |
| GrammarFacts.PowTakesWholeProduct | src/Parser.java:156-158 | `a ^ b * c` is `a ^ (b * c)` |
| GrammarFacts.NotWrapsComparison | src/Parser.java:120-124 | `! a == b` negates the whole comparison |
| GrammarFacts.MinusWrapsProduct | src/Parser.java:141-147 | `- a * b` negates the whole product |
| GrammarFacts.ForNeedsNoEnd | src/Parser.java:246-260 | `for a do b` with no `end` is a whole program: the body's terminator is consumed unchecked |
| GrammarFacts.ForWithoutEnd | src/Parser.java:246-260 | the loop of `for a do b` ends with the input: the missing terminator is taken as read |
| GrammarFacts.ForTakesAnyTerminator | src/Parser.java:256-257 | `for a do b else` takes the `else` as its terminator |
| GrammarFacts.DoubledNewlineRejected | src/Parser.java:62-68 | a block skips one Newline after an expression, and a second one is refused as an atom |
| GrammarFacts.IfElseShape | src/Parser.java:319-337 | `if a then b else c end` is one arm, an else block and the closing `end` |
| GrammarFacts.BranchOf | src/Parser.java:294-306 | helper: an arm is its condition, `then` and its block |
| GrammarFacts.NameBranch | src/Parser.java:294-306 | `if a then b` up to a terminator is the arm with condition `a` and block `b` |
| GrammarFacts.NameElse | src/Parser.java:324-333 | `else c` up to a terminator ends the chain of arms with `c`'s block as the otherwise part |
| GrammarFacts.StrayEndRejected | src/Parser.java:36-43 | a program must end at EndOfFile: a stray top-level `end` is refused |
| GrammarFacts.CallShape | src/Parser.java:218-230 | `f(x, y)` is a call with its arguments in order |
| GrammarFacts.CallOf | src/Parser.java:218-230 | helper: a name, `(`, a first argument, the further ones and `)` make a call with exactly those arguments, ending after the `)` |
| GrammarFacts.IntegerLiteralRoundTrip | src/Parser.java:442-445 | an integer literal reads back as the `int` whose decimal text it is |
| GrammarFacts.IntegerLiteralOutOfRange | src/Parser.java:442-445 | a literal outside the `int` range fails with a number-format error, as a whole expression |
| JavaLang.Wrap | src/Interpreter.java:427-447 | `int` results are the exact result modulo 2^32 in the `int` range, and equal it when it fits |
| JavaLang.Quot | src/Interpreter.java:451-455 | `/` rounds toward zero: the magnitude bound and the sign of the quotient |
| JavaLang.Rem | src/Interpreter.java:459-463 | `%` completes the division identity, is smaller than the divisor and takes the dividend's sign |
| JavaLang.ParseInt | src/Interpreter.java:640-642 | `Integer.parseInt` succeeds iff the text is an optional sign and at least one decimal digit denoting a value in the `int` range, and then gives that signed value |
| JavaLang.ParseIntOfDecimalText | src/Interpreter.java:534-547 | reading back `Integer.toString(n)` gives `n` |
| JavaLang.DigitsValueOfDigits | src/Interpreter.java:534-536 | the decimal digits of a natural number denote it |
| JavaLang.RepeatContents | src/Interpreter.java:567-573 | `s.repeat(n)` has length `|s| * n` and holds `s` back to back |
| JavaLang.RepeatLength | src/Interpreter.java:567-573 | `s.repeat(n)` is `n` times as long as `s` |
| JavaLang.RepeatAt | src/Interpreter.java:567-573 | character `i` of `s.repeat(n)` is character `i mod |s|` of `s` |
| JavaLang.CompareToAntisymmetric | src/Interpreter.java:584-614 | swapping `compareTo`'s operands negates it |
| JavaLang.CompareToZero | src/Interpreter.java:576-614 | `compareTo` is zero exactly for equal strings |
| Values.Tag | src/Interpreter.java:376-388 | each type tag is bracketed by `<`/`>`, with no `>` inside |
| Values.TypeFromName | src/Interpreter.java:390-401 | exactly `int void string fun` are type names, each denoting the type tagged with its name; other names fail |
| Values.IntegerValue.constructor | src/Interpreter.java:421-424 | a new integer cell holds its value |
| Values.StringValue.constructor | src/Interpreter.java:552-555 | a new string cell holds its value |
| Values.Snap | src/Interpreter.java:289-294 | what an operator sees of a value has the value's type |
| Values.ParamTypes | src/Interpreter.java:653-657 | the declared types of a parameter list, position by position |
| Values.TypesOf | src/Interpreter.java:669-675 | the runtime types of an argument list, position by position |
| Values.ParamsOf | src/Interpreter.java:651-658 | each parameter's type name is resolved in order; the first unknown name is the error |
| Values.FunctionOf | src/Interpreter.java:651-659 | a function value keeps the declaration's body and is keyed by its declaration-side overload key |
| Values.ApplyBinary | src/Interpreter.java:111-147 | applying an operator makes the new cell `Binary` describes, or for `<-` overwrites the left cell with the right payload and returns the right operand |
| Values.AssignedSameType | src/Interpreter.java:514-521 | only `<-` between two integers or two strings overwrites a cell |
| ValueFacts.IntegerOperands | src/Interpreter.java:427-512 | two integers under an integer operator reach the integer overrides: `IntegerOp` is the result |
| ValueFacts.StringOperands | src/Interpreter.java:576-614 | two strings under a comparison reach the string overrides, which order by `compareTo` |
| ValueFacts.IntegerNeedsIntegerRight | src/Interpreter.java:426-512 | every integer operator refuses a non-integer right operand, naming both types |
| ValueFacts.IntegerArithmeticWraps | src/Interpreter.java:427-447 | `+ - *` on integers are the exact results wrapped to 32 bits, and exact when they fit |
| ValueFacts.IntegerOverflow | src/Interpreter.java:427-431 | `MAX_VALUE + 1` is `MIN_VALUE` |
| ValueFacts.DivisionByZero | src/Interpreter.java:451-463 | `/` and `%` by zero are an arithmetic fault |
| ValueFacts.DivisionIdentity | src/Interpreter.java:451-463 | for a non-zero divisor `/` is the quotient rounded toward zero and wrapped, `%` the matching remainder; `(a / b) * b + a % b == a` in 32 bits; the remainder is smaller than the divisor and has the dividend's sign |
| ValueFacts.QuotRemIdentity | src/Interpreter.java:451-463 | the wrapped truncating quotient and the remainder satisfy Java's identity `(a / b) * b + a % b == a` modulo 2^32 |
| ValueFacts.WrapCongruent | src/Interpreter.java:451-455 | a factor congruent modulo 2^32 gives the same wrapped product-plus-remainder |
| ValueFacts.DivisionOverflow | src/Interpreter.java:451-455 | `MIN_VALUE / -1` is `MIN_VALUE` |
| ValueFacts.PowerFits | src/Interpreter.java:467-471 | `^` is the exact power when it fits in an `int`, and `MAX_VALUE` above it |
| ValueFacts.ComparisonsYieldZeroOrOne | src/Interpreter.java:475-512 | a successful comparison or logical operator yields 1 or 0 |
| ValueFacts.NotEqualsNegatesEquals | src/Interpreter.java:129-130 | `!=` fails exactly when `==` fails, and otherwise gives its opposite |
| ValueFacts.MixedAddition | src/Interpreter.java:427-431 | `int + string` is refused; `string + int` appends the integer's decimal text, which reads back as the integer |
| ValueFacts.StringPlusOther | src/Interpreter.java:557-563 | a string plus void or a function fails on the cast of the right operand |
| ValueFacts.StringRepetition | src/Interpreter.java:566-573 | `s * n` is `max(0, n)` copies of `s`; `s * t` for a string `t` is refused |
| ValueFacts.StringOrder | src/Interpreter.java:575-614 | string `==` is equality of contents, and `< <= > >=` are one consistent order |
| ValueFacts.MixedComparison | src/Interpreter.java:475-512 | strings and integers never compare with each other |
| ValueFacts.TruthValues | src/Interpreter.java:344-346 | only integers and strings have a truth value: non-zero and non-empty; asking void or a function fails |
| ValueFacts.LogicalTables | src/Interpreter.java:352-358 | `||` and `&&` are the boolean operators as 1/0; the right operand's truth is not asked when the left one decides; a left operand with no truth value fails |
| ValueFacts.BoolIsTruthful | src/Interpreter.java:360-362 | `not` gives 0 for truthy and 1 for falsy, and a 1/0 result reads back as that truth |
| ValueFacts.AssignAcceptsSameKind | src/Interpreter.java:340-342 | `<-` succeeds exactly between two integers or two strings, and otherwise names both types |
| ValueFacts.OnlyAssignmentAssigns | src/Interpreter.java:111-147 | no operator but `<-` overwrites a cell |
| ValueFacts.OpaqueOperandsFail | src/Interpreter.java:296-342 | void and function values refuse every binary operator on the left |
| ValueFacts.NegationNeedsLiteral | src/Interpreter.java:156-158 | a prefix operator on anything but an integer literal fails on the cast, without evaluating it |
| ValueFacts.NegationWraps | src/Interpreter.java:529-532 | `-` wraps at `MIN_VALUE`, is exact elsewhere, and applied twice restores the literal |
| ValueFacts.PrefixNotAndPlus | src/Interpreter.java:159-163 | prefix `!` is `not` on the literal, and prefix `+` gives it back |
| ValueFacts.TagInjective | src/Interpreter.java:377 | different types have different tags |
| ValueFacts.TagsInjective | src/Interpreter.java:661-675 | a string of tags splits back into its list of types |
| ValueFacts.KeysMatchExactly | src/Interpreter.java:661-675 | a call's key equals a declaration's key of the same name exactly when the argument types are the declared types, position by position |
| ValueFacts.DeclarationKey | src/Interpreter.java:651-666 | a declared function's key is its name followed by one `<type>` tag per parameter, in order |
| Scope.SymbolTable.constructor | src/Interpreter.java:242-248 | a new table is empty and has the given parent |
| Scope.SymbolTable.Get | src/Interpreter.java:256-266 | `get` returns the nearest binding, or fails when no table has one; every table below the holder gets that same value cached; no other binding changes |
| Scope.SymbolTable.Inherit | src/Interpreter.java:263-265 | for a name not bound here: the parent's answer, stored here too when found, with the same guarantees as `get` |
| Scope.SymbolTable.AboveHolder | src/Interpreter.java:256-266 | every table nearer than the holder of a name lacks it and looks it up on the holder |
| Scope.SymbolTable.LookupInReach | src/Interpreter.java:256-266 | the value found on the chain refers only to cells the chain holds |
| Scope.SymbolTable.Add | src/Interpreter.java:273-275 | `add` replaces or creates the binding in this table only |
| Scope.SymbolTable.AddBuiltinFunc | src/Interpreter.java:283-286 | a builtin is bound under its overload key |
| Scope.CachingIsInvisible | src/Interpreter.java:262-265 | once cache entries are added, every name resolves as before |
| Machine.ATypesOf | src/Interpreter.java:669-675 | the runtime types of a list of values, position by position |
| Machine.Read | src/Interpreter.java:289-294 | the payload a value holds in the store has the value's type |
| Machine.Bind | src/Interpreter.java:273-275 | `add` on the store: the binding replaced or created in that table only, nothing else changes |
| Machine.Fetch | src/Interpreter.java:256-266 | `get` on the store: the nearest binding on the chain or `Unresolved`; only the tables below the holder change, by caching that same value |
| Machine.Open | src/Interpreter.java:242-248 | a new table, child of the given one, numbered after the existing tables; nothing else changes |
| Machine.AllocInt | src/Interpreter.java:421-424 | a new integer cell at the end of the cells, holding the value; nothing else changes |
| Machine.AllocStr | src/Interpreter.java:552-555 | a new string cell at the end of the cells, holding the value; nothing else changes |
| Calls.Console.constructor | src/Main.java:19-22 | the printed output starts empty |
| Calls.TypeCheckFrom | src/Interpreter.java:682-689 | a reported error is an argument-type mismatch at the first index from `i` on whose argument type differs from the parameter type, naming both types; every earlier argument matched |
| Calls.TypeCheckFromNone | src/Interpreter.java:682-689 | the type check passes iff every argument has its parameter's type |
| Calls.SetUpCheck | src/Interpreter.java:677-691 | a call passes the checks only when it has as many arguments as parameters |
| Calls.SetUpSucceedsIffTypesMatch | src/Interpreter.java:677-691 | `setUpSymbolTable` accepts a call iff the argument types are the parameter types position by position |
| Calls.ResolvedCallsSetUp | src/Interpreter.java:95-102 | a call resolved by its overload key always passes `setUpSymbolTable`'s checks |
| Calls.BindingsKeys | src/Interpreter.java:681-690 | exactly the parameter names are bound |
| Calls.BindingsValues | src/Interpreter.java:681-690 | a parameter whose name is not repeated later holds its own argument |
| Calls.SetUpSymbolTable | src/Interpreter.java:677-691 | arity mismatch first, then the first mistyped argument, fail; otherwise a fresh child of the caller's table binds the parameters |
| Calls.CallBuiltin | src/Main.java:13-30 | a builtin body reads `value` from its table, failing when it is unbound; then it has the outcome its body computes, the tables keeping every binding they had |
| Calls.ApplyBuiltin | src/Main.java:13-30 | `int` on an integer and `string` on a string give the argument itself, a conversion across gives a new cell or fails as Java's parse does, any other type is refused, `length` a new cell with the string's length, `print` writes exactly one line and gives void |
| Calls.OutcomeOf | src/Main.java:13-30 | only `print` writes a line, which is the argument's text; only `int` on an integer and `string` on a string give the argument back |
| Calls.NativeStep | src/Main.java:13-30 | a builtin body changes no table; `print` appends exactly the argument's text to the lines and gives void |
| Calls.RunBuiltin | src/Main.java:13-30 | a builtin body reads `value` as `get` does, failing as unresolved when no table binds it |
| Calls.Argument | src/Main.java:13-30 | a builtin body's `context.get("value")`: the value bound on the chain, or an unresolved-name failure; tables only gain bindings |
| Calls.IntStringRoundTrip | src/Main.java:13-17 | `string` then `int` gives the integer back |
| Calls.RegisteredBuiltins | src/Main.java:13-30 | the registrations bind nothing but builtins, which hold no cells |
| Calls.Prelude | src/Main.java:11-33 | the global table holds the builtins under their keys and `true`/`false` bound to new cells 1 and 0 |
| Calls.RegisterBuiltins | src/Main.java:13-30 | the nine `addBuiltinFunc` calls, in order, bind exactly the builtin list's entries |
| Calls.RegisteredStep | src/Main.java:13-30 | one more registration extends the bindings of those before it |
| Program.PreludeAgrees | src/Main.java:13-30 | the builtin bindings of the global table are those of the initial store |
| Interpreter.Interpret | src/Interpreter.java:231-233 | computes `Semantics.Eval`: the heap afterwards is the store `Eval` gives, under a numbering that only adds new tables and cells, and the result agrees with `Eval`'s result (the same error, or a value with the same payload); `SemanticsFacts.EvalLater` states that evaluation only adds tables, cells and printed lines |
| Interpreter.InterpretCompound | src/Interpreter.java:231-233 | dispatch of calls and operator nodes: computes `Semantics.Eval` on them |
| Interpreter.InterpretControl | src/Interpreter.java:231-233 | dispatch of blocks, conditionals and loops: computes `Semantics.Eval` on them |
| Interpreter.InterpretSimple | src/Interpreter.java:231-233 | dispatch of literals, names, declarations and prefix operators: computes `Semantics.Simple` |
| Interpreter.EvalInteger | src/Interpreter.java:36-38 | computes `Machine.AllocInt`: a new cell, not reachable before, holding the literal |
| Interpreter.EvalString | src/Interpreter.java:46-48 | computes `Machine.AllocStr`: a new cell, not reachable before, holding the literal |
| Interpreter.EvalVariableAccess | src/Interpreter.java:83-86 | the result is the very value bound nearest on the chain, or `Unresolved` when no table binds the name; the tables afterwards are the store `Machine.Fetch` gives |
| Interpreter.EvalFunctionDeclaration | src/Interpreter.java:57-62 | computes `Semantics.DeclareFunction`: the function bound under its overload key in the current table, void as result, or the unknown type name's error |
| Interpreter.EvalVariableDeclaration | src/Interpreter.java:71-75 | computes `Semantics.Declare`; `SemanticsFacts.DeclarationBinds` states that the name then resolves to the initialiser's very value in the current table, every other name resolves as before, and the result is void |
| Interpreter.AddTracked | src/Interpreter.java:273-275 | `add` in the current table: its bindings become the old ones with the name rebound, matching `Machine.Bind` on the store |
| Interpreter.EvalNegation | src/Interpreter.java:156-168 | computes `Semantics.Negate`: a new cell with `Negation`'s result, or its error |
| Interpreter.EvalMaths | src/Interpreter.java:111-147 | computes `Semantics.Maths`; `SemanticsFacts.MathsApplies` states that the operator acts on the payloads both operands hold after both are evaluated: a new cell, an overwritten left cell, or the operator's error |
| Interpreter.ApplyOperator | src/Interpreter.java:115-146 | computes `Semantics.Apply`: the operator on the operands' payloads, a new cell or an overwritten left cell, or its error |
| Interpreter.AssignOperator | src/Interpreter.java:143-144 | `<-` computes `Semantics.Apply`: the left cell takes the right payload and the right operand is the result |
| Interpreter.EvalOperands | src/Interpreter.java:113-114 | computes `Semantics.Operands`: the left operand in the store as it is, the right one in the store the left one leaves, the first failure stopping |
| Interpreter.EvalBlock | src/Interpreter.java:176-185 | computes `Semantics.Block`: an empty block fails, otherwise the expressions run in order in one new child table; `SemanticsFacts.BlockGivesLast` states that a block gives its last expression's step after running the others |
| Interpreter.OpenScope | src/Interpreter.java:178 | a fresh table, child of the current one, matching `Machine.Open` with no bindings |
| Interpreter.BlockIn | src/Interpreter.java:180-184 | the block loop computes `Semantics.BlockFrom` from the first expression |
| Interpreter.EvalIf | src/Interpreter.java:194-207 | computes `Semantics.IfFrom` from the first arm; `SemanticsFacts.IfRunsFirstTruthy` and `IfFallsThrough` state that the first arm with a truthy condition runs its body and gives its value, and with none the else block runs or the result is void |
| Interpreter.IfArm | src/Interpreter.java:196-200 | one arm: when its condition is truthy, or fails, the result is `Semantics.IfFrom` from it; otherwise the store reached gives the same `IfFrom` from the next arm |
| Interpreter.EvalCondition | src/Interpreter.java:197 | a condition computes `Semantics.Eval` and, when that succeeds, the truth of its payload |
| Interpreter.EvalFor | src/Interpreter.java:216-223 | computes `Semantics.Loop` in one new child table shared by every iteration; `SemanticsFacts.LoopGivesVoid` states that a loop that does not fail gives void |
| Interpreter.LoopIn | src/Interpreter.java:218-221 | the `while` loop computes `Semantics.Loop` with the fuel as iteration budget |
| Interpreter.ForIteration | src/Interpreter.java:218-221 | one iteration: finished, it gives `Semantics.Iteration`'s step; otherwise the store reached gives the same result as the rest of the loop |
| Interpreter.EvalFunctionCall | src/Interpreter.java:95-102 | computes `Semantics.CallNode`: the arguments left to right, then the value the name plus their type tags resolves to, called with them |
| Interpreter.CallByKey | src/Interpreter.java:100-101 | computes `Semantics.CallByKey`: the value the key resolves to, fetched as `get` does, is the one called; an unbound key fails as unresolved |
| Interpreter.EvalArgs | src/Interpreter.java:97-100 | computes `Semantics.ArgsFrom`: the argument values in order, each evaluated in the store the one before leaves, or the first error |
| Interpreter.Call | src/Interpreter.java:348-350 | computes `Semantics.CallValue`: a user function or a builtin is called, any other value fails as not callable |
| Interpreter.CallFunction | src/Interpreter.java:693-697 | computes `Semantics.CallUser`; `SemanticsFacts.CallRunsInCallersChild` states that after the set-up checks the body runs in a new child of the caller's table where each parameter resolves to its argument and every other name as for the caller |
| Interpreter.OpenFrame | src/Interpreter.java:677-691 | `setUpSymbolTable`: the set-up check's error, or a fresh child of the caller's table binding the parameters, matching `Machine.Open` with `Calls.Bindings` |
| Interpreter.CallNative | src/Interpreter.java:719-722 | computes `Semantics.CallNative`; `SemanticsFacts.BuiltinGetsArgument` states that after the checks the body acts on the argument |
| SemanticsFacts.EvalLater | src/Interpreter.java:231-233 | evaluating any node only adds tables and cells, keeps every parent link and appends printed lines |
| SemanticsFacts.ResolveBound | src/Interpreter.java:273-275 | after binding a name in a table it resolves there to the new value |
| SemanticsFacts.ResolveBindOther | src/Interpreter.java:273-275 | binding a name changes what no other name resolves to, from any table |
| SemanticsFacts.ResolveOpenOld | src/Interpreter.java:242-248 | a new table changes nothing resolved from the tables already there |
| SemanticsFacts.ResolveOpenNew | src/Interpreter.java:242-266 | a name resolves from a new child table to its own binding there, or as from the parent |
| SemanticsFacts.DeclarationBinds | src/Interpreter.java:71-75 | a failing initialiser is the declaration's failure; otherwise the result is void, the name resolves in the current table to the initialiser's value, and every other name as after the initialiser |
| SemanticsFacts.BlockGivesLast | src/Interpreter.java:176-185 | a block gives the step of its last expression, run in the new child table after the others have all succeeded |
| SemanticsFacts.IfSkips | src/Interpreter.java:195-200 | arms whose conditions are falsy are passed over in order |
| SemanticsFacts.IfRunsFirstTruthy | src/Interpreter.java:194-201 | when the conditions before arm `k` are falsy and arm `k`'s is truthy, the `if` is arm `k`'s body |
| SemanticsFacts.IfFallsThrough | src/Interpreter.java:194-207 | when every condition is falsy, the `if` is the else block, or void without one |
| SemanticsFacts.MathsApplies | src/Interpreter.java:111-147 | an operator node fails as its operands do, or gives what the operator makes of their payloads: its error, a new integer or string cell, or the right operand with the left cell overwritten |
| SemanticsFacts.LoopGivesVoid | src/Interpreter.java:216-223 | a loop that does not fail gives void |
| SemanticsFacts.CallRunsInCallersChild | src/Interpreter.java:677-697 | a user function's body runs in a new child of the caller's table, where each parameter not repeated later resolves to its argument and every other name resolves as for the caller |
| SemanticsFacts.BuiltinGetsArgument | src/Interpreter.java:719-722 | a builtin called with one well-typed argument runs its body on exactly that argument |
| SemanticsFacts.PrintWritesText | src/Main.java:19-26 | `print(x)` gives void and appends exactly the text of `x`, changing no cell |
| SemanticsFacts.BuiltinRefusesMistyped | src/Interpreter.java:682-689 | a builtin called with an argument of another type is refused, naming both types, before its body runs |
| Program.Run | src/Main.java:9-35 | a lexing error is exactly `LexSpec`'s and a parsing error exactly `Grammar.Parse`'s; otherwise the printed lines and the result are those of `Program.Meaning`, the semantics of the parsed block run on the global table |
| Program.Execute | src/Main.java:11-35 | the printed lines afterwards, the error, and the result's payload are exactly those of `Semantics.Eval` from the initial store holding the builtins and `true`/`false` |

## Left out

- Reading the source file is left out, along with the `\r\n` replacement done in the scanner's constructor. The text and the file name are parameters.
- Reading the file path from standard input, `System.out` and `printStackTrace` are left out. `print` appends to a `Console` object's list of lines, and a failure is a `Result` error.
- Interpreter.Interpret: non-termination is bounded by a fuel parameter. When it runs out the result is `OutOfFuel`; the Java program would loop or exhaust its stack instead.
- Interpreter.EvalFor: runs at most `fuel` iterations before reporting `OutOfFuel`.
- Host stack exhaustion on deep recursion is not modelled.
- Lexer.Step: the Java loops for an unterminated `//` or block comment never end. The model reports an `UnterminatedComment` error in their place.
- Exception message texts and `Position.toString` are left out. Errors are tagged values that carry the pieces the messages print.
- `Character.isLetter` and `Character.isDigit` are modelled on ASCII letters and digits only.
- Builtin bodies are the four Java lambdas of the entry point, modelled as an enumeration (`BuiltinBody`). Arbitrary Java callbacks are not modelled.
- Calls.CallBuiltin: the `print` body's text for a function value is `fun <key>` / `[builtin] fun <key>`, as `toString` gives it. Java's own line separator is not modelled.
- `(int) Math.pow` follows the documented exactness of `Math.pow` on `int` arguments. Double rounding for results beyond 2^53 is not modelled, since such results saturate anyway.
- `length` returns the number of characters of the Dafny string. The UTF-16 code-unit count that Java's `String.length` reports for non-BMP characters is not modelled.
- Values.ApplyBinary: the result cell's identity is not stated for `NewInt`/`NewStr` beyond being fresh.
- JavaLang.CompareTo: compares strings character by character as Dafny characters, which are Unicode code points. Java compares UTF-16 code units, so the order differs between a supplementary character and a BMP character above the surrogates (U+10000 sorts after U+E000 here, before it in Java).
- Lexer.Advance: columns count Dafny characters, which are code points. Java counts UTF-16 code units, so a supplementary character advances the column by one here and by two in Java.
- JavaLang.ParseInt: accepts ASCII digits only. Java's `Integer.parseInt` also accepts other Unicode decimal digits, so `int("١٢")` is 12 in Java and an error here.
- src/Position.java is folded into the scanner's `Position` datatype.
