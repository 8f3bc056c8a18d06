# Lox front end and tree-walking evaluator, modelled in Dafny

This project models the core of a C# implementation of the Lox scripting
language. It covers the scanner, the syntax tree, the scope chain, the
statement evaluator, the older expression-only evaluator and the debug
printer of the syntax tree. Every component is written as pure functions
over immutable datatypes:

- **Tokens** (`tokens.dfy`). The kind enumeration, the four-field
  `Token` record (line, literal, lexeme, kind) and its debug `Stringify`.
- **ReservedWords** (`reserved_words.dfy`). The sixteen-entry keyword
  table and the case-sensitive lookup the scanner performs.
- **SourceWalker** (`source_walker.dfy`). The cursor: start mark,
  current position, line, and `IsAtEnd`/`PeekAt`/`Advance`/`AdvanceOnMatch`.
  Each move returns the moved cursor.
- **Scanner** (`scanner.dfy`, properties in `scanner_facts.dfy`, line
  numbers in `scanner_lines.dfy`). It maps a source text to its token list
  and the list of lexical errors as (line, message) pairs. The list always
  ends with one EOF token.
- **Ast** (`ast.dfy`). Seven expression variants and five statement
  variants. `match` replaces the visitor's double dispatch.
- **Environment** (`environment.dfy`). The scope chain as a non-empty
  sequence of maps, innermost first, with `Define`, `Get` and `Assign`.
- **Semantics** (`semantics.dfy`, properties in `semantics_facts.dfy`).
  Truthiness, equality, the number checks, `print`'s text form and the
  operators. They are shared by both evaluators. `PlusRule` picks the
  stringifying `+` of the statement evaluator (`Concatenating`) or the
  draft's strict `+` (`Strict`).
- **Interpreter** (`interpreter.dfy`, properties in `interpreter_facts.dfy`).
  - Expressions evaluate to a value or a fault, with the environment after them.
  - Statements yield the fault that stopped them, if any, the environment
    and the printed lines.
  - `Interpret` takes the interpreter's long-lived environment and returns
    the one the next call continues from.
- **DraftInterpreter** (`draft_interpreter.dfy`, relation to the current
  evaluator in `draft_facts.dfy`). The expression-only evaluator with the
  strict `+`.
- **AstPrinter** (`ast_printer.dfy`). The prefix-notation printer.

Runtime failures are values, not exceptions. `Fault` is either a Lox
`RuntimeError` (token plus message), which `Interpret` catches and reports,
or a host crash. The one host crash is the `NullReferenceException` from
`ToString` on nil in `nil + "s"` or `"s" + nil`, which nothing catches.

Several behaviours of the code are easy to miss, and the model keeps them
as written:

- The scanner's cursor starts at index 1 (`Lox/Scanner.cs:8-9`). The first
  character of a text never reaches a token, and a text of at most one
  character scans to EOF alone.
- A string token records the line of its closing quote, not of its
  opening one. The line counter has already moved past the embedded
  newlines when the token is added.
- The statement evaluator's `+` joins the texts of both operands when either
  is a string. Only the draft evaluator's `+` rejects mixed operands, and
  it is modelled separately.
- `print` writes booleans as `True` and `False`, the .NET `ToString` forms.
- `Define` fails with "Variable already defined." when the current scope
  already binds the name. Shadowing a name of an enclosing scope succeeds.
- The environment persists across calls of `Interpret`.

## Model

| member | source | states |
|---|---|---|
| Tokens.LiteralText | Lox/Token.cs:6 | A missing literal renders as `NULL`; any other literal renders as its `ToString` text |
| Tokens.NameIsOneWord | Lox/Token.cs:6 | Every kind's name is a non-empty word without spaces, so it is the first field of `Stringify` |
| Tokens.NameRoundTrip | Lox/Token.cs:6 | Reading a kind's name back yields that kind, so distinct kinds print distinct names |
| Tokens.StringifyShowsKind | Lox/Token.cs:6 | `Stringify` starts with the kind name and one space, its first word identifies the kind, and with no literal it is `KIND lexeme NULL` |
| Values.BoolText | Lox/Syntax/Visitors/InterpreterVisitor.cs:37 | A boolean's text starts with a capital letter (`True`/`False`) |
| Values.ObjectText | Lox/Syntax/Visitors/InterpreterVisitor.cs:83 | `ToString` fails exactly on nil, and a string's text is the string itself |
| ReservedWords.KindOf | Lox/Scanner.cs:107-110 | A word is IDENTIFIER exactly when it is not in the table; otherwise it gets the table's kind, which is a keyword kind; never EOF |
| ReservedWords.SpellingInvertsTable | Lox/ReservedWords.cs:5-23 | Each keyword's kind spells the keyword back, and it is a keyword kind |
| ReservedWords.KeywordKindsAreKeywordOnly | Lox/ReservedWords.cs:5-23 | Distinct keywords map to distinct kinds (the table is injective) |
| ReservedWords.KeywordSet | Lox/ReservedWords.cs:5-23 | The table's keys are exactly the sixteen reserved words |
| ReservedWords.KeywordsAreLowerCase | Lox/Scanner.cs:107-110 | A word containing any character other than `a`-`z` is never a keyword and scans as IDENTIFIER |
| ReservedWords.LiteralWordsAreKeywords | Lox/ReservedWords.cs:7-22 | `true`, `false` and `nil` get their keyword kinds |
| ReservedWords.CapitalisedWordsAreIdentifiers | Lox/Scanner.cs:109-110 | Lookup is case-sensitive: `Print` and `VAR` are identifiers |
| SourceWalker.Fresh | Lox/SourceWalker.cs:6-16 | A new cursor has its start mark and position at 0 and is on line 1, so its lexeme is empty. It is at the end only for an empty text, and otherwise looks at the first character |
| SourceWalker.AdvanceReturnsPeek | Lox/SourceWalker.cs:16-17 | Before the end, `Advance` returns what `PeekAt(0)` shows, moves the cursor by one and changes nothing else |
| SourceWalker.AdvanceOnMatchIffPeek | Lox/SourceWalker.cs:18-23 | `AdvanceOnMatch(c)` succeeds exactly when the cursor is before the end on `c`; it then acts as `Advance`, and otherwise changes nothing |
| Scanner.SkipWhile | Lox/Scanner.cs:105 | The loop consumes the longest run of characters satisfying the test, stopping within the text |
| Scanner.SkipComment | Lox/Scanner.cs:48 | A comment is consumed up to, not over, the next newline or the end |
| Scanner.StringBody | Lox/Scanner.cs:128-131 | The body stops at the first `"` or the end, and the line grows by the number of newlines passed |
| Scanner.ParseString | Lox/Scanner.cs:127-141 | A string token exists exactly when a closing quote follows. Its lexeme spans both quotes, its literal is the text between them, and its line is the closing quote's. Otherwise "Unterminated string." is reported with no token |
| Scanner.CloseString | Lox/Scanner.cs:132-140 | At the end of the text: an "Unterminated string." error and no move. Otherwise the quote is consumed and the token is added |
| Scanner.ScanToken | Lox/Scanner.cs:27-68 | One step consumes at least one character, stays within the text, never lowers the line, and adds at most one token or one error. A token's lexeme is the consumed text, it is never EOF, and it carries the current line |
| Scanner.ScanFrom | Lox/Scanner.cs:18-21 | Every token is cut from the text at or after the starting cursor; tokens come in text order without overlap, and none is EOF |
| Scanner.ScanTokens | Lox/Scanner.cs:17-25 | The result ends with exactly one EOF token (empty lexeme, no literal, a line of at least 1) and no earlier token is EOF. `ScannerLines.TokenLines` pins the lines |
| ScannerFacts.SingleCharToken | Lox/Scanner.cs:31-40 | A punctuation character becomes its own one-character token |
| ScannerFacts.OperatorToken | Lox/Scanner.cs:42-45 | `!`, `=`, `<`, `>` take the `=`-suffixed kind and consume two characters exactly when `=` follows |
| ScannerFacts.SlashOrComment | Lox/Scanner.cs:47-50 | `//` skips to the next newline or the end and adds nothing; a lone `/` is a SLASH token |
| ScannerFacts.WhitespaceAndNewline | Lox/Scanner.cs:51-57 | Space, CR and tab add nothing; a newline adds nothing and increments the line |
| ScannerFacts.StringToken | Lox/Scanner.cs:58 | A `"` hands over to `ParseString`; the token's literal is the text after the opening quote, up to the closing one |
| ScannerFacts.NumberToken | Lox/Scanner.cs:60-61 | A digit hands over to `ParseNumber` |
| ScannerFacts.ParseNumberShape | Lox/Scanner.cs:115-125 | The lexeme is digits, optionally followed by `.` and more digits. It is maximal: no digit follows it, and a `.` with a digit after it is never left behind. Its literal is the parse of the lexeme |
| ScannerFacts.IdentifierToken | Lox/Scanner.cs:59-63 | A letter or `_` starts a maximal run of letters, digits and `_`, which is a keyword token exactly when its text is in the table |
| ScannerFacts.ParseIdentifierShape | Lox/Scanner.cs:104-113 | The identifier body is the longest alphanumeric run, and its kind comes from the keyword lookup |
| ScannerFacts.UnexpectedCharacter | Lox/Scanner.cs:64-65 | Any other character is consumed and reported as "Unexpected character: c" on the current line; no token is added |
| ScannerFacts.ShortSourceOnlyEof | Lox/Scanner.cs:8-9 | A text of at most one character scans to the EOF token alone, on line 1, with no errors |
| ScannerFacts.TokensAreOrderedSlices | Lox/Scanner.cs:72-74 | Every token before EOF is the slice of the text it was cut from, starting at index 1 or later, in text order |
| ScannerFacts.FirstCharacterIgnored | Lox/Scanner.cs:8-9 | Texts differing only in their first character scan to the same tokens and errors |
| ScannerLines.ParseStringLine | Lox/Scanner.cs:127-141 | A string literal moves the line on by the newlines between its opening quote and its closing quote, or the end of the text |
| ScannerLines.StepLine | Lox/Scanner.cs:27-68 | One step moves the line on by exactly the number of newlines in the text it consumes |
| ScannerLines.ScanFromLines | Lox/Scanner.cs:18-21 | From any cursor, the final line is the starting line plus the newlines in the rest of the text. Each token's line is the starting line plus the newlines before the token's end |
| ScannerLines.TokenLines | Lox/Scanner.cs:8-25 | EOF is on line 1 plus the number of newlines after the ignored first character. Every other token is on line 1 plus the newlines up to its end, which for a string literal is the line of its closing quote |
| Environment.Define | Lox/Environment.cs:32-35 | Succeeds exactly when the current scope does not bind the name. It then adds that one binding, keeps the current scope's other bindings and leaves enclosing scopes untouched. Otherwise it fails with "Variable already defined." |
| Environment.Get | Lox/Environment.cs:37-42 | Answers the value of the innermost scope binding the name, and fails with "Undefined variable" exactly when no scope binds it |
| Environment.Assign | Lox/Environment.cs:17-30 | Succeeds exactly when some scope binds the name. It overwrites only the innermost binding scope and creates no binding. Otherwise it fails with "Undefined variable" |
| Environment.GetAfterDefine | Lox/Environment.cs:32-42 | `Define(n, v)` succeeds when the current scope lacks `n`, and `Get(n)` then answers `v` |
| Environment.GetAfterAssign | Lox/Environment.cs:17-42 | `Assign(n, v)` succeeds when some scope binds `n`, and `Get(n)` then answers `v` |
| Environment.OtherNamesUnaffected | Lox/Environment.cs:17-35 | Defining or assigning one name leaves `Get` of every other name unchanged |
| Environment.DefineShadows | Lox/Environment.cs:32-35 | A name bound only in enclosing scopes can be defined in the current one; `Get` sees the new value and enclosing scopes are unchanged |
| Semantics.TrimPointZero | Lox/Syntax/Visitors/InterpreterVisitor.cs:31-32 | The text loses exactly one trailing `.0`, and only when it ends with one |
| Semantics.Stringify | Lox/Syntax/Visitors/InterpreterVisitor.cs:26-38 | Nil prints `nil`, a number prints its invariant-culture text without a trailing `.0`, and other values print their `ToString` |
| Semantics.CheckNumberOperands | Lox/Syntax/Visitors/InterpreterVisitor.cs:59-62 | The check passes exactly when every operand is a number, and fails with "Operands must be double values." at the operator |
| SemanticsFacts.Truthiness | Lox/Syntax/Visitors/InterpreterVisitor.cs:42-48 | Exactly nil and false are falsy, and `!` yields the negated truthiness |
| SemanticsFacts.Equality | Lox/Syntax/Visitors/InterpreterVisitor.cs:50-57 | Nil equals only nil, different variants are unequal, `==` and `!=` never fail, and `!=` negates `==` |
| SemanticsFacts.EqualityIsEquivalence | Lox/Syntax/Visitors/InterpreterVisitor.cs:50-57 | Value equality is reflexive, symmetric and transitive when the host's number equality is |
| SemanticsFacts.NumericOperatorsNeedNumbers | Lox/Syntax/Visitors/InterpreterVisitor.cs:76-105 | `-`, `*`, `/` and the comparisons fail exactly when an operand is not a number, with "Operands must be double values."; both evaluators agree on them |
| SemanticsFacts.NegationNeedsNumber | Lox/Syntax/Visitors/InterpreterVisitor.cs:120-122 | Unary `-` fails exactly on a non-number and otherwise negates |
| SemanticsFacts.UnknownOperatorsYieldNil | Lox/Syntax/Visitors/InterpreterVisitor.cs:109 | An operator kind the evaluators do not know yields nil instead of failing, for binary and unary nodes alike |
| SemanticsFacts.ConcatenatingPlusCases | Lox/Syntax/Visitors/InterpreterVisitor.cs:79-85 | Two numbers add. With a string on either side, both texts are joined, but a nil side crashes the host. Anything else fails with "Operands must be numbers or strings." |
| SemanticsFacts.StrictPlusCases | Lox/Expressions/Visitors/InterpreterVisitor.cs:66-71 | The draft's `+` succeeds exactly on two numbers (adding) or two strings (joining); anything else fails with "Operands must be two numbers or two strings." |
| SemanticsFacts.ConcatenatingExtendsStrict | Lox/Expressions/Visitors/InterpreterVisitor.cs:66-71 | Wherever the draft's `+` succeeds the current one gives the same result. The current one alone succeeds exactly on a string mixed with a non-nil non-string |
| SemanticsFacts.PrintedForms | Lox/Syntax/Visitors/InterpreterVisitor.cs:26-38 | `print` writes `True`/`False` for booleans, a string's own text, and `nil` |
| Interpreter.Eval | Lox/Syntax/Visitors/InterpreterVisitor.cs:64-143 | Evaluating any expression keeps the depth of the scope chain and the names each scope binds |
| Interpreter.EvalAssign | Lox/Syntax/Visitors/InterpreterVisitor.cs:64-69 | Assignment keeps every scope's set of names |
| Interpreter.EvalBinary | Lox/Syntax/Visitors/InterpreterVisitor.cs:70-111 | A binary node keeps every scope's set of names |
| Interpreter.EvalUnary | Lox/Syntax/Visitors/InterpreterVisitor.cs:115-129 | A unary node keeps every scope's set of names |
| Interpreter.EvalVariable | Lox/Syntax/Visitors/InterpreterVisitor.cs:130 | A variable read changes nothing and succeeds exactly when some scope binds the name. It answers the innermost binding's value, and otherwise fails with "Undefined variable x." |
| Interpreter.EvalLogical | Lox/Syntax/Visitors/InterpreterVisitor.cs:131-143 | A logical node keeps every scope's set of names |
| Interpreter.Exec | Lox/Syntax/Visitors/InterpreterVisitor.cs:145-169 | A statement keeps the chain's depth and the enclosing scopes' names; the current scope only gains names |
| Interpreter.ExecBlock | Lox/Syntax/Visitors/InterpreterVisitor.cs:171-183 | A block, however it ends, leaves the chain as deep as before, its scope dropped |
| Interpreter.ExecVar | Lox/Syntax/Visitors/InterpreterVisitor.cs:154-159 | `var` only adds names to the current scope |
| Interpreter.ExecIf | Lox/Syntax/Visitors/InterpreterVisitor.cs:164-169 | `if` only adds names to the current scope |
| Interpreter.ExecSeq | Lox/Syntax/Visitors/InterpreterVisitor.cs:15-17 | A statement list only adds names to the current scope, and the empty list does nothing |
| Interpreter.Interpret | Lox/Syntax/Visitors/InterpreterVisitor.cs:13-22 | A call completes exactly when no statement faulted. A runtime error is reported and a host crash escapes. The environment and printed lines are those the statements left |
| InterpreterFacts.AssignmentFreeKeepsEnv | Lox/Syntax/Visitors/InterpreterVisitor.cs:70-143 | An expression with no assignment leaves the environment unchanged |
| InterpreterFacts.LogicalShortCircuits | Lox/Syntax/Visitors/InterpreterVisitor.cs:131-143 | `or`/`and` yield the left operand, unevaluated right, when it decides; otherwise the right operand's evaluation; a left fault propagates |
| InterpreterFacts.RightOperandIrrelevantWhenDecided | Lox/Syntax/Visitors/InterpreterVisitor.cs:131-143 | When the left operand decides, replacing the right operand changes nothing |
| InterpreterFacts.OperandsBeforeOperator | Lox/Syntax/Visitors/InterpreterVisitor.cs:71-75 | Both operands are evaluated left to right before the operator, so the right one's effects persist even when the operator fails |
| InterpreterFacts.AssignYieldsValue | Lox/Syntax/Visitors/InterpreterVisitor.cs:64-69 | Assignment yields the assigned value and a later read sees it; assigning an unbound name fails with "Undefined variable" |
| InterpreterFacts.VarWithoutInitializerDefinesNil | Lox/Syntax/Visitors/InterpreterVisitor.cs:154-159 | `var x;` binds nil in the current scope only; redeclaring in the same scope fails and changes nothing |
| InterpreterFacts.BlockRestoresScope | Lox/Syntax/Visitors/InterpreterVisitor.cs:171-183 | A block runs its statements in a fresh innermost scope, which is dropped on every exit; enclosing assignments persist |
| InterpreterFacts.IfRunsOneBranch | Lox/Syntax/Visitors/InterpreterVisitor.cs:164-169 | `if` runs exactly the branch the condition's truthiness selects, or nothing without `else` |
| InterpreterFacts.UntakenBranchIrrelevant | Lox/Syntax/Visitors/InterpreterVisitor.cs:164-169 | The branch `if` does not take makes no difference: any other `else` part gives the same result when the condition is truthy, and any other `then` part when it is falsy |
| InterpreterFacts.PrintFreeIsSilent | Lox/Syntax/Visitors/InterpreterVisitor.cs:149-152 | Only `print` statements write output |
| InterpreterFacts.PrintFreeSeqIsSilent | Lox/Syntax/Visitors/InterpreterVisitor.cs:171-183 | A statement list without `print` writes nothing |
| InterpreterFacts.ExecSeqAppend | Lox/Syntax/Visitors/InterpreterVisitor.cs:13-22 | Running two lists in a row is running the first and, only if it did not fault, the second; output concatenates |
| InterpreterFacts.InterpretInPieces | Lox/Syntax/Visitors/InterpreterVisitor.cs:11-22 | When the first call completes, a second `Interpret` call from its environment equals one call on the joined program. When the first call faults, the joined call ends with the first call's result and never runs the second piece |
| InterpreterFacts.ShadowingDeclaration | Lox/Syntax/Visitors/InterpreterVisitor.cs:154-159 | An inner `var a = "b";` shadows a global `a` |
| InterpreterFacts.ShadowingPrint | Lox/Syntax/Visitors/InterpreterVisitor.cs:149-152 | `print a;` in the block prints the inner binding |
| InterpreterFacts.ShadowingBlock | Lox/Syntax/Visitors/InterpreterVisitor.cs:160-162 | The block prints `b` and leaves the global scope as it was |
| InterpreterFacts.ShadowingGlobal | Lox/Syntax/Visitors/InterpreterVisitor.cs:154-159 | The global declaration binds `a` and the final `print a;` prints `a` |
| InterpreterFacts.ShadowingExample | Lox/Syntax/Visitors/InterpreterVisitor.cs:160-183 | The shadowing program prints `b` then `a` and leaves only the global `a` bound |
| DraftInterpreter.DraftEval | Lox/Expressions/Visitors/InterpreterVisitor.cs:57-113 | The draft only fails with Lox runtime errors, never a host crash |
| DraftInterpreter.DraftInterpret | Lox/Expressions/Visitors/InterpreterVisitor.cs:9-17 | It prints the value's `Stringify` exactly when evaluation succeeds; otherwise it reports the runtime error and prints no value |
| DraftFacts.DraftSuccessAgrees | Lox/Expressions/Visitors/InterpreterVisitor.cs:57-113 | Wherever the draft succeeds, the current evaluator yields the same value in any environment and leaves the environment alone |
| DraftFacts.DraftInterpretAgrees | Lox/Expressions/Visitors/InterpreterVisitor.cs:9-17 | Wherever the draft succeeds, its `Interpret` prints the same line as the statement evaluator running `print e;`, which completes and leaves the environment alone |
| DraftFacts.MixedPlusParts | Lox/Expressions/Visitors/InterpreterVisitor.cs:66-71 | `"s" + n` is an error in the draft but joins the texts in the current evaluator |
| AstPrinter.Parenthesized | Lox/Syntax/Visitors/AstPrinterVisitor.cs:8-19 | The text opens with `(` and the name and closes with `)` |
| AstPrinter.Parenthesize | Lox/Syntax/Visitors/AstPrinterVisitor.cs:8-19 | The builder loop produces `(name` followed by ` part` for each part in order, then `)` |
| AstPrinter.LiteralText | Lox/Syntax/Visitors/AstPrinterVisitor.cs:26 | A nil literal prints `nil`; other literals print their `ToString` |
| AstPrinter.Print | Lox/Syntax/Visitors/AstPrinterVisitor.cs:6-33 | A tree prints exactly when it uses only binary, grouping, literal and unary nodes; assignment, variable and logical nodes throw |
| AstPrinter.PrintBinaryForm | Lox/Syntax/Visitors/AstPrinterVisitor.cs:24 | A binary node prints as `(op left right)` with the operator's lexeme |
| AstPrinter.PrintGroupingForm | Lox/Syntax/Visitors/AstPrinterVisitor.cs:25 | A grouping prints as `(group inner)` |
| AstPrinter.PrintUnaryForm | Lox/Syntax/Visitors/AstPrinterVisitor.cs:27 | A unary node prints as `(op operand)` |
| AstPrinter.PrintIsBalanced | Lox/Syntax/Visitors/AstPrinterVisitor.cs:8-27 | Each composite node adds one `(` and one `)`, so plain leaves give a balanced text with one pair per composite |
| AstPrinter.PrintExample | Lox/Syntax/Visitors/AstPrinterVisitor.cs:25-27 | `-true` prints `(- True)` and a grouped nil prints `(group nil)` |

## Left out

- `Lox/Parser.cs` is not part of this model. It is an unfinished stub with no `Parse` method, so the model starts from syntax trees.
- `Lox/Lox.cs` is not part of this model: argument handling, file reading, the console prompt, exit codes and the error flags. The persistent interpreter it holds (`Lox/Lox.cs:11`) is modelled by passing the environment from one `Interpret` call to the next.
- Console output. Printed lines are returned as a sequence of strings. The error reporter is modelled by returning the reported error, `Outcome.Reported` or `DraftRun.Reported`, and lexical errors are returned as (line, message) pairs.
- Floating point. Numbers are 64-bit patterns. Arithmetic, comparison, `Double.Equals` and both text conversions are uninterpreted fields of `FloatOps`, and `double.Parse` of number lexemes is a parameter of the scanner.
- Exceptions. `RuntimeError` is the error arm of a `Result`, and the `NullReferenceException` of `nil + "s"` is a distinct `HostCrash` fault that `Interpret` does not catch.
- The visitor interfaces and `Accept` methods. They are replaced by `match` over the datatypes, which is exhaustive by construction.
- `Lox/Expressions/Expressions.cs`, the superseded draft node family. The draft evaluator runs on the current syntax tree restricted to its four variants (`Ast.InDraftFamily`).
- `Lox/Expressions/Visitors/AstPrinterVisitor.cs`. It is the current printer restricted to those four variants, so `AstPrinter.Print` on `InDraftFamily` trees covers it.
- The draft evaluator's `Stringify`, `IsTruthy`, `IsEqual` and `CheckNumberOperands` are not modelled twice. They are the same code as the statement evaluator's, and `Semantics` holds one copy.
- The statement-visiting methods of the printer, which all throw. The printer is modelled on expressions only.
- Scanner.ScanToken: the line counter is an unbounded integer, so the wrap-around of the 32-bit `_line` after 2^31 newlines is not modelled.
- Text is a sequence of Unicode scalar values, while C# strings are sequences of UTF-16 code units. A character outside the Basic Multilingual Plane, such as an emoji, is one character here and two code units in C#. The rows below state the scanner's behaviour for texts whose characters all lie in the Basic Multilingual Plane, where the two agree.
- Scanner.ScanTokens: for a text with a character outside the Basic Multilingual Plane, the positions and lexemes follow the model's scalar indexing, not the C# code-unit indexing.
- ScannerFacts.ShortSourceOnlyEof: "at most one character" means one scalar value. A lone emoji is two code units in C#, so the program reads its second half and reports an unexpected character where the model scans EOF alone.
- ScannerFacts.FirstCharacterIgnored: the ignored first character is a whole scalar value. C# ignores only the first code unit, so for an emoji first character the program still scans the emoji's second half.
- ScannerFacts.UnexpectedCharacter: the reported character is a whole scalar value. C# reports each surrogate half of a character outside the Basic Multilingual Plane separately.
- ScannerFacts.NumberToken: states only that a digit hands over to `ParseNumber`, because `ScannerFacts.ParseNumberShape` carries the shape of the number lexeme.
- Semantics.Stringify: the culture-invariant number text is the uninterpreted `invariantText`, so the claim that whole numbers print without a fractional part holds only as far as that text ends in `.0`.
