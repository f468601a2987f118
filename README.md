# Expression tokenizer, modelled in Dafny

`ExpressionParser.tokenize` in `lex.cs` is a hand-written lexical analyser. It reads a
character stream and hands out `Node`s for the tokens of a small expression language:

- identifiers (ID);
- numbers with an optional sign and decimal point (NUM);
- the literals `+ - * ** = ( )` (LITERAL).

Each node records its category, its text, and the line and column the counters show
when the node is created. That is the position just after the token's last character.

The tokenizer is a seven-state machine: start, sign, integer, fraction, star,
punctuation and identifier. It peeks at one character per iteration. It then does one
of three things:

- consumes the character into the pending lexeme, or skips it as a blank;
- emits the pending lexeme without consuming anything;
- throws on a character that the start state does not recognise.

When the input runs out the loop simply stops. Whatever lexeme is still pending at that
point is dropped.

The model has six modules:

- `CharClasses` (`classes.dfy`): the three .NET character tests, taken as a parameter.
  `Consistent` states what .NET guarantees about them on ASCII.
- `Nodes` (`node.dfy`): the `Symbol` enumeration and the `Node` class, with its
  constructor and its `Text` setter.
- `Machine` (`machine.dfy`): the transition of one loop iteration (`Step`), the
  whole run as a function (`Run`, `Lex`), and the error value.
- `Properties` (`properties.dfy`): the loop invariant and what follows from it.
  - Every token is well formed.
  - Every token sits at the position it records.
  - The non-blank input is exactly the token texts followed by the dropped lexeme.
  - Throws happen only at characters the start state does not recognise, with the
    right position. Conversely, a character that no state consumes makes the run throw
    at it or earlier. Such a character is unrecognised and is neither `.` nor a digit.
    The integer and fraction states take `.` and digits, so `"1.5 "` is one number.
- `Tokenizer` (`tokenizer.dfy`): the tokenizer as an imperative loop. It keeps the
  state, the lexeme, the line and the column in local variables and allocates a
  `Node` for each token. It is proved equal to `Lex`.
- `Examples` (`examples.dfy`): the run on particular inputs, under the ASCII
  classification.

Where the code and its documented intent differ, the model follows the code:

- **A sign followed by a digit starts a number.** `"-5 "` gives NUM `-5`, not a
  literal, because state 1 moves to state 2, which emits NUM. The same holds after an
  identifier: `"x+4.5\n"` gives ID `x` and then NUM `+4.5`.
- **A lexeme pending at end of input is dropped.** `"123"`, `"-"`, `"**"` and `"="`
  give no tokens. `"a + 4.5"` gives only ID `a` and LITERAL `+`.
- **A token's children are an empty list, not absent.** The class comment says they
  should be null, but the field is initialised to an empty list.
- **Start-state digits are ASCII.** The start state tests `'0' <= c <= '9'`. The sign,
  integer and fraction states call `char.IsDigit`, which accepts other Unicode digits.
  The shape predicates say exactly this.

Each token's Line and Column are the values after its last character. On the
same line, that is the start column plus the length of the text.

## Model

| member | source | states |
|---|---|---|
| Nodes.Node.constructor | lex.cs:20-31 | the new node has exactly the given symbol, text, line and column, and an empty list of children |
| Nodes.Node.SetText | lex.cs:33-41 | the setter replaces the text; symbol, line, column and children are unchanged |
| Machine.Step | lex.cs:78-183 | one iteration of the switch. It throws exactly in the start state on a character that no start-state test accepts, and the error carries that character and the current line and column. An emission happens only outside the start state: it hands out the pending lexeme with the current position and the category of the state, and returns to the start state with an empty lexeme and the position unchanged. A consume never decreases the line, appends at most the peeked character to the lexeme, and advances the column by one on anything but a newline |
| Machine.Lex | lex.cs:66-75 | `tokenize` on a fresh reader: the run from line 1, column 1, state 0 and an empty lexeme, with nothing handed out yet. A throw is at a character of the input and carries that character. The final line is at least 1 |
| Machine.Run | lex.cs:75-185 | the loop run to the end. Tokens already handed out stay a prefix of the result. A throw happens at an unread index and carries the character found there. The line never goes down |
| Properties.InitInv | lex.cs:69-73 | the initial counters, empty lexeme and start state satisfy the loop invariant |
| Properties.SkipKeepsInv | lex.cs:80-86 | skipping a newline or blank in the start state is a consume that keeps the invariant |
| Properties.TakeKeepsInv | lex.cs:87-111 | appending a non-blank character to the lexeme, with the column advanced, keeps the invariant when the new lexeme has the new state's shape |
| Properties.TakeShape | lex.cs:87-176 | every step that appends to the lexeme appends a non-blank character and leaves a lexeme of the shape its new state allows (sign, integer, fraction, star, `=`/`(`/`)`/`**`, identifier) |
| Properties.IntSnoc | lex.cs:129-132 | an integer text followed by a digit is an integer text |
| Properties.IntDot | lex.cs:133-137 | an integer text followed by `.` is a fraction text |
| Properties.FracSnoc | lex.cs:145-148 | a fraction text followed by a digit is a fraction text |
| Properties.IdentSnoc | lex.cs:173-176 | an identifier followed by a letter, digit or `_` is an identifier |
| Properties.EmittedWellFormed | lex.cs:116-182 | the lexeme a non-start state holds, emitted with that state's category, is a well-formed token: non-empty, blank-free, not WS, and of its category's shape |
| Properties.EmitKeepsInv | lex.cs:116-182 | emitting the pending lexeme keeps the invariant with one more token handed out, and the new token is placed in the input |
| Properties.StepKeepsInv | lex.cs:78-183 | every iteration keeps the invariant. A throw happens only in the start state with an empty lexeme, on an unrecognised peeked character, at the current position |
| Properties.RunKeepsInv | lex.cs:75-185 | a run from any configuration satisfying the invariant ends in a state satisfying it: at the end of the input, or at the unrecognised character it threw on |
| Properties.LexTokensWellFormed | lex.cs:116-182 | every token handed out is well formed and not WS, and it occurs in the input at the position it records: the characters before its line and column are its text, and that text starts on the same line |
| Properties.LexConsumption | lex.cs:69-185 | when the input runs out, the non-blank input is the token texts followed by the dropped pending lexeme; that lexeme ends the input and has its state's shape; the counters are the position after the input. On a throw, the token texts are exactly the non-blank characters before the offending one, and the error carries its character, line and column |
| Properties.RunSucceeds | lex.cs:79-114 | a run over characters that the start state all recognises never throws |
| Properties.FailedAtUnrecognized | lex.cs:112-114 | a run that throws does so at a character that the start state does not recognise |
| Properties.LexFailsIff | lex.cs:79-182 | the error condition. A throw implies that the character at its index is unrecognised, so an input with no unrecognised character ends by running out. Conversely, if the input holds a stuck character, the run throws at that character's index or earlier. A stuck character is one the start state does not recognise and that is neither `.` nor a digit |
| Properties.RunFailsBy | lex.cs:116-182 | from any configuration, a run that reaches a stuck character throws at that character or before it: every non-start state emits on it instead of consuming it, and the start state then throws |
| Properties.BlankInput | lex.cs:79-86 | an input of blanks alone hands out no tokens and ends in the start state, at the line and column after the input |
| Properties.KeptBlank | lex.cs:80-86 | the start state keeps nothing of a run of blanks |
| Tokenizer.Tokenize | lex.cs:66-186 | the imperative loop hands out one node per token of `Lex`, in order, with each node's symbol, text, line and column equal to the token's. It reports an error exactly when `Lex` throws, and then the same error, after the nodes yielded before it. Every node is newly allocated, distinct from the others and has an empty list of children. When the character tests are `Consistent`, every node is a well-formed token that sits at the position it records |
| Examples.NumberAtEndDropped | lex.cs:128-143 | `"123"` hands out nothing: the integer is still pending when the input runs out |
| Examples.SignedNumber | lex.cs:116-143 | `"-5 "` gives NUM `-5` at line 1, column 3 |
| Examples.PlusJoinsNumber | lex.cs:87-154 | `"x+4.5\n"` gives ID `x`, then NUM `+4.5`, and ends at line 2, column 1 |
| Examples.FractionAtEndDropped | lex.cs:75-185 | `"a + 4.5"` gives ID `a` and LITERAL `+`, while the fraction `4.5` is dropped |
| Examples.DoubleStar | lex.cs:155-171 | `"** "` gives one LITERAL `**` |
| Examples.SingleStar | lex.cs:155-182 | `"*x "` gives LITERAL `*` and then ID `x` |
| Examples.DoubleStarAtEndDropped | lex.cs:155-171 | `"**"` hands out nothing |
| Examples.EqualsAtEndDropped | lex.cs:107-111 | `"="` hands out nothing |
| Examples.DotInNumber | lex.cs:128-154 | `"1.5 "` gives NUM `1.5` and ends by running out, although the start state does not recognise `.` |
| Examples.TwoDots | lex.cs:128-154 | `"1.2.3 "` gives NUM `1.2` and then throws on the second `.` at line 1, column 4 |
| Examples.InvalidCharacter | lex.cs:112-114 | `"@"` throws on `@` at line 1, column 1 |
| Examples.InvalidOnSecondLine | lex.cs:80-114 | `"x\n @"` gives ID `x` and then throws on `@` at line 2, column 2 |

## Left out

- `Main` and the console: reading standard input, printing nodes and printing the
  exception message are I/O outside the tokenizer.
- The `StreamReader`: the input is a string. `Peek` is reading `src[i]` and `Read` is
  `i := i + 1`. Characters are Dafny characters (Unicode scalar values), not UTF-16
  code units, so a surrogate pair is one character here.
- The lazy `yield return`: `Tokenize` returns all the nodes once the loop stops,
  together with the error, if any. The nodes yielded before a throw are kept, as a
  consumer of the generator would have received them. A consumer that stops pulling
  early is not modelled.
- The Unicode tables behind `char.IsWhiteSpace`, `char.IsLetter` and `char.IsDigit`:
  they are a parameter. The proofs rely only on `Consistent`, which gives their ASCII
  behaviour and says that letters and digits are never white space.
- The exception object and its message text: a throw is the value `LexError(c, line,
  column)`, which holds the three things the message reports.
- The `Console.WriteLine` in the `Text` setter is left out. Only the assignment is
  modelled.
- `int` overflow of the line and column counters: they are unbounded integers here.
- The children list is never filled in by the core. `Node.children` is a constant
  empty sequence.
- Tokenizer.Tokenize: the loop body takes the transition `Machine.Step` gives for the
  peeked character, rather than spelling out the seven-way switch inline. The branches
  of that switch are in `Step`.
