/** The tokenizer's state machine as pure functions: one step on the next unread
 *  character, and the whole run over an input. */
module Machine {
  import opened CharClasses
  import opened Nodes

  datatype Option<T> = None | Some(value: T)

  /** The seven states, numbered 0 to 6 in the source. */
  datatype State =
    | Start   // 0: no lexeme in progress
    | Sign    // 1: a leading '+' or '-'
    | Int     // 2: digits of a number
    | Frac    // 3: a number after its '.'
    | Star    // 4: one '*'
    | Punct   // 5: a complete '=', '(', ')' or "**"
    | Ident   // 6: an identifier

  /** The tokenizer's local variables between two iterations of its loop. */
  datatype Config = Config(state: State, lexeme: string, line: int, column: int)

  const Init := Config(Start, "", 1, 1)

  /** The exception thrown on an invalid character, with the position it reports. */
  datatype LexError = LexError(c: char, line: int, column: int)

  /** What one iteration does: consume the character, emit a token without
   *  consuming it, or throw. */
  datatype StepResult =
    | Consume(next: Config)
    | Emit(token: Token, next: Config)
    | Throw(error: LexError)

  /** The category a state emits its lexeme as. */
  function EmittedSymbol(s: State): Symbol {
    match s
    case Sign | Star | Punct => LITERAL
    case Int | Frac => NUM
    case Ident => ID
    case Start => WS
  }

  /** 1 while a lexeme is pending: an emitting step lowers it without consuming. */
  function Pending(s: State): nat {
    if s == Start then 0 else 1
  }

  /** Append `c` to the lexeme, advance the column and move to `s`. */
  function Take(cfg: Config, c: char, s: State): Config {
    Config(s, cfg.lexeme + [c], cfg.line, cfg.column + 1)
  }

  /** Emit the lexeme with the current position and return to the start state. */
  function Flush(cfg: Config, sym: Symbol): StepResult {
    Emit(Token(sym, cfg.lexeme, cfg.line, cfg.column), Config(Start, "", cfg.line, cfg.column))
  }

  /** One iteration of the tokenizer's loop, `c` being the peeked character. */
  function Step(k: Classes, cfg: Config, c: char): (r: StepResult)
    ensures r.Throw? <==> cfg.state == Start && !Recognized(k, c)
    ensures r.Throw? ==> r.error == LexError(c, cfg.line, cfg.column)
    ensures r.Emit? ==> cfg.state != Start && r.next == Config(Start, "", cfg.line, cfg.column)
    ensures r.Emit? ==> r.token == Token(EmittedSymbol(cfg.state), cfg.lexeme, cfg.line, cfg.column)
    ensures r.Consume? ==> r.next.line >= cfg.line
    ensures r.Consume? && r.next.lexeme != cfg.lexeme ==> r.next.lexeme == cfg.lexeme + [c]
    ensures r.Consume? && c != '\n' ==> r.next.line == cfg.line && r.next.column == cfg.column + 1
  {
    match cfg.state
    case Start =>
      if c == '\n' then Consume(cfg.(line := cfg.line + 1, column := 1))
      else if k.isWhiteSpace(c) || c == ' ' || c == '\t' then Consume(cfg.(column := cfg.column + 1))
      else if c == '+' || c == '-' then Consume(Take(cfg, c, Sign))
      else if '0' <= c <= '9' then Consume(Take(cfg, c, Int))
      else if c == '*' then Consume(Take(cfg, c, Star))
      else if k.isLetter(c) || c == '_' then Consume(Take(cfg, c, Ident))
      else if c in "=()" then Consume(Take(cfg, c, Punct))
      else Throw(LexError(c, cfg.line, cfg.column))
    case Sign =>
      if k.isDigit(c) then Consume(Take(cfg, c, Int)) else Flush(cfg, LITERAL)
    case Int =>
      if k.isDigit(c) then Consume(Take(cfg, c, Int))
      else if c == '.' then Consume(Take(cfg, c, Frac))
      else Flush(cfg, NUM)
    case Frac =>
      if k.isDigit(c) then Consume(Take(cfg, c, Frac)) else Flush(cfg, NUM)
    case Star =>
      if c == '*' then Consume(Take(cfg, c, Punct)) else Flush(cfg, LITERAL)
    case Punct =>
      Flush(cfg, LITERAL)
    case Ident =>
      if IsIdentChar(k, c) then Consume(Take(cfg, c, Ident)) else Flush(cfg, ID)
  }

  /** How a run ends: the input ran out (the configuration then current, with any
   *  lexeme still pending, is dropped), or an error was thrown at index `at`. */
  datatype Halt = Exhausted(last: Config) | Failed(error: LexError, at: nat)

  /** The tokens handed out, in order, and how the run ended. */
  datatype Outcome = Outcome(tokens: seq<Token>, halt: Halt)

  /** The loop run from configuration `cfg` with `src[i..]` unread, after handing out
   *  `done`. Tokens handed out stay handed out, whatever happens later. */
  function Run(k: Classes, src: string, i: nat, cfg: Config, done: seq<Token>): (o: Outcome)
    requires i <= |src|
    ensures done <= o.tokens
    ensures o.halt.Failed? ==> i <= o.halt.at < |src| && o.halt.error.c == src[o.halt.at]
    ensures o.halt.Exhausted? ==> o.halt.last.line >= cfg.line
    decreases |src| - i, Pending(cfg.state)
  {
    if i == |src| then Outcome(done, Exhausted(cfg))
    else
      match Step(k, cfg, src[i])
      case Consume(next) => Run(k, src, i + 1, next, done)
      case Emit(t, next) => Run(k, src, i, next, done + [t])
      case Throw(e) => Outcome(done, Failed(e, i))
  }

  /** Tokenizing a whole input from the initial configuration. A throw is at a
   *  character of the input, and the line ends no lower than where it started. */
  function Lex(k: Classes, src: string): (o: Outcome)
    ensures o.halt.Failed? ==> o.halt.at < |src| && o.halt.error.c == src[o.halt.at]
    ensures o.halt.Exhausted? ==> o.halt.last.line >= 1
  {
    Run(k, src, 0, Init, [])
  }

  /** One unfolding of `Run`, by the kind of step taken. */
  lemma RunUnfold(k: Classes, src: string, i: nat, cfg: Config, done: seq<Token>)
    requires i < |src|
    ensures var r := Step(k, cfg, src[i]);
      && (r.Consume? ==> Run(k, src, i, cfg, done) == Run(k, src, i + 1, r.next, done))
      && (r.Emit? ==> Run(k, src, i, cfg, done) == Run(k, src, i, r.next, done + [r.token]))
      && (r.Throw? ==> Run(k, src, i, cfg, done) == Outcome(done, Failed(r.error, i)))
  {
  }
}
