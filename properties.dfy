/** What the tokenizer guarantees: the configuration invariant its loop keeps, and
 *  the consequences for every run (token shapes, positions, consumed text, errors). */
module Properties {
  import opened CharClasses
  import opened Nodes
  import opened Machine

  // ---------------------------------------------------------------- positions

  /** The line after reading `src[..n]`: one more than the newlines in it. */
  function Line(src: string, n: nat): int
    requires n <= |src|
  {
    if n == 0 then 1 else Line(src, n - 1) + (if src[n - 1] == '\n' then 1 else 0)
  }

  /** The column after reading `src[..n]`: one more than the characters since its
   *  last newline. */
  function Column(src: string, n: nat): int
    requires n <= |src|
  {
    if n == 0 then 1 else if src[n - 1] == '\n' then 1 else Column(src, n - 1) + 1
  }

  /** The characters of `src[..n]` that are not skipped as blanks, in order. */
  function Kept(k: Classes, src: string, n: nat): string
    requires n <= |src|
  {
    if n == 0 then [] else Kept(k, src, n - 1) + (if Blank(k, src[n - 1]) then [] else [src[n - 1]])
  }

  /** The token texts, concatenated. */
  function Flatten(ts: seq<Token>): string {
    if ts == [] then [] else Flatten(ts[..|ts| - 1]) + ts[|ts| - 1].text
  }

  // ---------------------------------------------------------------- shapes

  predicate NoBlank(k: Classes, s: string) {
    forall j | 0 <= j < |s| :: !Blank(k, s[j])
  }

  predicate AllDigits(k: Classes, s: string) {
    forall j | 0 <= j < |s| :: k.isDigit(s[j])
  }

  predicate IsSign(c: char) { c == '+' || c == '-' }

  /** An optional sign and one or more digits; without a sign the first digit is ASCII. */
  predicate IsIntText(k: Classes, s: string) {
    && |s| > 0
    && (if IsSign(s[0]) then |s| > 1 else IsAsciiDigit(s[0]))
    && AllDigits(k, s[1..])
  }

  /** `s` is an integer part, a '.' at index `j`, then zero or more digits. */
  predicate FracAt(k: Classes, s: string, j: int) {
    0 < j < |s| && s[j] == '.' && IsIntText(k, s[..j]) && AllDigits(k, s[j + 1..])
  }

  predicate IsFracText(k: Classes, s: string) {
    exists j | 0 <= j < |s| :: FracAt(k, s, j)
  }

  predicate IsNumText(k: Classes, s: string) {
    IsIntText(k, s) || IsFracText(k, s)
  }

  /** A letter or '_', then letters, digits or '_'. */
  predicate IsIdentText(k: Classes, s: string) {
    && |s| > 0
    && (k.isLetter(s[0]) || s[0] == '_')
    && forall j | 1 <= j < |s| :: IsIdentChar(k, s[j])
  }

  const Literals: set<string> := {"+", "-", "*", "**", "=", "(", ")"}

  /** The lexeme each state can be holding. */
  predicate LexemeShape(k: Classes, s: State, lexeme: string) {
    match s
    case Start => lexeme == ""
    case Sign => lexeme == "+" || lexeme == "-"
    case Int => IsIntText(k, lexeme)
    case Frac => IsFracText(k, lexeme)
    case Star => lexeme == "*"
    case Punct => lexeme in {"=", "(", ")", "**"}
    case Ident => IsIdentText(k, lexeme)
  }

  /** An emitted token: non-empty, blank-free text of the shape its category names. */
  predicate WellFormed(k: Classes, t: Token) {
    && |t.text| > 0
    && NoBlank(k, t.text)
    && match t.symbol
       case WS => false
       case LITERAL => t.text in Literals
       case NUM => IsNumText(k, t.text)
       case ID => IsIdentText(k, t.text)
  }

  /** `t`'s text ends at index `e` of `src`; its recorded position is the one after
   *  reading `src[..e]`, which is on the line where the text starts, |text| columns on. */
  predicate PlacedAt(src: string, t: Token, e: int) {
    && |t.text| <= e <= |src|
    && src[e - |t.text|..e] == t.text
    && t.line == Line(src, e) && t.column == Column(src, e)
    && t.line == Line(src, e - |t.text|) && t.column == Column(src, e - |t.text|) + |t.text|
  }

  predicate Placed(src: string, t: Token) {
    exists e | 0 <= e <= |src| :: PlacedAt(src, t, e)
  }

  // ---------------------------------------------------------------- the invariant

  /** The loop invariant of the tokenizer, `ts` being the tokens handed out so far and
   *  `src[..i]` the characters consumed so far. */
  predicate Inv(k: Classes, src: string, i: nat, ts: seq<Token>, cfg: Config) {
    LexemeOk(k, src, i, cfg) && PositionOk(src, i, cfg) && KeptOk(k, src, i, ts, cfg) && AllPlaced(k, src, ts)
  }

  /** The pending lexeme is the last characters consumed, blank-free, of its state's shape. */
  predicate LexemeOk(k: Classes, src: string, i: nat, cfg: Config) {
    && i <= |src|
    && |cfg.lexeme| <= i && src[i - |cfg.lexeme|..i] == cfg.lexeme
    && LexemeShape(k, cfg.state, cfg.lexeme) && NoBlank(k, cfg.lexeme)
  }

  /** The counters are the position after `src[..i]`, |lexeme| columns on from where
   *  the lexeme starts. */
  predicate PositionOk(src: string, i: nat, cfg: Config) {
    && i <= |src| && |cfg.lexeme| <= i
    && cfg.line == Line(src, i) && cfg.column == Column(src, i)
    && cfg.line == Line(src, i - |cfg.lexeme|) && cfg.column == Column(src, i - |cfg.lexeme|) + |cfg.lexeme|
  }

  /** The non-blank characters consumed are the token texts, then the lexeme. */
  predicate KeptOk(k: Classes, src: string, i: nat, ts: seq<Token>, cfg: Config) {
    i <= |src| && Kept(k, src, i) == Flatten(ts) + cfg.lexeme
  }

  /** Every token of `ts` is well formed and placed in `src`. */
  predicate AllPlaced(k: Classes, src: string, ts: seq<Token>) {
    ts == [] || (AllPlaced(k, src, ts[..|ts| - 1]) && WellFormed(k, ts[|ts| - 1]) && Placed(src, ts[|ts| - 1]))
  }

  lemma AllPlacedSnoc(k: Classes, src: string, ts: seq<Token>, t: Token)
    requires AllPlaced(k, src, ts) && WellFormed(k, t) && Placed(src, t)
    ensures AllPlaced(k, src, ts + [t])
  {
    assert (ts + [t])[..|ts|] == ts;
  }

  lemma {:induction false} AllPlacedEach(k: Classes, src: string, ts: seq<Token>)
    requires AllPlaced(k, src, ts)
    ensures forall t | t in ts :: WellFormed(k, t) && Placed(src, t)
  {
    if ts != [] {
      AllPlacedEach(k, src, ts[..|ts| - 1]);
      assert ts == ts[..|ts| - 1] + [ts[|ts| - 1]];
    }
  }

  lemma FlattenSnoc(ts: seq<Token>, t: Token)
    ensures Flatten(ts + [t]) == Flatten(ts) + t.text
  {
    assert (ts + [t])[..|ts|] == ts;
  }

  /** Under Consistent, what the non-start states append is never blank. */
  lemma ClassFacts(k: Classes, c: char)
    requires Consistent(k)
    ensures IsIdentChar(k, c) ==> !Blank(k, c)
    ensures c == '.' || c == '*' ==> !Blank(k, c)
  {
  }

  lemma InitInv(k: Classes, src: string)
    ensures Inv(k, src, 0, [], Init)
  {
  }

  // ---------------------------------------------------------------- one step

  /** Consuming a non-blank character into the lexeme keeps the invariant when the
   *  longer lexeme has the shape of the new state. */
  lemma TakeKeepsInv(k: Classes, src: string, i: nat, ts: seq<Token>, cfg: Config, s: State)
    requires Inv(k, src, i, ts, cfg) && i < |src|
    requires !Blank(k, src[i]) && LexemeShape(k, s, cfg.lexeme + [src[i]])
    ensures Inv(k, src, i + 1, ts, Take(cfg, src[i], s))
  {
    TakeLexeme(k, src, i, cfg, s);
    TakePosition(src, i, cfg, s);
    TakeKept(k, src, i, ts, cfg, s);
  }

  lemma TakeLexeme(k: Classes, src: string, i: nat, cfg: Config, s: State)
    requires LexemeOk(k, src, i, cfg) && i < |src|
    requires !Blank(k, src[i]) && LexemeShape(k, s, cfg.lexeme + [src[i]])
    ensures LexemeOk(k, src, i + 1, Take(cfg, src[i], s))
  {
    var from := i - |cfg.lexeme|;
    assert src[from..i + 1] == src[from..i] + [src[i]];
  }

  lemma TakePosition(src: string, i: nat, cfg: Config, s: State)
    requires PositionOk(src, i, cfg) && i < |src| && src[i] != '\n'
    ensures PositionOk(src, i + 1, Take(cfg, src[i], s))
  {
    assert i + 1 - |cfg.lexeme + [src[i]]| == i - |cfg.lexeme|;
  }

  lemma TakeKept(k: Classes, src: string, i: nat, ts: seq<Token>, cfg: Config, s: State)
    requires KeptOk(k, src, i, ts, cfg) && i < |src| && !Blank(k, src[i])
    ensures KeptOk(k, src, i + 1, ts, Take(cfg, src[i], s))
  {
    assert (Flatten(ts) + cfg.lexeme) + [src[i]] == Flatten(ts) + (cfg.lexeme + [src[i]]);
  }

  /** Skipping a blank character in the start state keeps the invariant. */
  lemma SkipKeepsInv(k: Classes, src: string, i: nat, ts: seq<Token>, cfg: Config)
    requires Inv(k, src, i, ts, cfg) && i < |src| && cfg.state == Start
    requires Blank(k, src[i])
    ensures Step(k, cfg, src[i]).Consume? && Inv(k, src, i + 1, ts, Step(k, cfg, src[i]).next)
  {
    var next := Step(k, cfg, src[i]).next;
    assert next.lexeme == "" && next.state == Start;
    assert LexemeOk(k, src, i + 1, next);
    assert PositionOk(src, i + 1, next);
    assert KeptOk(k, src, i + 1, ts, next);
  }

  /** A pending lexeme of a non-start state is a well-formed token of the category
   *  that state emits. */
  lemma EmittedWellFormed(k: Classes, s: State, lex: string, line: int, column: int)
    requires s != Start && LexemeShape(k, s, lex) && NoBlank(k, lex)
    ensures WellFormed(k, Token(EmittedSymbol(s), lex, line, column))
  {
    if s == Frac {
      var j :| 0 <= j < |lex| && FracAt(k, lex, j);
    }
  }

  /** Emitting the pending lexeme keeps the invariant, with one more token handed out. */
  lemma EmitKeepsInv(k: Classes, src: string, i: nat, ts: seq<Token>, cfg: Config)
    requires Inv(k, src, i, ts, cfg) && cfg.state != Start
    ensures var t := Token(EmittedSymbol(cfg.state), cfg.lexeme, cfg.line, cfg.column);
            Inv(k, src, i, ts + [t], Config(Start, "", cfg.line, cfg.column))
  {
    var t := Token(EmittedSymbol(cfg.state), cfg.lexeme, cfg.line, cfg.column);
    var next := Config(Start, "", cfg.line, cfg.column);
    EmittedWellFormed(k, cfg.state, cfg.lexeme, cfg.line, cfg.column);
    assert PlacedAt(src, t, i);
    AllPlacedSnoc(k, src, ts, t);
    assert LexemeOk(k, src, i, next);
    assert PositionOk(src, i, next);
    FlattenSnoc(ts, t);
    assert KeptOk(k, src, i, ts + [t], next);
  }

  lemma IntSnoc(k: Classes, s: string, c: char)
    requires IsIntText(k, s) && k.isDigit(c)
    ensures IsIntText(k, s + [c])
  {
    assert (s + [c])[1..] == s[1..] + [c];
  }

  lemma IntDot(k: Classes, s: string)
    requires IsIntText(k, s)
    ensures IsFracText(k, s + ['.'])
  {
    var t := s + ['.'];
    assert t[..|s|] == s;
    assert FracAt(k, t, |s|);
  }

  lemma FracSnoc(k: Classes, s: string, c: char)
    requires IsFracText(k, s) && k.isDigit(c)
    ensures IsFracText(k, s + [c])
  {
    var j :| 0 <= j < |s| && FracAt(k, s, j);
    var t := s + [c];
    assert t[..j] == s[..j];
    assert t[j + 1..] == s[j + 1..] + [c];
    assert FracAt(k, t, j);
  }

  lemma IdentSnoc(k: Classes, s: string, c: char)
    requires IsIdentText(k, s) && IsIdentChar(k, c)
    ensures IsIdentText(k, s + [c])
  {
  }

  /** A step that consumes a character into the lexeme appends a non-blank character
   *  and leaves a lexeme of the new state's shape. */
  lemma TakeShape(k: Classes, cfg: Config, c: char)
    requires Consistent(k) && LexemeShape(k, cfg.state, cfg.lexeme)
    requires Step(k, cfg, c).Consume? && !(cfg.state == Start && Blank(k, c))
    ensures var next := Step(k, cfg, c).next;
      && next == Take(cfg, c, next.state)
      && !Blank(k, c) && LexemeShape(k, next.state, next.lexeme)
  {
    ClassFacts(k, c);
    match cfg.state
    case Start =>
      assert cfg.lexeme + [c] == [c];
    case Sign =>
      assert (cfg.lexeme + [c])[1..] == [c];
    case Int =>
      if k.isDigit(c) {
        IntSnoc(k, cfg.lexeme, c);
      } else {
        IntDot(k, cfg.lexeme);
      }
    case Frac =>
      FracSnoc(k, cfg.lexeme, c);
    case Star =>
      assert cfg.lexeme + [c] == "**";
    case Ident =>
      IdentSnoc(k, cfg.lexeme, c);
  }

  /** One iteration keeps the invariant; a throw happens in the start state, at the
   *  unread character, on a character the start state does not recognise. */
  lemma StepKeepsInv(k: Classes, src: string, i: nat, ts: seq<Token>, cfg: Config)
    requires Consistent(k) && Inv(k, src, i, ts, cfg) && i < |src|
    ensures match Step(k, cfg, src[i])
            case Consume(next) => Inv(k, src, i + 1, ts, next)
            case Emit(t, next) => Inv(k, src, i, ts + [t], next)
            case Throw(e) =>
              && e.c == src[i] && !Recognized(k, e.c)
              && cfg == Config(Start, "", e.line, e.column)
  {
    var c := src[i];
    match Step(k, cfg, c)
    case Emit(t, next) =>
      EmitKeepsInv(k, src, i, ts, cfg);
    case Throw(e) =>
    case Consume(next) =>
      if cfg.state == Start && Blank(k, c) {
        SkipKeepsInv(k, src, i, ts, cfg);
      } else {
        TakeShape(k, cfg, c);
        TakeKeepsInv(k, src, i, ts, cfg, next.state);
      }
  }

  // ---------------------------------------------------------------- whole runs

  /** What holds when a run stops. */
  predicate Ends(k: Classes, src: string, o: Outcome) {
    match o.halt
    case Exhausted(last) => Inv(k, src, |src|, o.tokens, last)
    case Failed(e, at) =>
      && at < |src| && e.c == src[at] && !Recognized(k, e.c)
      && Inv(k, src, at, o.tokens, Config(Start, "", e.line, e.column))
  }

  /** A run from a configuration satisfying the invariant ends as `Ends` says. */
  lemma {:induction false} RunKeepsInv(k: Classes, src: string, i: nat, ts: seq<Token>, cfg: Config)
    requires Consistent(k) && Inv(k, src, i, ts, cfg)
    ensures Ends(k, src, Run(k, src, i, cfg, ts))
    decreases |src| - i, Pending(cfg.state)
  {
    if i < |src| {
      StepKeepsInv(k, src, i, ts, cfg);
      RunUnfold(k, src, i, cfg, ts);
      match Step(k, cfg, src[i])
      case Consume(next) => RunKeepsInv(k, src, i + 1, ts, next);
      case Emit(t, next) => RunKeepsInv(k, src, i, ts + [t], next);
      case Throw(e) =>
    }
  }

  /** Every token handed out is well formed and sits where its position says. */
  lemma LexTokensWellFormed(k: Classes, src: string)
    requires Consistent(k)
    ensures forall t | t in Lex(k, src).tokens :: WellFormed(k, t) && Placed(src, t)
  {
    InitInv(k, src);
    RunKeepsInv(k, src, 0, [], Init);
    AllPlacedEach(k, src, Lex(k, src).tokens);
  }

  /** How a run ends. When the input runs out, all of it was consumed: its non-blank
   *  characters are the token texts followed by the lexeme still pending, which is
   *  dropped, and the counters are the position after the input. When the run throws,
   *  it does so at an unrecognised character, the token texts are exactly the non-blank
   *  characters before it, and the error carries its position. */
  lemma LexConsumption(k: Classes, src: string)
    requires Consistent(k)
    ensures var o := Lex(k, src);
      o.halt.Exhausted? ==>
        var last := o.halt.last;
        && Kept(k, src, |src|) == Flatten(o.tokens) + last.lexeme
        && LexemeShape(k, last.state, last.lexeme)
        && |last.lexeme| <= |src| && src[|src| - |last.lexeme|..] == last.lexeme
        && last.line == Line(src, |src|) && last.column == Column(src, |src|)
    ensures var o := Lex(k, src);
      o.halt.Failed? ==>
        var e, at := o.halt.error, o.halt.at;
        && at < |src| && e.c == src[at] && !Recognized(k, e.c)
        && Kept(k, src, at) == Flatten(o.tokens)
        && e.line == Line(src, at) && e.column == Column(src, at)
  {
    InitInv(k, src);
    RunKeepsInv(k, src, 0, [], Init);
  }

  /** A run over characters that the start state all recognises never throws. */
  lemma {:induction false} RunSucceeds(k: Classes, src: string, i: nat, cfg: Config, done: seq<Token>)
    requires i <= |src|
    requires forall j | i <= j < |src| :: Recognized(k, src[j])
    ensures Run(k, src, i, cfg, done).halt.Exhausted?
    decreases |src| - i, Pending(cfg.state)
  {
    if i < |src| {
      match Step(k, cfg, src[i])
      case Consume(next) => RunSucceeds(k, src, i + 1, next, done);
      case Emit(t, next) => RunSucceeds(k, src, i, next, done + [t]);
      case Throw(e) => assert false;
    }
  }

  /** A character that no state consumes: unrecognised in the start state, and neither
   *  a '.' nor a digit, which the integer and fraction states would take. */
  predicate Stuck(k: Classes, c: char) {
    !Recognized(k, c) && c != '.' && !k.isDigit(c)
  }

  /** A run that reaches a stuck character throws there or earlier: every state other
   *  than the start state emits on it, and the start state then throws. */
  lemma {:induction false} RunFailsBy(k: Classes, src: string, i: nat, cfg: Config, done: seq<Token>, j: nat)
    requires i <= j < |src| && Stuck(k, src[j])
    ensures Run(k, src, i, cfg, done).halt.Failed? && Run(k, src, i, cfg, done).halt.at <= j
    decreases |src| - i, Pending(cfg.state)
  {
    RunUnfold(k, src, i, cfg, done);
    match Step(k, cfg, src[i])
    case Consume(next) => RunFailsBy(k, src, i + 1, next, done, j);
    case Emit(t, next) => RunFailsBy(k, src, i, next, done + [t], j);
    case Throw(e) =>
  }

  /** The error condition: a run throws only at a character the start state does not
   *  recognise, so an input without such characters never throws; conversely a stuck
   *  character (unrecognised, and neither '.' nor a digit) makes the run throw at it
   *  or before it. */
  lemma LexFailsIff(k: Classes, src: string)
    ensures Lex(k, src).halt.Failed? ==> !Recognized(k, src[Lex(k, src).halt.at])
    ensures (forall j | 0 <= j < |src| :: Recognized(k, src[j])) ==> Lex(k, src).halt.Exhausted?
    ensures forall j | 0 <= j < |src| && Stuck(k, src[j]) :: Lex(k, src).halt.Failed? && Lex(k, src).halt.at <= j
  {
    forall j | 0 <= j < |src| && Stuck(k, src[j])
      ensures Lex(k, src).halt.Failed? && Lex(k, src).halt.at <= j
    {
      RunFailsBy(k, src, 0, Init, [], j);
    }
    if forall j | 0 <= j < |src| :: Recognized(k, src[j]) {
      RunSucceeds(k, src, 0, Init, []);
    }
    if Lex(k, src).halt.Failed? {
      FailedAtUnrecognized(k, src, 0, Init, []);
    }
  }

  /** A throw is raised at an unrecognised character. */
  lemma {:induction false} FailedAtUnrecognized(k: Classes, src: string, i: nat, cfg: Config, done: seq<Token>)
    requires i <= |src| && Run(k, src, i, cfg, done).halt.Failed?
    ensures !Recognized(k, src[Run(k, src, i, cfg, done).halt.at])
    decreases |src| - i, Pending(cfg.state)
  {
    match Step(k, cfg, src[i])
    case Consume(next) => FailedAtUnrecognized(k, src, i + 1, next, done);
    case Emit(t, next) => FailedAtUnrecognized(k, src, i, next, done + [t]);
    case Throw(e) =>
  }

  /** Input made only of blanks hands out no tokens, and the run ends in the start
   *  state at the position after the input. */
  lemma BlankInput(k: Classes, src: string)
    requires Consistent(k)
    requires forall j | 0 <= j < |src| :: Blank(k, src[j])
    ensures Lex(k, src) == Outcome([], Exhausted(Config(Start, "", Line(src, |src|), Column(src, |src|))))
  {
    LexFailsIff(k, src);
    LexConsumption(k, src);
    LexTokensWellFormed(k, src);
    KeptBlank(k, src, |src|);
    FlattenEmpty(Lex(k, src).tokens);
  }

  lemma {:induction false} KeptBlank(k: Classes, src: string, n: nat)
    requires n <= |src| && forall j | 0 <= j < n :: Blank(k, src[j])
    ensures Kept(k, src, n) == []
  {
    if n > 0 {
      KeptBlank(k, src, n - 1);
    }
  }

  /** Token texts are non-empty, so no tokens flatten to the empty text. */
  lemma FlattenEmpty(ts: seq<Token>)
    requires forall t | t in ts :: |t.text| > 0
    requires Flatten(ts) == []
    ensures ts == []
  {
  }
}
