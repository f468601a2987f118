/** The tokenizer itself: the loop over the input, with the state, the lexeme and
 *  the position counters as local variables, handing out nodes. Each iteration
 *  takes the transition `Step` gives for the peeked character. */
module Tokenizer {
  import opened CharClasses
  import opened Nodes
  import opened Machine
  import Properties

  /** Runs the state machine over `src`. The nodes are the tokens the run hands out,
   *  in order, each a new leaf node of its own; `error` is the exception it throws, if
   *  any, after those nodes. When the character tests behave as .NET's do, every node
   *  is a well-formed token placed in the input at the position it records. */
  method Tokenize(k: Classes, src: string) returns (nodes: seq<Node>, error: Option<LexError>)
    ensures |nodes| == |Lex(k, src).tokens|
    ensures forall j | 0 <= j < |nodes| :: nodes[j].View() == Lex(k, src).tokens[j]
    ensures error.Some? <==> Lex(k, src).halt.Failed?
    ensures error.Some? ==> error.value == Lex(k, src).halt.error
    ensures Consistent(k) ==>
      forall j | 0 <= j < |nodes| :: Properties.WellFormed(k, nodes[j].View()) && Properties.Placed(src, nodes[j].View())
    ensures forall n | n in nodes :: fresh(n) && n.children == []
    ensures forall a, b | 0 <= a < b < |nodes| :: nodes[a] != nodes[b]
  {
    var line, column := 1, 1;
    var lexeme := "";
    var state := Start;
    var i := 0;
    ghost var emitted: seq<Token> := [];
    nodes, error := [], None;
    if Consistent(k) {
      Properties.LexTokensWellFormed(k, src);
    }
    while i < |src|
      invariant i <= |src|
      invariant |nodes| == |emitted|
      invariant forall j | 0 <= j < |nodes| :: nodes[j].View() == emitted[j]
      invariant Run(k, src, i, Config(state, lexeme, line, column), emitted) == Lex(k, src)
      invariant forall n | n in nodes :: fresh(n) && n.children == []
      invariant forall a, b | 0 <= a < b < |nodes| :: nodes[a] != nodes[b]
      decreases |src| - i, Pending(state)
    {
      var c := src[i];
      var cfg := Config(state, lexeme, line, column);
      RunUnfold(k, src, i, cfg, emitted);
      match Step(k, cfg, c)
      case Consume(next) =>
        state, lexeme, line, column := next.state, next.lexeme, next.line, next.column;
        i := i + 1;
      case Emit(t, next) =>
        var n := new Node(t.symbol, t.text, t.line, t.column);
        nodes, emitted := nodes + [n], emitted + [t];
        state, lexeme := next.state, next.lexeme;
      case Throw(e) =>
        error := Some(e);
        return;
    }
  }
}
