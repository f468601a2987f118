/** Token categories and the parse-tree node the tokenizer hands out. */
module Nodes {

  /** The token categories; WS is declared but never produced. */
  datatype Symbol = WS | ID | NUM | LITERAL

  /** The value a node carries: its category, text and recorded position. */
  datatype Token = Token(symbol: Symbol, text: string, line: int, column: int)

  /** A parse-tree node. Category, line and column have only getters, so they are
   *  constants; the text has a setter. The list of children is created empty and is
   *  never filled in. */
  class Node {
    const symbol: Symbol
    var text: string
    const line: int
    const column: int
    const children: seq<Node>

    constructor (symbol: Symbol, text: string := "", line: int := 0, column: int := 0)
      ensures this.symbol == symbol && this.text == text
      ensures this.line == line && this.column == column
      ensures children == []
    {
      this.symbol := symbol;
      this.text := text;
      this.line := line;
      this.column := column;
      children := [];
    }

    /** The four observable fields as a value. */
    function View(): Token
      reads this
    {
      Token(symbol, text, line, column)
    }

    /** The `Text` setter: replaces the text and nothing else. */
    method SetText(value: string)
      modifies this
      ensures text == value
      ensures View() == old(View()).(text := value)
    {
      text := value;
    }
  }
}
