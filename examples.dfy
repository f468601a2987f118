/** The tokenizer on particular inputs, with the character classes restricted to ASCII
 *  (which is all the inputs below contain). Each proof walks the run from its end back
 *  to its start, one step at a time. */
module Examples {
  import opened CharClasses
  import opened Nodes
  import opened Machine

  const Ascii := Classes(IsAsciiWhiteSpace, IsAsciiLetter, IsAsciiDigit)

  lemma AsciiConsistent()
    ensures Consistent(Ascii)
  {
  }

  lemma NumberAtEndDroppedSteps()
    ensures Step(Ascii, Config(Start, "", 1, 1), '1') == Consume(Config(Int, "1", 1, 2))
    ensures Step(Ascii, Config(Int, "1", 1, 2), '2') == Consume(Config(Int, "12", 1, 3))
    ensures Step(Ascii, Config(Int, "12", 1, 3), '3') == Consume(Config(Int, "123", 1, 4))
  {
  }

  /** A lexeme still pending when the input runs out is dropped: "123" hands out nothing. */
  lemma NumberAtEndDropped()
    ensures Lex(Ascii, "123") == Outcome([], Exhausted(Config(Int, "123", 1, 4)))
  {
    var s := "123";
    NumberAtEndDroppedSteps();
    assert Run(Ascii, s, 3, Config(Int, "123", 1, 4), []) == Outcome([], Exhausted(Config(Int, "123", 1, 4)));
    assert Run(Ascii, s, 2, Config(Int, "12", 1, 3), []) == Outcome([], Exhausted(Config(Int, "123", 1, 4)));
    assert Run(Ascii, s, 1, Config(Int, "1", 1, 2), []) == Outcome([], Exhausted(Config(Int, "123", 1, 4)));
    assert Run(Ascii, s, 0, Config(Start, "", 1, 1), []) == Outcome([], Exhausted(Config(Int, "123", 1, 4)));
  }

  lemma SignedNumberSteps()
    ensures Step(Ascii, Config(Start, "", 1, 1), '-') == Consume(Config(Sign, "-", 1, 2))
    ensures Step(Ascii, Config(Sign, "-", 1, 2), '5') == Consume(Config(Int, "-5", 1, 3))
    ensures Step(Ascii, Config(Int, "-5", 1, 3), ' ') == Emit(Token(NUM, "-5", 1, 3), Config(Start, "", 1, 3))
    ensures Step(Ascii, Config(Start, "", 1, 3), ' ') == Consume(Config(Start, "", 1, 4))
  {
  }

  /** A sign followed by a digit starts a number, not a literal; the position recorded is the one after the token. */
  lemma SignedNumber()
    ensures Lex(Ascii, "-5 ") == Outcome([Token(NUM, "-5", 1, 3)], Exhausted(Config(Start, "", 1, 4)))
  {
    var s := "-5 ";
    SignedNumberSteps();
    assert Run(Ascii, s, 3, Config(Start, "", 1, 4), [Token(NUM, "-5", 1, 3)]) == Outcome([Token(NUM, "-5", 1, 3)], Exhausted(Config(Start, "", 1, 4)));
    assert Run(Ascii, s, 2, Config(Start, "", 1, 3), [Token(NUM, "-5", 1, 3)]) == Outcome([Token(NUM, "-5", 1, 3)], Exhausted(Config(Start, "", 1, 4)));
    assert Run(Ascii, s, 2, Config(Int, "-5", 1, 3), []) == Outcome([Token(NUM, "-5", 1, 3)], Exhausted(Config(Start, "", 1, 4)));
    assert Run(Ascii, s, 1, Config(Sign, "-", 1, 2), []) == Outcome([Token(NUM, "-5", 1, 3)], Exhausted(Config(Start, "", 1, 4)));
    assert Run(Ascii, s, 0, Config(Start, "", 1, 1), []) == Outcome([Token(NUM, "-5", 1, 3)], Exhausted(Config(Start, "", 1, 4)));
  }

  lemma PlusJoinsNumberSteps()
    ensures Step(Ascii, Config(Start, "", 1, 1), 'x') == Consume(Config(Ident, "x", 1, 2))
    ensures Step(Ascii, Config(Ident, "x", 1, 2), '+') == Emit(Token(ID, "x", 1, 2), Config(Start, "", 1, 2))
    ensures Step(Ascii, Config(Start, "", 1, 2), '+') == Consume(Config(Sign, "+", 1, 3))
    ensures Step(Ascii, Config(Sign, "+", 1, 3), '4') == Consume(Config(Int, "+4", 1, 4))
    ensures Step(Ascii, Config(Int, "+4", 1, 4), '.') == Consume(Config(Frac, "+4.", 1, 5))
    ensures Step(Ascii, Config(Frac, "+4.", 1, 5), '5') == Consume(Config(Frac, "+4.5", 1, 6))
    ensures Step(Ascii, Config(Frac, "+4.5", 1, 6), '\n') == Emit(Token(NUM, "+4.5", 1, 6), Config(Start, "", 1, 6))
    ensures Step(Ascii, Config(Start, "", 1, 6), '\n') == Consume(Config(Start, "", 2, 1))
  {
  }

  /** With no blank between them, a '+' before a digit starts a signed number: "x+4.5" is an identifier and the number "+4.5". The newline then moves to line 2, column 1. */
  lemma PlusJoinsNumber()
    ensures Lex(Ascii, "x+4.5\n") == Outcome([Token(ID, "x", 1, 2), Token(NUM, "+4.5", 1, 6)], Exhausted(Config(Start, "", 2, 1)))
  {
    var s := "x+4.5\n";
    PlusJoinsNumberSteps();
    assert Run(Ascii, s, 6, Config(Start, "", 2, 1), [Token(ID, "x", 1, 2), Token(NUM, "+4.5", 1, 6)]) == Outcome([Token(ID, "x", 1, 2), Token(NUM, "+4.5", 1, 6)], Exhausted(Config(Start, "", 2, 1)));
    assert Run(Ascii, s, 5, Config(Start, "", 1, 6), [Token(ID, "x", 1, 2), Token(NUM, "+4.5", 1, 6)]) == Outcome([Token(ID, "x", 1, 2), Token(NUM, "+4.5", 1, 6)], Exhausted(Config(Start, "", 2, 1)));
    assert Run(Ascii, s, 5, Config(Frac, "+4.5", 1, 6), [Token(ID, "x", 1, 2)]) == Outcome([Token(ID, "x", 1, 2), Token(NUM, "+4.5", 1, 6)], Exhausted(Config(Start, "", 2, 1)));
    assert Run(Ascii, s, 4, Config(Frac, "+4.", 1, 5), [Token(ID, "x", 1, 2)]) == Outcome([Token(ID, "x", 1, 2), Token(NUM, "+4.5", 1, 6)], Exhausted(Config(Start, "", 2, 1)));
    assert Run(Ascii, s, 3, Config(Int, "+4", 1, 4), [Token(ID, "x", 1, 2)]) == Outcome([Token(ID, "x", 1, 2), Token(NUM, "+4.5", 1, 6)], Exhausted(Config(Start, "", 2, 1)));
    assert Run(Ascii, s, 2, Config(Sign, "+", 1, 3), [Token(ID, "x", 1, 2)]) == Outcome([Token(ID, "x", 1, 2), Token(NUM, "+4.5", 1, 6)], Exhausted(Config(Start, "", 2, 1)));
    assert Run(Ascii, s, 1, Config(Start, "", 1, 2), [Token(ID, "x", 1, 2)]) == Outcome([Token(ID, "x", 1, 2), Token(NUM, "+4.5", 1, 6)], Exhausted(Config(Start, "", 2, 1)));
    assert Run(Ascii, s, 1, Config(Ident, "x", 1, 2), []) == Outcome([Token(ID, "x", 1, 2), Token(NUM, "+4.5", 1, 6)], Exhausted(Config(Start, "", 2, 1)));
    assert Run(Ascii, s, 0, Config(Start, "", 1, 1), []) == Outcome([Token(ID, "x", 1, 2), Token(NUM, "+4.5", 1, 6)], Exhausted(Config(Start, "", 2, 1)));
  }

  lemma FractionAtEndDroppedSteps()
    ensures Step(Ascii, Config(Start, "", 1, 1), 'a') == Consume(Config(Ident, "a", 1, 2))
    ensures Step(Ascii, Config(Ident, "a", 1, 2), ' ') == Emit(Token(ID, "a", 1, 2), Config(Start, "", 1, 2))
    ensures Step(Ascii, Config(Start, "", 1, 2), ' ') == Consume(Config(Start, "", 1, 3))
    ensures Step(Ascii, Config(Start, "", 1, 3), '+') == Consume(Config(Sign, "+", 1, 4))
    ensures Step(Ascii, Config(Sign, "+", 1, 4), ' ') == Emit(Token(LITERAL, "+", 1, 4), Config(Start, "", 1, 4))
    ensures Step(Ascii, Config(Start, "", 1, 4), ' ') == Consume(Config(Start, "", 1, 5))
    ensures Step(Ascii, Config(Start, "", 1, 5), '4') == Consume(Config(Int, "4", 1, 6))
    ensures Step(Ascii, Config(Int, "4", 1, 6), '.') == Consume(Config(Frac, "4.", 1, 7))
    ensures Step(Ascii, Config(Frac, "4.", 1, 7), '5') == Consume(Config(Frac, "4.5", 1, 8))
  {
  }

  /** An identifier and an operator separated by blanks; the fraction after them is still pending when the input runs out, so it is dropped. */
  lemma FractionAtEndDropped()
    ensures Lex(Ascii, "a + 4.5") == Outcome([Token(ID, "a", 1, 2), Token(LITERAL, "+", 1, 4)], Exhausted(Config(Frac, "4.5", 1, 8)))
  {
    var s := "a + 4.5";
    FractionAtEndDroppedSteps();
    assert Run(Ascii, s, 7, Config(Frac, "4.5", 1, 8), [Token(ID, "a", 1, 2), Token(LITERAL, "+", 1, 4)]) == Outcome([Token(ID, "a", 1, 2), Token(LITERAL, "+", 1, 4)], Exhausted(Config(Frac, "4.5", 1, 8)));
    assert Run(Ascii, s, 6, Config(Frac, "4.", 1, 7), [Token(ID, "a", 1, 2), Token(LITERAL, "+", 1, 4)]) == Outcome([Token(ID, "a", 1, 2), Token(LITERAL, "+", 1, 4)], Exhausted(Config(Frac, "4.5", 1, 8)));
    assert Run(Ascii, s, 5, Config(Int, "4", 1, 6), [Token(ID, "a", 1, 2), Token(LITERAL, "+", 1, 4)]) == Outcome([Token(ID, "a", 1, 2), Token(LITERAL, "+", 1, 4)], Exhausted(Config(Frac, "4.5", 1, 8)));
    assert Run(Ascii, s, 4, Config(Start, "", 1, 5), [Token(ID, "a", 1, 2), Token(LITERAL, "+", 1, 4)]) == Outcome([Token(ID, "a", 1, 2), Token(LITERAL, "+", 1, 4)], Exhausted(Config(Frac, "4.5", 1, 8)));
    assert Run(Ascii, s, 3, Config(Start, "", 1, 4), [Token(ID, "a", 1, 2), Token(LITERAL, "+", 1, 4)]) == Outcome([Token(ID, "a", 1, 2), Token(LITERAL, "+", 1, 4)], Exhausted(Config(Frac, "4.5", 1, 8)));
    assert Run(Ascii, s, 3, Config(Sign, "+", 1, 4), [Token(ID, "a", 1, 2)]) == Outcome([Token(ID, "a", 1, 2), Token(LITERAL, "+", 1, 4)], Exhausted(Config(Frac, "4.5", 1, 8)));
    assert Run(Ascii, s, 2, Config(Start, "", 1, 3), [Token(ID, "a", 1, 2)]) == Outcome([Token(ID, "a", 1, 2), Token(LITERAL, "+", 1, 4)], Exhausted(Config(Frac, "4.5", 1, 8)));
    assert Run(Ascii, s, 1, Config(Start, "", 1, 2), [Token(ID, "a", 1, 2)]) == Outcome([Token(ID, "a", 1, 2), Token(LITERAL, "+", 1, 4)], Exhausted(Config(Frac, "4.5", 1, 8)));
    assert Run(Ascii, s, 1, Config(Ident, "a", 1, 2), []) == Outcome([Token(ID, "a", 1, 2), Token(LITERAL, "+", 1, 4)], Exhausted(Config(Frac, "4.5", 1, 8)));
    assert Run(Ascii, s, 0, Config(Start, "", 1, 1), []) == Outcome([Token(ID, "a", 1, 2), Token(LITERAL, "+", 1, 4)], Exhausted(Config(Frac, "4.5", 1, 8)));
  }

  lemma DoubleStarSteps()
    ensures Step(Ascii, Config(Start, "", 1, 1), '*') == Consume(Config(Star, "*", 1, 2))
    ensures Step(Ascii, Config(Star, "*", 1, 2), '*') == Consume(Config(Punct, "**", 1, 3))
    ensures Step(Ascii, Config(Punct, "**", 1, 3), ' ') == Emit(Token(LITERAL, "**", 1, 3), Config(Start, "", 1, 3))
    ensures Step(Ascii, Config(Start, "", 1, 3), ' ') == Consume(Config(Start, "", 1, 4))
  {
  }

  /** Two stars make one literal. */
  lemma DoubleStar()
    ensures Lex(Ascii, "** ") == Outcome([Token(LITERAL, "**", 1, 3)], Exhausted(Config(Start, "", 1, 4)))
  {
    var s := "** ";
    DoubleStarSteps();
    assert Run(Ascii, s, 3, Config(Start, "", 1, 4), [Token(LITERAL, "**", 1, 3)]) == Outcome([Token(LITERAL, "**", 1, 3)], Exhausted(Config(Start, "", 1, 4)));
    assert Run(Ascii, s, 2, Config(Start, "", 1, 3), [Token(LITERAL, "**", 1, 3)]) == Outcome([Token(LITERAL, "**", 1, 3)], Exhausted(Config(Start, "", 1, 4)));
    assert Run(Ascii, s, 2, Config(Punct, "**", 1, 3), []) == Outcome([Token(LITERAL, "**", 1, 3)], Exhausted(Config(Start, "", 1, 4)));
    assert Run(Ascii, s, 1, Config(Star, "*", 1, 2), []) == Outcome([Token(LITERAL, "**", 1, 3)], Exhausted(Config(Start, "", 1, 4)));
    assert Run(Ascii, s, 0, Config(Start, "", 1, 1), []) == Outcome([Token(LITERAL, "**", 1, 3)], Exhausted(Config(Start, "", 1, 4)));
  }

  lemma SingleStarSteps()
    ensures Step(Ascii, Config(Start, "", 1, 1), '*') == Consume(Config(Star, "*", 1, 2))
    ensures Step(Ascii, Config(Star, "*", 1, 2), 'x') == Emit(Token(LITERAL, "*", 1, 2), Config(Start, "", 1, 2))
    ensures Step(Ascii, Config(Start, "", 1, 2), 'x') == Consume(Config(Ident, "x", 1, 3))
    ensures Step(Ascii, Config(Ident, "x", 1, 3), ' ') == Emit(Token(ID, "x", 1, 3), Config(Start, "", 1, 3))
    ensures Step(Ascii, Config(Start, "", 1, 3), ' ') == Consume(Config(Start, "", 1, 4))
  {
  }

  /** A star followed by anything else is a literal on its own. */
  lemma SingleStar()
    ensures Lex(Ascii, "*x ") == Outcome([Token(LITERAL, "*", 1, 2), Token(ID, "x", 1, 3)], Exhausted(Config(Start, "", 1, 4)))
  {
    var s := "*x ";
    SingleStarSteps();
    assert Run(Ascii, s, 3, Config(Start, "", 1, 4), [Token(LITERAL, "*", 1, 2), Token(ID, "x", 1, 3)]) == Outcome([Token(LITERAL, "*", 1, 2), Token(ID, "x", 1, 3)], Exhausted(Config(Start, "", 1, 4)));
    assert Run(Ascii, s, 2, Config(Start, "", 1, 3), [Token(LITERAL, "*", 1, 2), Token(ID, "x", 1, 3)]) == Outcome([Token(LITERAL, "*", 1, 2), Token(ID, "x", 1, 3)], Exhausted(Config(Start, "", 1, 4)));
    assert Run(Ascii, s, 2, Config(Ident, "x", 1, 3), [Token(LITERAL, "*", 1, 2)]) == Outcome([Token(LITERAL, "*", 1, 2), Token(ID, "x", 1, 3)], Exhausted(Config(Start, "", 1, 4)));
    assert Run(Ascii, s, 1, Config(Start, "", 1, 2), [Token(LITERAL, "*", 1, 2)]) == Outcome([Token(LITERAL, "*", 1, 2), Token(ID, "x", 1, 3)], Exhausted(Config(Start, "", 1, 4)));
    assert Run(Ascii, s, 1, Config(Star, "*", 1, 2), []) == Outcome([Token(LITERAL, "*", 1, 2), Token(ID, "x", 1, 3)], Exhausted(Config(Start, "", 1, 4)));
    assert Run(Ascii, s, 0, Config(Start, "", 1, 1), []) == Outcome([Token(LITERAL, "*", 1, 2), Token(ID, "x", 1, 3)], Exhausted(Config(Start, "", 1, 4)));
  }

  lemma DoubleStarAtEndDroppedSteps()
    ensures Step(Ascii, Config(Start, "", 1, 1), '*') == Consume(Config(Star, "*", 1, 2))
    ensures Step(Ascii, Config(Star, "*", 1, 2), '*') == Consume(Config(Punct, "**", 1, 3))
  {
  }

  /** "**" at the end of the input is dropped, like every pending lexeme. */
  lemma DoubleStarAtEndDropped()
    ensures Lex(Ascii, "**") == Outcome([], Exhausted(Config(Punct, "**", 1, 3)))
  {
    var s := "**";
    DoubleStarAtEndDroppedSteps();
    assert Run(Ascii, s, 2, Config(Punct, "**", 1, 3), []) == Outcome([], Exhausted(Config(Punct, "**", 1, 3)));
    assert Run(Ascii, s, 1, Config(Star, "*", 1, 2), []) == Outcome([], Exhausted(Config(Punct, "**", 1, 3)));
    assert Run(Ascii, s, 0, Config(Start, "", 1, 1), []) == Outcome([], Exhausted(Config(Punct, "**", 1, 3)));
  }

  lemma EqualsAtEndDroppedSteps()
    ensures Step(Ascii, Config(Start, "", 1, 1), '=') == Consume(Config(Punct, "=", 1, 2))
  {
  }

  /** So is a lone "=". */
  lemma EqualsAtEndDropped()
    ensures Lex(Ascii, "=") == Outcome([], Exhausted(Config(Punct, "=", 1, 2)))
  {
    var s := "=";
    EqualsAtEndDroppedSteps();
    assert Run(Ascii, s, 1, Config(Punct, "=", 1, 2), []) == Outcome([], Exhausted(Config(Punct, "=", 1, 2)));
    assert Run(Ascii, s, 0, Config(Start, "", 1, 1), []) == Outcome([], Exhausted(Config(Punct, "=", 1, 2)));
  }

  lemma DotInNumberSteps()
    ensures Step(Ascii, Config(Start, "", 1, 1), '1') == Consume(Config(Int, "1", 1, 2))
    ensures Step(Ascii, Config(Int, "1", 1, 2), '.') == Consume(Config(Frac, "1.", 1, 3))
    ensures Step(Ascii, Config(Frac, "1.", 1, 3), '5') == Consume(Config(Frac, "1.5", 1, 4))
    ensures Step(Ascii, Config(Frac, "1.5", 1, 4), ' ') == Emit(Token(NUM, "1.5", 1, 4), Config(Start, "", 1, 4))
    ensures Step(Ascii, Config(Start, "", 1, 4), ' ') == Consume(Config(Start, "", 1, 5))
  {
  }

  /** The start state does not recognise '.', but the integer state consumes it: "1.5 " is one number and the run ends by running out. */
  lemma DotInNumber()
    ensures Lex(Ascii, "1.5 ") == Outcome([Token(NUM, "1.5", 1, 4)], Exhausted(Config(Start, "", 1, 5)))
  {
    var s := "1.5 ";
    DotInNumberSteps();
    assert Run(Ascii, s, 4, Config(Start, "", 1, 5), [Token(NUM, "1.5", 1, 4)]) == Outcome([Token(NUM, "1.5", 1, 4)], Exhausted(Config(Start, "", 1, 5)));
    assert Run(Ascii, s, 3, Config(Start, "", 1, 4), [Token(NUM, "1.5", 1, 4)]) == Outcome([Token(NUM, "1.5", 1, 4)], Exhausted(Config(Start, "", 1, 5)));
    assert Run(Ascii, s, 3, Config(Frac, "1.5", 1, 4), []) == Outcome([Token(NUM, "1.5", 1, 4)], Exhausted(Config(Start, "", 1, 5)));
    assert Run(Ascii, s, 2, Config(Frac, "1.", 1, 3), []) == Outcome([Token(NUM, "1.5", 1, 4)], Exhausted(Config(Start, "", 1, 5)));
    assert Run(Ascii, s, 1, Config(Int, "1", 1, 2), []) == Outcome([Token(NUM, "1.5", 1, 4)], Exhausted(Config(Start, "", 1, 5)));
    assert Run(Ascii, s, 0, Config(Start, "", 1, 1), []) == Outcome([Token(NUM, "1.5", 1, 4)], Exhausted(Config(Start, "", 1, 5)));
  }

  lemma TwoDotsSteps()
    ensures Step(Ascii, Config(Start, "", 1, 1), '1') == Consume(Config(Int, "1", 1, 2))
    ensures Step(Ascii, Config(Int, "1", 1, 2), '.') == Consume(Config(Frac, "1.", 1, 3))
    ensures Step(Ascii, Config(Frac, "1.", 1, 3), '2') == Consume(Config(Frac, "1.2", 1, 4))
    ensures Step(Ascii, Config(Frac, "1.2", 1, 4), '.') == Emit(Token(NUM, "1.2", 1, 4), Config(Start, "", 1, 4))
    ensures Step(Ascii, Config(Start, "", 1, 4), '.') == Throw(LexError('.', 1, 4))
  {
  }

  /** A second '.' ends the number and is then an error in the start state. */
  lemma TwoDots()
    ensures Lex(Ascii, "1.2.3 ") == Outcome([Token(NUM, "1.2", 1, 4)], Failed(LexError('.', 1, 4), 3))
  {
    var s := "1.2.3 ";
    TwoDotsSteps();
    assert Run(Ascii, s, 3, Config(Start, "", 1, 4), [Token(NUM, "1.2", 1, 4)]) == Outcome([Token(NUM, "1.2", 1, 4)], Failed(LexError('.', 1, 4), 3));
    assert Run(Ascii, s, 3, Config(Frac, "1.2", 1, 4), []) == Outcome([Token(NUM, "1.2", 1, 4)], Failed(LexError('.', 1, 4), 3));
    assert Run(Ascii, s, 2, Config(Frac, "1.", 1, 3), []) == Outcome([Token(NUM, "1.2", 1, 4)], Failed(LexError('.', 1, 4), 3));
    assert Run(Ascii, s, 1, Config(Int, "1", 1, 2), []) == Outcome([Token(NUM, "1.2", 1, 4)], Failed(LexError('.', 1, 4), 3));
    assert Run(Ascii, s, 0, Config(Start, "", 1, 1), []) == Outcome([Token(NUM, "1.2", 1, 4)], Failed(LexError('.', 1, 4), 3));
  }

  lemma InvalidCharacterSteps()
    ensures Step(Ascii, Config(Start, "", 1, 1), '@') == Throw(LexError('@', 1, 1))
  {
  }

  /** A character that starts no token is an error at its own position. */
  lemma InvalidCharacter()
    ensures Lex(Ascii, "@") == Outcome([], Failed(LexError('@', 1, 1), 0))
  {
    var s := "@";
    InvalidCharacterSteps();
    assert Run(Ascii, s, 0, Config(Start, "", 1, 1), []) == Outcome([], Failed(LexError('@', 1, 1), 0));
  }

  lemma InvalidOnSecondLineSteps()
    ensures Step(Ascii, Config(Start, "", 1, 1), 'x') == Consume(Config(Ident, "x", 1, 2))
    ensures Step(Ascii, Config(Ident, "x", 1, 2), '\n') == Emit(Token(ID, "x", 1, 2), Config(Start, "", 1, 2))
    ensures Step(Ascii, Config(Start, "", 1, 2), '\n') == Consume(Config(Start, "", 2, 1))
    ensures Step(Ascii, Config(Start, "", 2, 1), ' ') == Consume(Config(Start, "", 2, 2))
    ensures Step(Ascii, Config(Start, "", 2, 2), '@') == Throw(LexError('@', 2, 2))
  {
  }

  /** An error after a newline reports the line and column it was found at. */
  lemma InvalidOnSecondLine()
    ensures Lex(Ascii, "x\n @") == Outcome([Token(ID, "x", 1, 2)], Failed(LexError('@', 2, 2), 3))
  {
    var s := "x\n @";
    InvalidOnSecondLineSteps();
    assert Run(Ascii, s, 3, Config(Start, "", 2, 2), [Token(ID, "x", 1, 2)]) == Outcome([Token(ID, "x", 1, 2)], Failed(LexError('@', 2, 2), 3));
    assert Run(Ascii, s, 2, Config(Start, "", 2, 1), [Token(ID, "x", 1, 2)]) == Outcome([Token(ID, "x", 1, 2)], Failed(LexError('@', 2, 2), 3));
    assert Run(Ascii, s, 1, Config(Start, "", 1, 2), [Token(ID, "x", 1, 2)]) == Outcome([Token(ID, "x", 1, 2)], Failed(LexError('@', 2, 2), 3));
    assert Run(Ascii, s, 1, Config(Ident, "x", 1, 2), []) == Outcome([Token(ID, "x", 1, 2)], Failed(LexError('@', 2, 2), 3));
    assert Run(Ascii, s, 0, Config(Start, "", 1, 1), []) == Outcome([Token(ID, "x", 1, 2)], Failed(LexError('@', 2, 2), 3));
  }
}
