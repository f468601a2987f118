/** Character classification. The tokenizer asks the .NET library three questions
 *  about a character (char.IsWhiteSpace, char.IsLetter, char.IsDigit). Their Unicode
 *  tables are not part of this model, so the three tests are a parameter, and
 *  `Consistent` states the facts about them that the library guarantees and the
 *  proofs use. */
module CharClasses {

  /** The three library tests the tokenizer calls. */
  datatype Classes = Classes(isWhiteSpace: char -> bool, isLetter: char -> bool, isDigit: char -> bool)

  predicate IsAsciiDigit(c: char) { '0' <= c <= '9' }

  predicate IsAsciiLetter(c: char) { 'a' <= c <= 'z' || 'A' <= c <= 'Z' }

  /** U+0009 to U+000D and the space. */
  predicate IsAsciiWhiteSpace(c: char) { '\t' <= c <= '\r' || c == ' ' }

  /** What .NET promises: on the ASCII range the three tests are the familiar ones,
   *  and no letter or digit anywhere in Unicode is white space. */
  predicate Consistent(k: Classes) {
    && (forall c: char | (c as int) < 128 :: k.isDigit(c) == IsAsciiDigit(c))
    && (forall c: char | (c as int) < 128 :: k.isLetter(c) == IsAsciiLetter(c))
    && (forall c: char | (c as int) < 128 :: k.isWhiteSpace(c) == IsAsciiWhiteSpace(c))
    && (forall c: char :: k.isDigit(c) ==> !k.isWhiteSpace(c))
    && (forall c: char :: k.isLetter(c) ==> !k.isWhiteSpace(c))
  }

  /** The characters the start state skips: a newline, or what the white-space test
   *  (or the explicit checks for ' ' and '\t') accepts. */
  predicate Blank(k: Classes, c: char) {
    c == '\n' || k.isWhiteSpace(c) || c == ' ' || c == '\t'
  }

  /** The characters the start state accepts; every other character is an error there. */
  predicate Recognized(k: Classes, c: char) {
    || Blank(k, c)
    || c in {'+', '-', '*', '_', '=', '(', ')'}
    || IsAsciiDigit(c)
    || k.isLetter(c)
  }

  /** The characters an identifier continues with. */
  predicate IsIdentChar(k: Classes, c: char) {
    k.isDigit(c) || k.isLetter(c) || c == '_'
  }
}
