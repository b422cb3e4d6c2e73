/** The lexer's character classes (CharType.java), over Java's 16-bit chars. */
module CharTypes {

  /** A Java char: one UTF-16 code unit. */
  newtype JavaChar = c: int | 0 <= c < 0x1_0000

  /** The code of a character literal of the source. */
  function Code(c: char): JavaChar
    requires c as int < 0x1_0000
  {
    c as int as JavaChar
  }

  /** The end-of-input marker, 0x1A (decimal 26). */
  const EOI: JavaChar := 0x1A

  predicate IsWhitespace(ch: JavaChar) {
    (ch <= 0x20 && EOI != ch) || (ch >= 0x7F && ch <= 0xA0)
  }

  predicate IsEndOfInput(ch: JavaChar) {
    ch == EOI
  }

  predicate IsAlphabet(ch: JavaChar) {
    (ch >= Code('A') && ch <= Code('Z')) || (ch >= Code('a') && ch <= Code('z'))
  }

  predicate IsDigital(ch: JavaChar) {
    ch >= Code('0') && ch <= Code('9')
  }

  predicate IsSymbol(ch: JavaChar) {
    || Code('(') == ch || Code(')') == ch || Code('[') == ch || Code(']') == ch || Code('{') == ch
    || Code('}') == ch || Code('+') == ch || Code('-') == ch || Code('*') == ch || Code('/') == ch
    || Code('%') == ch || Code('^') == ch || Code('=') == ch || Code('>') == ch || Code('<') == ch
    || Code('~') == ch || Code('!') == ch || Code('?') == ch || Code('&') == ch || Code('|') == ch
    || Code('.') == ch || Code(':') == ch || Code('#') == ch || Code(',') == ch || Code(';') == ch
  }

  /** The symbol characters in the order the source lists them. */
  const SymbolChars: string := "()[]{}+-*/%^=><~!?&|.:#,;"

  const SymbolSet: set<char> := set c | c in SymbolChars

  /** A string without repeated characters has as many distinct characters as it is long. */
  lemma {:induction false} DistinctCharacters(s: string)
    requires forall i, j :: 0 <= i < j < |s| ==> s[i] != s[j]
    ensures |set c | c in s| == |s|
  {
    if s != [] {
      var n := |s| - 1;
      DistinctCharacters(s[..n]);
      assert (set c | c in s) == (set c | c in s[..n]) + {s[n]};
      assert s[n] !in s[..n];
    }
  }

  /** The listed symbol characters are 25 distinct ones. */
  lemma {:induction false} SymbolSetSize()
    ensures |SymbolSet| == 25
  {
    DistinctCharacters(SymbolChars);
  }

  /** The symbol class is exactly the listed characters. */
  lemma {:induction false} SymbolsAreTheListedCharacters(ch: JavaChar)
    ensures IsSymbol(ch) <==> exists c <- SymbolSet :: Code(c) == ch
  {
    if IsSymbol(ch) {
      var c := ch as int as char;
      assert c in SymbolSet && Code(c) == ch;
    }
  }

  /** The five class predicates are pairwise disjoint. */
  lemma {:induction false} ClassesDisjoint(ch: JavaChar)
    ensures IsWhitespace(ch) ==> !IsEndOfInput(ch) && !IsAlphabet(ch) && !IsDigital(ch) && !IsSymbol(ch)
    ensures IsEndOfInput(ch) ==> !IsAlphabet(ch) && !IsDigital(ch) && !IsSymbol(ch)
    ensures IsAlphabet(ch) ==> !IsDigital(ch) && !IsSymbol(ch)
    ensures IsDigital(ch) ==> !IsSymbol(ch)
  {
  }

  /** The class a character falls into; Other when none of the predicates holds. */
  datatype CharClass = Whitespace | EndOfInput | Alphabet | Digital | Symbol | Other

  /**
   * Each character is in exactly one class, so the five predicates are pairwise
   * disjoint; in particular EOI, though below 0x20, is not whitespace.
   */
  function Classify(ch: JavaChar): (r: CharClass)
    ensures r == Whitespace <==> IsWhitespace(ch)
    ensures r == EndOfInput <==> IsEndOfInput(ch)
    ensures r == Alphabet <==> IsAlphabet(ch)
    ensures r == Digital <==> IsDigital(ch)
    ensures r == Symbol <==> IsSymbol(ch)
    ensures r == Other <==> !IsWhitespace(ch) && !IsEndOfInput(ch) && !IsAlphabet(ch) && !IsDigital(ch) && !IsSymbol(ch)
  {
    ClassesDisjoint(ch);
    if IsWhitespace(ch) then Whitespace
    else if IsEndOfInput(ch) then EndOfInput
    else if IsAlphabet(ch) then Alphabet
    else if IsDigital(ch) then Digital
    else if IsSymbol(ch) then Symbol
    else Other
  }
}
