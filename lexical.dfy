/** Lexical classes of the YACML grammar.

    A token is the lexeme the grammar matched, kept as its text. Which class a
    lexeme belongs to (reserved word, identifier, number, quoted string,
    comment) is decided by the predicates below, which follow the pyparsing
    classes the grammar is built from. */
module Lexical {

  datatype Option<T> = None | Some(value: T) {
    predicate IsFailure() { None? }

    function PropagateFailure<U>(): Option<U>
      requires None?
    {
      None
    }

    function Extract(): T
      requires Some?
    {
      value
    }
  }

  type Token = string

  lemma AppendAssociative<T>(a: seq<T>, b: seq<T>, c: seq<T>)
    ensures (a + b) + c == a + (b + c)
  {
  }

  /** The words of `anyKeyword`; an identifier never matches one of them. */
  const Reserved: set<string> :=
    {"compartment", "recipe", "model", "pathway", "has", "is", "species", "pool",
     "enzyme", "reaction", "reac", "enz_reac", "cylinder", "cube", "spine", "var",
     "const", "buffered", "end", "simulator"}

  const SpeciesKeywords: set<string> := {"species", "pool", "enzyme"}
  const ReactionKeywords: set<string> := {"reaction", "reac", "enz_reac"}
  const GeometryKeywords: set<string> := {"cylinder", "cube", "spine"}
  const ModelKeywords: set<string> := {"model", "pathway"}

  predicate IsLetter(c: char) { 'a' <= c <= 'z' || 'A' <= c <= 'Z' }

  predicate IsDigit(c: char) { '0' <= c <= '9' }

  predicate IsHexDigit(c: char) { IsDigit(c) || 'a' <= c <= 'f' || 'A' <= c <= 'F' }

  /** pyparsing's `identifier`: a letter or `_`, then letters, digits or `_`. */
  predicate IsIdentifierShape(t: string) {
    && |t| > 0
    && (IsLetter(t[0]) || t[0] == '_')
    && forall i :: 1 <= i < |t| ==> IsLetter(t[i]) || IsDigit(t[i]) || t[i] == '_'
  }

  /** An identifier of the complete grammar: identifier-shaped and not reserved. */
  predicate IsIdentifier(t: string) {
    IsIdentifierShape(t) && t !in Reserved
  }

  predicate AllDigits(s: string) {
    forall i :: 0 <= i < |s| ==> IsDigit(s[i])
  }

  /** `Word(nums)`: one or more decimal digits. */
  predicate IsDigits(s: string) {
    |s| > 0 && AllDigits(s)
  }

  /** Index of the first occurrence of `c` in `s`, or `|s|` when there is none. */
  function IndexOf(s: string, c: char): (k: nat)
    ensures k <= |s|
    ensures k < |s| ==> s[k] == c
    ensures forall i :: 0 <= i < k ==> s[i] != c
  {
    if s == [] then 0
    else if s[0] == c then 0
    else 1 + IndexOf(s[1..], c)
  }

  /** Index of the first `e` or `E`, or `|s|`. */
  function IndexOfExponent(s: string): (k: nat)
    ensures k <= |s|
    ensures k < |s| ==> s[k] == 'e' || s[k] == 'E'
    ensures forall i :: 0 <= i < k ==> s[i] != 'e' && s[i] != 'E'
  {
    if s == [] then 0
    else if s[0] == 'e' || s[0] == 'E' then 0
    else 1 + IndexOfExponent(s[1..])
  }

  /** `\d+`, `\d+\.\d*` or `\.\d+`. */
  predicate IsMantissa(m: string) {
    IsDigits(m) ||
    (var d := IndexOf(m, '.');
     d < |m| && |m| >= 2 && AllDigits(m[..d]) && AllDigits(m[d + 1..]))
  }

  /** Empty, or `[eE][+-]?\d+`. */
  predicate IsExponent(e: string) {
    e == [] ||
    (|e| >= 2 && (e[0] == 'e' || e[0] == 'E') &&
     (IsDigits(e[1..]) || (|e| >= 3 && (e[1] == '+' || e[1] == '-') && IsDigits(e[2..]))))
  }

  function Unsigned(t: string): string {
    if |t| > 0 && (t[0] == '+' || t[0] == '-') then t[1..] else t
  }

  /** A numeric literal: an optional sign, a mantissa and an optional exponent,
      the union of pyparsing's signed integer, real and scientific real and of
      the pattern `\.\d+`. */
  predicate IsNumber(t: string) {
    var u := Unsigned(t);
    var k := IndexOfExponent(u);
    IsMantissa(u[..k]) && IsExponent(u[k..])
  }

  /** The body of pyparsing's `quotedString` between delimiters `q`: ordinary
      characters other than `q`, newline, carriage return and backslash; a
      doubled delimiter; a backslash escape (`\x` needs hex digits). */
  predicate QuotedBody(s: string, q: char)
    decreases |s|, 1
  {
    if s == [] then true
    else if s[0] == q then |s| >= 2 && s[1] == q && QuotedBody(s[2..], q)
    else if s[0] == '\\' then
      |s| >= 2 &&
      ((s[1] != 'x' && QuotedBody(s[2..], q)) || (s[1] == 'x' && HexEscape(s[2..], q)))
    else s[0] != '\n' && s[0] != '\r' && QuotedBody(s[1..], q)
  }

  predicate HexEscape(s: string, q: char)
    decreases |s|, 0
  {
    |s| >= 1 && IsHexDigit(s[0]) && (QuotedBody(s[1..], q) || HexEscape(s[1..], q))
  }

  /** A double- or single-quoted string literal. */
  predicate IsQuoted(t: string) {
    && |t| >= 2
    && (t[0] == '"' || t[0] == '\'')
    && t[|t| - 1] == t[0]
    && QuotedBody(t[1..|t| - 1], t[0])
  }

  /** A Java-style comment: `/* ... */` or `// ...`. */
  predicate IsComment(t: string) {
    (|t| >= 4 && t[..2] == "/*" && t[|t| - 2..] == "*/") || (|t| >= 2 && t[..2] == "//")
  }

  /** `s` with every occurrence of `c` removed. */
  function Remove(s: string, c: char): (r: string)
    ensures |r| <= |s|
    ensures forall i :: 0 <= i < |r| ==> r[i] != c
  {
    if s == [] then []
    else if s[0] == c then Remove(s[1..], c)
    else [s[0]] + Remove(s[1..], c)
  }

  /** The parse action on quoted strings: every `"` character is removed. */
  function Unquote(t: string): string {
    Remove(t, '"')
  }

  /** The comment tokens are dropped before the grammar sees the input. */
  function StripComments(toks: seq<Token>): (r: seq<Token>)
    ensures |r| <= |toks|
    ensures forall i :: 0 <= i < |r| ==> !IsComment(r[i])
  {
    if toks == [] then []
    else if IsComment(toks[0]) then StripComments(toks[1..])
    else [toks[0]] + StripComments(toks[1..])
  }

  // ---------------------------------------------------------------------
  // Properties of the lexical classes

  /** A reserved word has the shape of an identifier but is never one. */
  lemma ReservedAreNotIdentifiers(t: string)
    requires t in Reserved
    ensures IsIdentifierShape(t) && !IsIdentifier(t)
  {
  }

  /** A number starts with a sign, a digit or a dot. */
  lemma NumberFirstChar(t: string)
    requires IsNumber(t)
    ensures |t| > 0 && (t[0] == '+' || t[0] == '-' || t[0] == '.' || IsDigit(t[0]))
  {
    var u := Unsigned(t);
    var k := IndexOfExponent(u);
    assert IsMantissa(u[..k]);
    assert u[..k][0] == u[0];
    if |t| > 0 && (t[0] == '+' || t[0] == '-') {
    } else {
      assert u == t;
    }
  }

  /** The three classes a value is tried against (number, identifier, quoted
      string) never overlap, so the order in which they are tried picks the
      only class a lexeme can be in. */
  lemma ValueClassesDisjoint(t: string)
    ensures !(IsNumber(t) && IsIdentifierShape(t))
    ensures !(IsNumber(t) && IsQuoted(t))
    ensures !(IsIdentifierShape(t) && IsQuoted(t))
  {
    if IsNumber(t) {
      NumberFirstChar(t);
    }
  }

  /** The literals of the draft grammar's smoke tests are numbers: a decimal,
      a decimal without integer part, a signed scientific literal and a
      scientific literal with a signed exponent. */
  lemma SmokeTestNumbersAccepted()
    ensures IsNumber("1.5111") && IsNumber(".5111") && IsNumber("-1.35e13") && IsNumber("1e-2")
  {
    DecimalAccepted();
    FractionAccepted();
    SignedScientificAccepted();
    ScientificAccepted();
  }

  /** The index of the first exponent letter is fixed by the letters
      before it. */
  lemma ExponentAt(s: string, k: nat)
    requires k <= |s| && (k < |s| ==> s[k] == 'e' || s[k] == 'E')
    requires forall i :: 0 <= i < k ==> s[i] != 'e' && s[i] != 'E'
    ensures IndexOfExponent(s) == k
  {
  }

  /** The index of the first dot is fixed by the characters before it. */
  lemma DotAt(s: string, k: nat)
    requires k < |s| && s[k] == '.'
    requires forall i :: 0 <= i < k ==> s[i] != '.'
    ensures IndexOf(s, '.') == k
  {
  }

  lemma MantissaWithDot(m: string, d: nat)
    requires d < |m| && |m| >= 2 && IndexOf(m, '.') == d
    requires AllDigits(m[..d]) && AllDigits(m[d + 1..])
    ensures IsMantissa(m)
  {
  }

  lemma NumberFromParts(t: string, u: string, k: nat)
    requires u == Unsigned(t) && k == IndexOfExponent(u)
    requires IsMantissa(u[..k]) && IsExponent(u[k..])
    ensures IsNumber(t)
  {
  }

  /** Every digit string is a number: pyparsing's signed integer without a
      sign. */
  lemma DigitsAreNumbers(s: string)
    requires IsDigits(s)
    ensures IsNumber(s)
  {
    assert Unsigned(s) == s;
    ExponentAt(s, |s|);
    assert s[..|s|] == s && s[|s|..] == [];
  }

  lemma DecimalAccepted()
    ensures IsNumber("1.5111")
  {
    var a := "1.5111";
    ExponentAt(a, 6);
    assert a[..6] == a && a[6..] == [];
    DotAt(a, 1);
    assert a[..1] == "1" && a[2..] == "5111";
    MantissaWithDot(a, 1);
    NumberFromParts(a, a, 6);
  }

  lemma FractionAccepted()
    ensures IsNumber(".5111")
  {
    var b := ".5111";
    ExponentAt(b, 5);
    assert b[..5] == b && b[5..] == [];
    DotAt(b, 0);
    assert b[..0] == "" && b[1..] == "5111";
    MantissaWithDot(b, 0);
    NumberFromParts(b, b, 5);
  }

  lemma SignedScientificAccepted()
    ensures IsNumber("-1.35e13")
  {
    var c := "1.35e13";
    assert Unsigned("-1.35e13") == c;
    ExponentAt(c, 4);
    assert c[..4] == "1.35" && c[4..] == "e13";
    DotAt("1.35", 1);
    assert "1.35"[..1] == "1" && "1.35"[2..] == "35";
    MantissaWithDot("1.35", 1);
    assert "e13"[1..] == "13";
    assert IsExponent("e13");
    NumberFromParts("-1.35e13", c, 4);
  }

  lemma ScientificAccepted()
    ensures IsNumber("1e-2")
  {
    var d := "1e-2";
    ExponentAt(d, 1);
    assert d[..1] == "1" && d[1..] == "e-2";
    assert "e-2"[2..] == "2";
    NumberFromParts(d, d, 1);
  }

  /** Lexemes that are not numbers: a lone sign, a lone dot, an exponent
      without digits, an exponent without a mantissa, two dots. */
  lemma SampleNonNumbersRejected()
    ensures !IsNumber("-") && !IsNumber(".") && !IsNumber("1e") && !IsNumber("e5")
    ensures !IsNumber("1.2.3")
  {
    assert !IsNumber("-") by {
      assert Unsigned("-") == "";
    }
    assert !IsNumber(".") by {
      ExponentAt(".", 1);
    }
    assert !IsNumber("1e") by {
      ExponentAt("1e", 1);
      assert "1e"[1..] == "e";
    }
    assert !IsNumber("e5") by {
      ExponentAt("e5", 0);
      assert "e5"[..0] == "";
    }
    TwoDotsRejected();
  }

  lemma TwoDotsRejected()
    ensures !IsNumber("1.2.3")
  {
    var t := "1.2.3";
    ExponentAt(t, 5);
    assert t[..5] == t;
    DotAt(t, 1);
    assert t[2..] == "2.3" && !AllDigits("2.3") by { assert "2.3"[1] == '.'; }
  }

  lemma {:induction false} RemoveAppend(a: string, b: string, c: char)
    ensures Remove(a + b, c) == Remove(a, c) + Remove(b, c)
  {
    if a == [] {
      assert a + b == b;
    } else {
      assert (a + b)[0] == a[0] && (a + b)[1..] == a[1..] + b;
      RemoveAppend(a[1..], b, c);
    }
  }

  lemma {:induction false} RemoveAbsent(s: string, c: char)
    requires forall i :: 0 <= i < |s| ==> s[i] != c
    ensures Remove(s, c) == s
  {
    if s != [] {
      RemoveAbsent(s[1..], c);
    }
  }

  /** A double-quoted literal whose body holds no `"` yields exactly its body. */
  lemma UnquoteDoubleQuoted(s: string)
    requires forall i :: 0 <= i < |s| ==> s[i] != '"'
    ensures Unquote("\"" + s + "\"") == s
  {
    RemoveAppend("\"" + s, "\"", '"');
    RemoveAppend("\"", s, '"');
    RemoveAbsent(s, '"');
  }

  /** Only `"` is removed: a single-quoted literal keeps its delimiters. */
  lemma UnquoteSingleQuoted(s: string)
    requires forall i :: 0 <= i < |s| ==> s[i] != '"'
    ensures Unquote("'" + s + "'") == "'" + s + "'"
  {
    RemoveAbsent("'" + s + "'", '"');
  }

  /** Removing `"` keeps every other character, in order: doing it twice is
      doing it once. */
  lemma {:induction false} UnquoteIdempotent(t: string)
    ensures Unquote(Unquote(t)) == Unquote(t)
  {
    RemoveAbsent(Remove(t, '"'), '"');
  }

  lemma {:induction false} StripCommentsAppend(a: seq<Token>, b: seq<Token>)
    ensures StripComments(a + b) == StripComments(a) + StripComments(b)
  {
    if a == [] {
      assert a + b == b;
    } else {
      assert (a + b)[0] == a[0] && (a + b)[1..] == a[1..] + b;
      StripCommentsAppend(a[1..], b);
    }
  }

  /** A comment may stand between any two tokens: the grammar sees the same
      input with or without it. */
  lemma CommentIsInvisible(a: seq<Token>, c: Token, b: seq<Token>)
    requires IsComment(c)
    ensures StripComments(a + [c] + b) == StripComments(a + b)
  {
    StripCommentsAppend(a + [c], b);
    StripCommentsAppend(a, [c]);
    StripCommentsAppend(a, b);
    assert StripComments([c]) == [];
  }

  /** Input without comments reaches the grammar unchanged. */
  lemma {:induction false} StripCommentsNoComments(toks: seq<Token>)
    requires forall i :: 0 <= i < |toks| ==> !IsComment(toks[i])
    ensures StripComments(toks) == toks
  {
    if toks != [] {
      StripCommentsNoComments(toks[1..]);
    }
  }
}
