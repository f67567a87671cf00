/** The parser never looks past what it consumes: when a production matches a
    token sequence, it matches that sequence with any tokens appended in the
    same way, and hands the appended tokens back with the rest. For the
    repetitions and the optional parts this holds once the token that stopped
    them is known (a closing `end`, the model keyword, a `;`), which is what
    makes the whole document independent of what follows the model's `end`. */
module Extension {
  import opened Lexical
  import opened Grammar
  import RoundTrip

  /** The outcome `p` with `e` appended to the tokens it left over. */
  function Extended<T>(p: Parsed<T>, e: seq<Token>): Parsed<T> {
    match p
    case None => None
    case Some((v, rest)) => Some((v, rest + e))
  }

  lemma HeadOfAppend(s: seq<Token>, e: seq<Token>)
    requires |s| > 0
    ensures (s + e)[0] == s[0] && (s + e)[1..] == s[1..] + e
  {
  }

  // ---------------------------------------------------------------------
  // Single tokens and key-value lists

  lemma ExpectExtend(s: seq<Token>, literal: string, e: seq<Token>)
    requires Expect(s, literal).Some?
    ensures Expect(s + e, literal) == Some(Expect(s, literal).value + e)
  {
    HeadOfAppend(s, e);
  }

  lemma IdentifierExtend(s: seq<Token>, e: seq<Token>)
    requires ParseIdentifier(s).Some?
    ensures ParseIdentifier(s + e) == Extended(ParseIdentifier(s), e)
  {
    HeadOfAppend(s, e);
  }

  lemma ValueExtend(s: seq<Token>, e: seq<Token>)
    requires ParseValue(s).Some?
    ensures ParseValue(s + e) == Extended(ParseValue(s), e)
  {
    HeadOfAppend(s, e);
  }

  lemma PairExtend(s: seq<Token>, e: seq<Token>)
    requires ParsePair(s).Some?
    ensures ParsePair(s + e) == Extended(ParsePair(s), e)
  {
    var key := ParseIdentifier(s).value;
    IdentifierExtend(s, e);
    ExpectExtend(key.1, "=", e);
    ValueExtend(Expect(key.1, "=").value, e);
  }

  /** A pair list extends unless it stopped at the end of the input or in
      front of a `,` whose pair did not match. */
  lemma {:induction false} PairsExtend(s: seq<Token>, e: seq<Token>)
    requires ParsePairs(s).Some?
    requires |ParsePairs(s).value.1| > 0 && ParsePairs(s).value.1[0] != ","
    ensures ParsePairs(s + e) == Extended(ParsePairs(s), e)
    decreases |s|
  {
    var first := ParsePair(s).value;
    PairExtend(s, e);
    if |first.1| > 0 && first.1[0] == "," {
      HeadOfAppend(first.1, e);
      if ParsePairs(first.1[1..]).Some? {
        PairsExtend(first.1[1..], e);
      }
    } else {
      HeadOfAppend(first.1, e);
    }
  }

  lemma PairListExtend(s: seq<Token>, e: seq<Token>)
    requires ParsePairList(s).Some?
    ensures ParsePairList(s + e) == Extended(ParsePairList(s), e)
  {
    var afterOpen := Expect(s, "[").value;
    ExpectExtend(s, "[", e);
    var pairs := ParsePairs(afterOpen).value;
    PairsExtend(afterOpen, e);
    ExpectExtend(pairs.1, "]", e);
  }

  // ---------------------------------------------------------------------
  // Stoichiometric terms

  lemma TermExtend(s: seq<Token>, e: seq<Token>)
    requires ParseTerm(s).Some?
    ensures ParseTerm(s + e) == Extended(ParseTerm(s), e)
  {
    HeadOfAppend(s, e);
    if IsDigits(s[0]) {
      IdentifierExtend(s[1..], e);
    } else {
      IdentifierExtend(s, e);
    }
  }

  /** A term list extends unless it stopped at the end of the input or in
      front of a `+` whose term did not match. */
  lemma {:induction false} TermsExtend(s: seq<Token>, e: seq<Token>)
    requires ParseTerms(s).Some?
    requires |ParseTerms(s).value.1| > 0 && ParseTerms(s).value.1[0] != "+"
    ensures ParseTerms(s + e) == Extended(ParseTerms(s), e)
    decreases |s|
  {
    var first := ParseTerm(s).value;
    TermExtend(s, e);
    if |first.1| > 0 && first.1[0] == "+" {
      HeadOfAppend(first.1, e);
      if ParseTerms(first.1[1..]).Some? {
        TermsExtend(first.1[1..], e);
      }
    } else {
      HeadOfAppend(first.1, e);
    }
  }

  // ---------------------------------------------------------------------
  // Statements

  lemma NamedListExtend(s: seq<Token>, e: seq<Token>)
    requires ParseNamedList(s).Some?
    ensures ParseNamedList(s + e) == Extended(ParseNamedList(s), e)
  {
    var name := ParseIdentifier(s).value;
    IdentifierExtend(s, e);
    var params := ParsePairList(name.1).value;
    PairListExtend(name.1, e);
    ExpectExtend(params.1, ";", e);
  }

  lemma SpeciesExtend(s: seq<Token>, e: seq<Token>)
    requires ParseSpecies(s).Some?
    ensures ParseSpecies(s + e) == Extended(ParseSpecies(s), e)
  {
    HeadOfAppend(s, e);
    var afterFlag := if s[0] == "buffered" then s[1..] else s;
    assert (if (s + e)[0] == "buffered" then (s + e)[1..] else s + e) == afterFlag + e;
    HeadOfAppend(afterFlag, e);
    NamedListExtend(afterFlag[1..], e);
  }

  lemma ReactionDeclExtend(s: seq<Token>, e: seq<Token>)
    requires ParseReactionDecl(s).Some?
    ensures ParseReactionDecl(s + e) == Extended(ParseReactionDecl(s), e)
  {
    HeadOfAppend(s, e);
    NamedListExtend(s[1..], e);
  }

  lemma ReactionRefExtend(s: seq<Token>, e: seq<Token>)
    requires ParseReactionRef(s).Some?
    ensures ParseReactionRef(s + e) == Extended(ParseReactionRef(s), e)
  {
    HeadOfAppend(s, e);
    if ParseIdentifier(s).Some? {
      IdentifierExtend(s, e);
    } else {
      PairListExtend(s, e);
    }
  }

  lemma ReactionTailExtend(s: seq<Token>, e: seq<Token>)
    requires ParseReactionTail(s).Some?
    ensures ParseReactionTail(s + e) == Extended(ParseReactionTail(s), e)
  {
    var afterLeft := Expect(s, "<-").value;
    ExpectExtend(s, "<-", e);
    var rate := ParseReactionRef(afterLeft).value;
    ReactionRefExtend(afterLeft, e);
    var afterRight := Expect(rate.1, "->").value;
    ExpectExtend(rate.1, "->", e);
    var products := ParseTerms(afterRight).value;
    TermsExtend(afterRight, e);
    ExpectExtend(products.1, ";", e);
  }

  lemma ReactionExtend(s: seq<Token>, e: seq<Token>)
    requires ParseReaction(s).Some?
    ensures ParseReaction(s + e) == Extended(ParseReaction(s), e)
  {
    var substrates := ParseTerms(s).value;
    TermsExtend(s, e);
    ReactionTailExtend(substrates.1, e);
  }

  lemma VariableExtend(s: seq<Token>, e: seq<Token>)
    requires ParseVariable(s).Some?
    ensures ParseVariable(s + e) == Extended(ParseVariable(s), e)
  {
    HeadOfAppend(s, e);
    var afterQualifier := if s[0] == "const" || s[0] == "var" then s[1..] else s;
    assert (if (s + e)[0] == "const" || (s + e)[0] == "var" then (s + e)[1..] else s + e) == afterQualifier + e;
    var pair := ParsePair(afterQualifier).value;
    PairExtend(afterQualifier, e);
    ExpectExtend(pair.1, ";", e);
  }

  lemma RecipeInstanceExtend(s: seq<Token>, e: seq<Token>)
    requires ParseRecipeInstance(s).Some?
    ensures ParseRecipeInstance(s + e) == Extended(ParseRecipeInstance(s), e)
  {
    var recipe := ParseIdentifier(s).value;
    IdentifierExtend(s, e);
    var name := ParseIdentifier(recipe.1).value;
    IdentifierExtend(recipe.1, e);
    ExpectExtend(name.1, ";", e);
  }

  /** A reaction starts with a coefficient or a species name. */
  lemma ReactionStart(s: seq<Token>)
    requires ParseReaction(s).Some?
    ensures |s| > 0 && s[0] !in Reserved
  {
    if IsDigits(s[0]) {
      RoundTrip.DigitsAreNotReserved(s[0]);
    }
  }

  /** Reserved words start no reaction. */
  lemma ReservedStartsNoReaction(t: seq<Token>)
    requires |t| > 0 && t[0] in Reserved
    ensures ParseReaction(t) == None
  {
    if IsDigits(t[0]) {
      RoundTrip.DigitsAreNotReserved(t[0]);
    }
    assert ParseTerm(t) == None;
  }

  /** A name followed by neither `+` nor `<-` starts no reaction. */
  lemma NameWithoutArrowStartsNoReaction(t: seq<Token>)
    requires |t| >= 2 && IsIdentifier(t[0]) && t[1] != "+" && t[1] != "<-"
    ensures ParseReaction(t) == None
  {
    if IsDigits(t[0]) {
      RoundTrip.DigitsAreNotReserved(t[0]);
    }
    assert ParseTerm(t) == Some((Term("1", t[0]), t[1..]));
    assert ParseTerms(t) == Some(([Term("1", t[0])], t[1..]));
    assert Expect(t[1..], "<-") == None;
  }

  /** The punctuation a reaction continues with is no identifier. */
  lemma PunctuationIsNoName()
    ensures !IsIdentifier("+") && !IsIdentifier("<-") && !IsIdentifier("=")
  {
    assert "+"[0] == '+' && "<-"[0] == '<' && "="[0] == '=';
  }

  /** A variable statement starts with a qualifier or a name and `=`, so no
      earlier alternative matches it, whatever follows. */
  lemma VariableFirstMatch(s: seq<Token>, e: seq<Token>)
    requires ParseVariable(s).Some?
    ensures ParseSpecies(s + e) == None && ParseReactionDecl(s + e) == None && ParseReaction(s + e) == None
  {
    var t := s + e;
    HeadOfAppend(s, e);
    if s[0] == "const" || s[0] == "var" {
      ReservedStartsNoReaction(t);
    } else {
      RoundTrip.KeywordAlternativesFail(t);
      assert |s| >= 2 && s[1] == "=";
      PunctuationIsNoName();
      NameWithoutArrowStartsNoReaction(t);
    }
  }

  /** A recipe instance starts with two names, so no earlier alternative
      matches it, whatever follows. */
  lemma RecipeInstanceFirstMatch(s: seq<Token>, e: seq<Token>)
    requires ParseRecipeInstance(s).Some?
    ensures ParseSpecies(s + e) == None && ParseReactionDecl(s + e) == None
    ensures ParseReaction(s + e) == None && ParseVariable(s + e) == None
  {
    var t := s + e;
    HeadOfAppend(s, e);
    RoundTrip.KeywordAlternativesFail(t);
    assert |s| >= 2 && IsIdentifier(s[1]);
    PunctuationIsNoName();
    NameWithoutArrowStartsNoReaction(t);
    assert ParsePair(t) == None;
  }

  /** The statement alternatives are decided by the first two tokens, which
      the appended tokens do not change. */
  lemma StmtExtend(s: seq<Token>, e: seq<Token>)
    requires ParseStmt(s).Some?
    ensures ParseStmt(s + e) == Extended(ParseStmt(s), e)
  {
    if ParseSpecies(s).Some? {
      SpeciesExtend(s, e);
    } else if ParseReactionDecl(s).Some? {
      HeadOfAppend(s, e);
      assert ParseSpecies(s + e) == None;
      ReactionDeclExtend(s, e);
    } else if ParseReaction(s).Some? {
      ReactionStart(s);
      HeadOfAppend(s, e);
      RoundTrip.KeywordAlternativesFail(s + e);
      ReactionExtend(s, e);
    } else if ParseVariable(s).Some? {
      VariableFirstMatch(s, e);
      VariableExtend(s, e);
    } else {
      RecipeInstanceFirstMatch(s, e);
      RecipeInstanceExtend(s, e);
    }
  }

  /** A run of statements closed by `end` reads the same with tokens
      appended. */
  lemma {:induction false} ManyStmtsExtend(s: seq<Token>, e: seq<Token>)
    requires |ManyStmts(s).1| > 0 && ManyStmts(s).1[0] == "end"
    ensures ManyStmts(s + e) == (ManyStmts(s).0, ManyStmts(s).1 + e)
    decreases |s|
  {
    match ParseStmt(s)
    case None =>
      HeadOfAppend(s, e);
      RoundTrip.HeadTail(s + e);
      RoundTrip.StmtRejectsEnd((s + e)[1..]);
    case Some(first) =>
      StmtExtend(s, e);
      ManyStmtsExtend(first.1, e);
  }

  lemma BodyExtend(s: seq<Token>, e: seq<Token>)
    requires ParseBody(s).Some?
    requires |ParseBody(s).value.1| > 0 && ParseBody(s).value.1[0] == "end"
    ensures ParseBody(s + e) == Extended(ParseBody(s), e)
  {
    ManyStmtsExtend(s, e);
  }

  // ---------------------------------------------------------------------
  // Recipes and compartments

  /** A geometry extends unless its optional list was left out at the end of
      the input or in front of a `[` that opens no list. */
  lemma GeometryExtend(s: seq<Token>, e: seq<Token>)
    requires ParseGeometry(s).Some?
    requires |ParseGeometry(s).value.1| > 0 && ParseGeometry(s).value.1[0] != "["
    ensures ParseGeometry(s + e) == Extended(ParseGeometry(s), e)
  {
    HeadOfAppend(s, e);
    if ParsePairList(s[1..]).Some? {
      PairListExtend(s[1..], e);
    } else {
      HeadOfAppend(s[1..], e);
      assert Expect(s[1..] + e, "[") == None;
    }
  }

  lemma CompartmentTailExtend(s: seq<Token>, e: seq<Token>)
    requires ParseCompartmentTail(s).Some?
    ensures ParseCompartmentTail(s + e) == Extended(ParseCompartmentTail(s), e)
  {
    var afterHas := Expect(s, "has").value;
    ExpectExtend(s, "has", e);
    var body := ParseBody(afterHas).value;
    BodyExtend(afterHas, e);
    ExpectExtend(body.1, "end", e);
  }

  lemma CompartmentExtend(s: seq<Token>, e: seq<Token>)
    requires ParseCompartment(s).Some?
    ensures ParseCompartment(s + e) == Extended(ParseCompartment(s), e)
  {
    var afterKeyword := Expect(s, "compartment").value;
    ExpectExtend(s, "compartment", e);
    var name := ParseIdentifier(afterKeyword).value;
    IdentifierExtend(afterKeyword, e);
    var afterIs := Expect(name.1, "is").value;
    ExpectExtend(name.1, "is", e);
    var geometry := ParseGeometry(afterIs).value;
    GeometryExtend(afterIs, e);
    CompartmentTailExtend(geometry.1, e);
  }

  lemma RecipeExtend(s: seq<Token>, e: seq<Token>)
    requires ParseRecipe(s).Some?
    ensures ParseRecipe(s + e) == Extended(ParseRecipe(s), e)
  {
    var afterKeyword := Expect(s, "recipe").value;
    ExpectExtend(s, "recipe", e);
    var name := ParseIdentifier(afterKeyword).value;
    IdentifierExtend(afterKeyword, e);
    var afterIs := Expect(name.1, "is").value;
    ExpectExtend(name.1, "is", e);
    var body := ParseBody(afterIs).value;
    BodyExtend(afterIs, e);
    ExpectExtend(body.1, "end", e);
  }

  lemma BlockExtend(s: seq<Token>, e: seq<Token>)
    requires ParseBlock(s).Some?
    ensures ParseBlock(s + e) == Extended(ParseBlock(s), e)
  {
    if ParseRecipe(s).Some? {
      RecipeExtend(s, e);
    } else {
      HeadOfAppend(s, e);
      assert Expect(s + e, "recipe") == None;
      CompartmentExtend(s, e);
    }
  }

  /** A run of blocks closed by the model keyword reads the same with tokens
      appended. */
  lemma {:induction false} ManyBlocksExtend(s: seq<Token>, e: seq<Token>)
    requires |ManyBlocks(s).1| > 0 && ManyBlocks(s).1[0] in ModelKeywords
    ensures ManyBlocks(s + e) == (ManyBlocks(s).0, ManyBlocks(s).1 + e)
    decreases |s|
  {
    match ParseBlock(s)
    case None =>
      HeadOfAppend(s, e);
      RoundTrip.BlockRejectsModel(s + e);
    case Some(first) =>
      BlockExtend(s, e);
      ManyBlocksExtend(first.1, e);
  }

  lemma BlocksExtend(s: seq<Token>, e: seq<Token>)
    requires ParseBlocks(s).Some?
    requires |ParseBlocks(s).value.1| > 0 && ParseBlocks(s).value.1[0] in ModelKeywords
    ensures ParseBlocks(s + e) == Extended(ParseBlocks(s), e)
  {
    ManyBlocksExtend(s, e);
  }

  // ---------------------------------------------------------------------
  // The model

  lemma SimulatorExtend(s: seq<Token>, e: seq<Token>)
    requires ParseSimulator(s).Some?
    ensures ParseSimulator(s + e) == Extended(ParseSimulator(s), e)
  {
    var afterKeyword := Expect(s, "simulator").value;
    ExpectExtend(s, "simulator", e);
    var name := ParseIdentifier(afterKeyword).value;
    IdentifierExtend(afterKeyword, e);
    if ParsePairList(name.1).Some? {
      PairListExtend(name.1, e);
      ExpectExtend(ParsePairList(name.1).value.1, ";", e);
    } else {
      ExpectExtend(name.1, ";", e);
      HeadOfAppend(name.1, e);
      assert Expect(name.1 + e, "[") == None;
    }
  }

  lemma CompartmentInstanceExtend(s: seq<Token>, e: seq<Token>)
    requires ParseCompartmentInstance(s).Some?
    ensures ParseCompartmentInstance(s + e) == Extended(ParseCompartmentInstance(s), e)
  {
    var compartment := ParseIdentifier(s).value;
    IdentifierExtend(s, e);
    var name := ParseIdentifier(compartment.1).value;
    IdentifierExtend(compartment.1, e);
    ExpectExtend(name.1, ";", e);
  }

  lemma ModelStmtExtend(s: seq<Token>, e: seq<Token>)
    requires ParseModelStmt(s).Some?
    ensures ParseModelStmt(s + e) == Extended(ParseModelStmt(s), e)
  {
    if ParseCompartmentInstance(s).Some? {
      CompartmentInstanceExtend(s, e);
    } else {
      HeadOfAppend(s, e);
      assert ParseIdentifier(s + e) == None;
      SimulatorExtend(s, e);
    }
  }

  /** A run of model statements closed by `end` reads the same with tokens
      appended. */
  lemma {:induction false} ManyModelStmtsExtend(s: seq<Token>, e: seq<Token>)
    requires |ManyModelStmts(s).1| > 0 && ManyModelStmts(s).1[0] == "end"
    ensures ManyModelStmts(s + e) == (ManyModelStmts(s).0, ManyModelStmts(s).1 + e)
    decreases |s|
  {
    match ParseModelStmt(s)
    case None =>
      HeadOfAppend(s, e);
      RoundTrip.HeadTail(s + e);
      RoundTrip.ModelStmtRejectsEnd((s + e)[1..]);
    case Some(first) =>
      ModelStmtExtend(s, e);
      ManyModelStmtsExtend(first.1, e);
  }

  lemma ModelExtend(s: seq<Token>, e: seq<Token>)
    requires ParseModel(s).Some?
    ensures ParseModel(s + e) == Extended(ParseModel(s), e)
  {
    HeadOfAppend(s, e);
    var name := ParseIdentifier(s[1..]).value;
    IdentifierExtend(s[1..], e);
    var afterHas := Expect(name.1, "has").value;
    ExpectExtend(name.1, "has", e);
    ManyModelStmtsExtend(afterHas, e);
    ExpectExtend(ManyModelStmts(afterHas).1, "end", e);
  }

  /** The document ends with the model's `end`: whatever follows it is handed
      back untouched and changes nothing in the document. This rests on no
      keyword being an identifier, so that `end` never starts another model
      statement. */
  lemma DocumentExtend(s: seq<Token>, e: seq<Token>)
    requires ParseDocument(s).Some?
    ensures ParseDocument(s + e) == Extended(ParseDocument(s), e)
  {
    var blocks := ParseBlocks(s).value;
    BlocksExtend(s, e);
    ModelExtend(blocks.1, e);
  }
}
