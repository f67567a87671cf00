/** What the draft grammar of yparser/yacml_bnf.py accepts and produces,
    on its own smoke tests and next to the complete grammar of
    yparser/bnf.py. */
module DraftProperties {
  import opened Lexical
  import opened Grammar
  import opened Printer
  import opened Draft
  import RoundTrip

  /** The nested token the draft makes of a term of the complete grammar. */
  function DraftTermOf(t: Term): DraftToken
    requires WellFormedTerm(t)
  {
    Group([Int(DecimalValue(t.coefficient)), Text(t.species)])
  }

  function DraftTermsOf(ts: seq<Term>): (r: Out)
    requires forall i :: 0 <= i < |ts| ==> WellFormedTerm(ts[i])
    ensures |r| == |ts|
    ensures forall i :: 0 <= i < |ts| ==> r[i] == DraftTermOf(ts[i])
  {
    if ts == [] then [] else [DraftTermOf(ts[0])] + DraftTermsOf(ts[1..])
  }

  lemma IdentifierHasShape(t: Token)
    requires IsIdentifier(t)
    ensures IsIdentifierShape(t)
  {
  }

  /** Wherever the complete grammar reads a term, the draft reads the same
      tokens: its coefficient becomes the integer the digits denote, 1 when
      it is omitted, and the same input is left. */
  lemma TermAgrees(toks: seq<Token>, t: Term, rest: seq<Token>)
    requires ParseTerm(toks) == Some((t, rest))
    ensures WellFormedTerm(t)
    ensures DraftTerm(toks) == Some((DraftTermOf(t), rest))
  {
    if IsDigits(toks[0]) {
      assert ParseIdentifier(toks[1..]) == Some((t.species, rest));
    } else {
      assert t.coefficient == "1";
      assert DecimalValue("1") == 1;
    }
  }

  lemma DraftTermsMore(toks: seq<Token>, first: DraftToken, tail: seq<Token>, more: Out, rest: seq<Token>)
    requires DraftTerm(toks) == Some((first, tail)) && |tail| > 0 && tail[0] == "+"
    requires DraftTermItems(tail[1..]) == Some((more, rest))
    ensures DraftTermItems(toks) == Some(([first] + more, rest))
  {
  }

  lemma DraftTermsLast(toks: seq<Token>, first: DraftToken, rest: seq<Token>)
    requires DraftTerm(toks) == Some((first, rest)) && !(|rest| > 0 && rest[0] == "+")
    ensures DraftTermItems(toks) == Some(([first], rest))
  {
  }

  /** A printed list of terms reads, in the draft, as one term group per
      term, in order, with the `+` signs dropped. */
  lemma {:induction false} TermsAgree(ts: seq<Term>, rest: seq<Token>)
    requires PrintableTerms(ts)
    requires !(|rest| > 0 && rest[0] == "+")
    ensures DraftTermItems(TermsTokens(ts) + rest) == Some((DraftTermsOf(ts), rest))
    decreases |ts|
  {
    var t := ts[0];
    if |ts| == 1 {
      assert DraftTerm(TermsTokens(ts) + rest) == Some((DraftTermOf(t), rest)) by {
        assert TermsTokens(ts) == [t.coefficient, t.species];
        RoundTrip.TermRoundTrip(t, rest);
        TermAgrees(TermsTokens(ts) + rest, t, rest);
      }
      DraftTermsLast(TermsTokens(ts) + rest, DraftTermOf(t), rest);
      assert DraftTermsOf(ts) == [DraftTermOf(t)];
    } else {
      var tail := ["+"] + (TermsTokens(ts[1..]) + rest);
      assert DraftTerm(TermsTokens(ts) + rest) == Some((DraftTermOf(t), tail)) by {
        RoundTrip.TermsTokensCons(ts, rest);
        RoundTrip.TermRoundTrip(t, tail);
        TermAgrees(TermsTokens(ts) + rest, t, tail);
      }
      assert DraftTermItems(tail[1..]) == Some((DraftTermsOf(ts[1..]), rest)) by {
        RoundTrip.TermsTail(ts);
        TermsAgree(ts[1..], rest);
        assert tail[1..] == TermsTokens(ts[1..]) + rest;
      }
      DraftTermsMore(TermsTokens(ts) + rest, DraftTermOf(t), tail, DraftTermsOf(ts[1..]), rest);
      assert [DraftTermOf(t)] + DraftTermsOf(ts[1..]) == DraftTermsOf(ts);
    }
  }

  /** The draft's reaction tail, read from its parts: the name, then the
      products followed by `;`. */
  lemma ReactionTailFromParts(name: Token, after: seq<Token>, products: DraftToken, rest: seq<Token>)
    requires IsIdentifierShape(name)
    requires DraftTerms(after) == Some((products, [";"] + rest))
    ensures DraftReactionTail(["<-", name, "->"] + after) == Some((Text(name), products, rest))
  {
    var toks := ["<-", name, "->"] + after;
    assert toks[1..] == [name, "->"] + after;
    assert toks[1..][1..] == ["->"] + after;
    assert toks[1..][1..][1..] == after;
  }

  /** The part of a printed reaction after the substrates reads in the draft
      as its name and its product group. */
  lemma ReactionTailAgrees(name: string, products: seq<Term>, rest: seq<Token>)
    requires IsIdentifier(name) && PrintableTerms(products)
    ensures DraftReactionTail(["<-", name, "->"] + (TermsTokens(products) + ([";"] + rest)))
            == Some((Text(name), Group(DraftTermsOf(products)), rest))
  {
    var after := TermsTokens(products) + ([";"] + rest);
    assert DraftTerms(after) == Some((Group(DraftTermsOf(products)), [";"] + rest)) by {
      TermsAgree(products, [";"] + rest);
    }
    IdentifierHasShape(name);
    ReactionTailFromParts(name, after, Group(DraftTermsOf(products)), rest);
  }

  /** A reaction the complete grammar prints with its rate given by name
      reads in the draft as six tokens: the substrate group, `<-`, the name,
      `->`, the product group and `;`. */
  lemma ReactionByNameAgrees(substrates: seq<Term>, name: string, products: seq<Term>, rest: seq<Token>)
    requires PrintableTerms(substrates) && IsIdentifier(name) && PrintableTerms(products)
    ensures DraftReactionSetup(TermsTokens(substrates) + (["<-", name, "->"] + (TermsTokens(products) + ([";"] + rest))))
            == Some(([Group(DraftTermsOf(substrates)), Text("<-"), Text(name), Text("->"), Group(DraftTermsOf(products)), Text(";")], rest))
  {
    var afterSubstrates := ["<-", name, "->"] + (TermsTokens(products) + ([";"] + rest));
    TermsAgree(substrates, afterSubstrates);
    assert DraftTerms(TermsTokens(substrates) + afterSubstrates) == Some((Group(DraftTermsOf(substrates)), afterSubstrates));
    ReactionTailAgrees(name, products, rest);
  }

  /** The draft has no inline rate: a reaction whose rate is a key-value
      list between the arrows, which the complete grammar accepts, is no
      reaction to the draft. */
  lemma InlineRateRejected(substrates: seq<Term>, params: seq<Pair>, products: seq<Term>, rest: seq<Token>)
    requires PrintableTerms(substrates) && PrintablePairs(params)
    ensures DraftReactionSetup(TermsTokens(substrates) + (["<-"] + (ListTokens(params) + rest))) == None
  {
    var afterSubstrates := ["<-"] + (ListTokens(params) + rest);
    TermsAgree(substrates, afterSubstrates);
    assert afterSubstrates[1..] == ListTokens(params) + rest;
    assert (ListTokens(params) + rest)[0] == "[";
    assert !IsIdentifierShape("[");
  }

  /** A term with a coefficient: the group of the integer the digits denote
      and the species. */
  lemma CoefficientTerm(c: Token, species: Token, rest: seq<Token>)
    requires IsDigits(c) && IsIdentifierShape(species)
    ensures DraftTerm([c, species] + rest) == Some((Group([Int(DecimalValue(c)), Text(species)]), rest))
  {
    var toks := [c, species] + rest;
    assert toks[1..] == [species] + rest;
  }

  /** A term without a coefficient: the group of 1 and the species. */
  lemma BareTerm(species: Token, rest: seq<Token>)
    requires IsIdentifierShape(species)
    ensures DraftTerm([species] + rest) == Some((Group([Int(1), Text(species)]), rest))
  {
    assert !IsDigit(species[0]);
  }

  /** A coefficient of zero is a term to the draft, as it is to the
      complete grammar: neither demands a positive integer. */
  lemma ZeroCoefficientAccepted(species: Token, rest: seq<Token>)
    requires IsIdentifierShape(species)
    ensures DraftTerm(["0", species] + rest) == Some((Group([Int(0), Text(species)]), rest))
  {
    assert IsDigits("0");
    assert DecimalValue("0") == 0;
    CoefficientTerm("0", species, rest);
  }

  // ---------------------------------------------------------------------
  // Keywords of the two grammars

  /** The draft's geometry keyword is `Spine`, which the complete grammar
      rejects. */
  lemma CapitalSpineOnlyInDraft(rest: seq<Token>)
    ensures DraftGeometry(["Spine"] + rest).Some?
    ensures ParseGeometry(["Spine"] + rest) == None
  {
    assert DraftWord(["Spine"] + rest, DraftGeometryKeywords).Some?;
  }

  /** The complete grammar's geometry keyword is `spine`, which the draft
      rejects. */
  lemma SpineOnlyInCompleteGrammar(rest: seq<Token>)
    ensures DraftGeometry(["spine"] + rest) == None
    ensures ParseGeometry(["spine"] + rest).Some?
  {
    assert (["spine"] + rest)[0] == "spine";
  }

  /** `enzyme` declares a species only in the complete grammar; to the draft
      it is an ordinary word. */
  lemma EnzymeOnlyInCompleteGrammar()
    ensures "enzyme" in SpeciesKeywords && "enzyme" !in DraftSpeciesKeywords
    ensures "enz_reac" in ReactionKeywords && "enz_reac" !in DraftReactionKeywords
  {
  }

  /** What the draft makes of a value token: a float for a number, the
      token itself otherwise. */
  function DraftValueOf(value: Token): DraftToken {
    if IsNumber(value) then Float(value) else Text(value)
  }

  predicate IsDraftValue(value: Token) {
    IsNumber(value) || IsIdentifierShape(value) || IsQuoted(value)
  }

  /** `key = value` read from its parts. */
  lemma PairFromParts(key: Token, value: Token, rest: seq<Token>)
    requires IsIdentifierShape(key) && IsDraftValue(value)
    ensures DraftPair([key, "=", value] + rest) == Some(([Text(key), Text("="), DraftValueOf(value)], rest))
  {
    var toks := [key, "=", value] + rest;
    assert toks[1..] == ["=", value] + rest;
    assert toks[1..][1..] == [value] + rest;
    assert ([value] + rest)[1..] == rest;
  }

  /** `key = value` with nothing after it. */
  lemma PairAlone(key: Token, value: Token)
    requires IsIdentifierShape(key) && IsDraftValue(value)
    ensures DraftPair([key, "=", value]) == Some(([Text(key), Text("="), DraftValueOf(value)], []))
  {
    PairFromParts(key, value, []);
    assert [key, "=", value] + [] == [key, "=", value];
  }

  /** A pair followed by `;` is a variable statement, `;` kept. */
  lemma VariableFromPair(toks: seq<Token>, pair: Out, rest: seq<Token>)
    requires DraftPair(toks) == Some((pair, [";"] + rest))
    ensures DraftVariable(toks) == Some((pair + [Text(";")], rest))
  {
    assert ([";"] + rest)[1..] == rest;
  }

  lemma VariableInput(key: Token, value: Token, rest: seq<Token>)
    ensures [key, "=", value, ";"] + rest == [key, "=", value] + ([";"] + rest)
  {
    AppendAssociative([key, "=", value], [";"], rest);
    assert [key, "=", value, ";"] == [key, "=", value] + [";"];
  }

  /** `key = value ;` read as a statement: the variable alternative, with
      `;` kept. */
  lemma VariableFromParts(key: Token, value: Token, rest: seq<Token>)
    requires IsIdentifierShape(key) && IsDraftValue(value)
    ensures DraftStmt([key, "=", value, ";"] + rest) == Some(([Text(key), Text("="), DraftValueOf(value), Text(";")], rest))
  {
    var toks := [key, "=", value, ";"] + rest;
    var pair := [Text(key), Text("="), DraftValueOf(value)];
    PairStartIsVariable(toks);
    VariableInput(key, value, rest);
    PairFromParts(key, value, [";"] + rest);
    VariableFromPair(toks, pair, rest);
    assert pair + [Text(";")] == [Text(key), Text("="), DraftValueOf(value), Text(";")];
  }

  /** The draft does not reserve its keywords: `species` may name a
      variable, where the complete grammar, read as excluding every
      keyword from identifiers, refuses it as a name. */
  lemma KeywordAsVariableName(rest: seq<Token>)
    ensures DraftStmt(["species", "=", "x", ";"] + rest) == Some(([Text("species"), Text("="), Text("x"), Text(";")], rest))
    ensures ParseIdentifier(["species", "=", "x", ";"] + rest) == None
  {
    assert IsIdentifierShape("species") && IsIdentifierShape("x");
    ValueClassesDisjoint("x");
    VariableFromParts("species", "x", rest);
    assert (["species", "=", "x", ";"] + rest)[0] == "species";
  }

  /** `end` takes any identifier-shaped word after it as the block's name,
      a keyword included: after a bare `end`, the next block's
      `compartment` is swallowed. */
  lemma EndSwallowsNextKeyword(rest: seq<Token>)
    ensures DraftEnd(["end", "compartment"] + rest) == Some(([Text("end"), Text("compartment")], rest))
  {
    var toks := ["end", "compartment"] + rest;
    assert toks[1..] == ["compartment"] + rest;
    assert IsIdentifierShape("compartment");
    assert toks[2..] == rest;
  }

  // ---------------------------------------------------------------------
  // The draft's smoke tests

  lemma AvogadroMantissa()
    ensures IsMantissa("6.023")
  {
    DotAt("6.023", 1);
    assert "6.023"[..1] == "6" && "6.023"[2..] == "023";
    MantissaWithDot("6.023", 1);
  }

  /** `6.023e23` has no sign, and its exponent starts at index 5. */
  lemma AvogadroParts()
    ensures Unsigned("6.023e23") == "6.023e23" && IndexOfExponent("6.023e23") == 5
    ensures "6.023e23"[..5] == "6.023" && "6.023e23"[5..] == "e23"
  {
    ExponentAt("6.023e23", 5);
  }

  lemma AvogadroIsNumber()
    ensures IsNumber("6.023e23")
  {
    var a := "6.023e23";
    AvogadroParts();
    AvogadroMantissa();
    assert IsExponent("e23") by {
      assert "e23"[1..] == "23";
    }
    NumberFromParts(a, a, 5);
  }

  /** `AV = 6.023e23` is three tokens: the name, `=` and the number as a
      float. */
  lemma PairSmokeTest()
    ensures DraftPair(["AV", "=", "6.023e23"]) == Some(([Text("AV"), Text("="), Float("6.023e23")], []))
  {
    AvogadroIsNumber();
    assert IsIdentifierShape("AV");
    PairAlone("AV", "6.023e23");
  }

  /** The compartment of the smoke test has no `is`, so the draft rejects it. */
  lemma CompartmentSmokeTestRejected()
    ensures DraftCompartment(["compartment", "PSD", "has", "AV", "=", "6.023e23", ";", "end", "PSD"]) == None
  {
    var toks := ["compartment", "PSD", "has", "AV", "=", "6.023e23", ";", "end", "PSD"];
    assert IsIdentifierShape("PSD");
    assert toks[1..][1..][0] == "has";
  }

  /** Each numeric literal of the smoke tests is a value, read as a float. */
  lemma NumberSmokeTests()
    ensures DraftValue(["1.5111"]) == Some((Float("1.5111"), []))
    ensures DraftValue([".5111"]) == Some((Float(".5111"), []))
    ensures DraftValue(["-1.35e13"]) == Some((Float("-1.35e13"), []))
    ensures DraftValue(["1e-2"]) == Some((Float("1e-2"), []))
  {
    SmokeTestNumbersAccepted();
    NumberValue("1.5111");
    NumberValue(".5111");
    NumberValue("-1.35e13");
    NumberValue("1e-2");
  }

  /** A number alone is a value, read as a float. */
  lemma NumberValue(t: Token)
    requires IsNumber(t)
    ensures DraftValue([t]) == Some((Float(t), []))
  {
  }

  /** `2a + 3b` followed by `<-`: one group of two terms. */
  lemma SubstrateSmokeTest(rest: seq<Token>)
    requires |rest| > 0 && rest[0] == "<-"
    ensures DraftTerms(["2", "a", "+", "3", "b"] + rest) == Some((Group([Group([Int(2), Text("a")]), Group([Int(3), Text("b")])]), rest))
  {
    assert IsDigits("2") && IsDigits("3") && IsIdentifierShape("a") && IsIdentifierShape("b");
    assert DecimalValue("2") == 2 && DecimalValue("3") == 3;
    var second := ["3", "b"] + rest;
    CoefficientTerm("3", "b", rest);
    assert DraftTermItems(second) == Some(([Group([Int(3), Text("b")])], rest));
    var toks := ["2", "a", "+", "3", "b"] + rest;
    assert toks == ["2", "a"] + (["+"] + second);
    CoefficientTerm("2", "a", ["+"] + second);
    assert (["+"] + second)[1..] == second;
    assert DraftTermItems(toks) == Some(([Group([Int(2), Text("a")])] + [Group([Int(3), Text("b")])], rest));
    assert [Group([Int(2), Text("a")])] + [Group([Int(3), Text("b")])] == [Group([Int(2), Text("a")]), Group([Int(3), Text("b")])];
  }

  /** `c + 9d` followed by `;`: the omitted coefficient is 1. */
  lemma ProductSmokeTest(rest: seq<Token>)
    requires |rest| > 0 && rest[0] == ";"
    ensures DraftTerms(["c", "+", "9", "d"] + rest) == Some((Group([Group([Int(1), Text("c")]), Group([Int(9), Text("d")])]), rest))
  {
    assert IsDigits("9") && IsIdentifierShape("c") && IsIdentifierShape("d");
    assert DecimalValue("9") == 9;
    var second := ["9", "d"] + rest;
    CoefficientTerm("9", "d", rest);
    assert DraftTermItems(second) == Some(([Group([Int(9), Text("d")])], rest));
    var toks := ["c", "+", "9", "d"] + rest;
    assert toks == ["c"] + (["+"] + second);
    BareTerm("c", ["+"] + second);
    assert (["+"] + second)[1..] == second;
    assert DraftTermItems(toks) == Some(([Group([Int(1), Text("c")])] + [Group([Int(9), Text("d")])], rest));
    assert [Group([Int(1), Text("c")])] + [Group([Int(9), Text("d")])] == [Group([Int(1), Text("c")]), Group([Int(9), Text("d")])];
  }

  /** `<- r0 -> c + 9d;`: the name between the arrows and the product group. */
  lemma ReactionTailSmokeTest()
    ensures DraftReactionTail(["<-", "r0", "->", "c", "+", "9", "d", ";"])
            == Some((Text("r0"), Group([Group([Int(1), Text("c")]), Group([Int(9), Text("d")])]), []))
  {
    var after := ["c", "+", "9", "d"] + [";"];
    ProductSmokeTest([";"]);
    assert [";"] + [] == [";"];
    assert IsIdentifierShape("r0");
    ReactionTailFromParts("r0", after, Group([Group([Int(1), Text("c")]), Group([Int(9), Text("d")])]), []);
    assert ["<-", "r0", "->", "c", "+", "9", "d", ";"] == ["<-", "r0", "->"] + after;
  }

  /** `2a + 3b <- r0 -> c + 9d;`: two term groups with integer coefficients,
      the omitted one read as 1, and the punctuation kept. */
  lemma ReactionSmokeTest()
    ensures DraftReactionSetup(["2", "a", "+", "3", "b", "<-", "r0", "->", "c", "+", "9", "d", ";"])
            == Some(([Group([Group([Int(2), Text("a")]), Group([Int(3), Text("b")])]), Text("<-"), Text("r0"), Text("->"),
                      Group([Group([Int(1), Text("c")]), Group([Int(9), Text("d")])]), Text(";")], []))
  {
    var afterSubstrates: seq<Token> := ["<-", "r0", "->", "c", "+", "9", "d", ";"];
    SubstrateSmokeTest(afterSubstrates);
    assert ["2", "a", "+", "3", "b", "<-", "r0", "->", "c", "+", "9", "d", ";"] == ["2", "a", "+", "3", "b"] + afterSubstrates;
    ReactionTailSmokeTest();
  }

  // ---------------------------------------------------------------------
  // Statements

  /** A statement that starts with a name and `=` is a variable to the
      draft: neither declaration has a name after its keyword, and no
      reaction has `<-` after its first term. */
  lemma PairStartIsVariable(toks: seq<Token>)
    requires |toks| >= 2 && IsIdentifierShape(toks[0]) && toks[1] == "="
    ensures DraftStmt(toks) == DraftVariable(toks)
  {
    assert !IsIdentifierShape("=");
    assert DraftDeclaration(toks, DraftSpeciesKeywords) == None
           && DraftDeclaration(toks, DraftReactionKeywords) == None by {
      assert toks[1..][0] == "=";
    }
    assert DraftReactionSetup(toks) == None by {
      BareTerm(toks[0], toks[1..]);
      assert [toks[0]] + toks[1..] == toks;
    }
  }

  /** `x = 1;` is a variable statement: the draft tries the declarations and
      the reaction first, and none of them matches. */
  lemma VariableStmtExample(rest: seq<Token>)
    ensures DraftStmt(["x", "=", "1", ";"] + rest) == Some(([Text("x"), Text("="), Float("1"), Text(";")], rest))
  {
    assert IsIdentifierShape("x") && IsDigits("1");
    DigitsAreNumbers("1");
    VariableFromParts("x", "1", rest);
  }

  // ---------------------------------------------------------------------
  // A bare `end` before the next compartment

  /** `end` followed by `compartment` is no statement. */
  lemma EndIsNoDraftStmt(rest: seq<Token>)
    ensures DraftStmt(["end", "compartment"] + rest) == None
  {
    var toks := ["end", "compartment"] + rest;
    assert IsIdentifierShape("end");
    BareTerm("end", ["compartment"] + rest);
    assert DraftReactionSetup(toks) == None;
    assert toks[1..] == ["compartment"] + rest;
  }

  /** The body `x = 1;` ends where `end` begins. */
  lemma BodyExample(rest: seq<Token>)
    ensures DraftManyStmts(["x", "=", "1", ";", "end", "compartment"] + rest)
            == ([Text("x"), Text("="), Float("1"), Text(";")], ["end", "compartment"] + rest)
  {
    var afterBody := ["end", "compartment"] + rest;
    assert ["x", "=", "1", ";", "end", "compartment"] + rest == ["x", "=", "1", ";"] + afterBody;
    VariableStmtExample(afterBody);
    EndIsNoDraftStmt(rest);
    var body := [Text("x"), Text("="), Float("1"), Text(";")];
    assert body + [] == body;
  }

  /** After a body, a bare `end` followed by `compartment` closes the block
      with `compartment` as its name. */
  lemma BareEndTakesNextKeyword(afterHas: seq<Token>, body: Out, rest: seq<Token>)
    requires body != [] && DraftManyStmts(afterHas) == (body, ["end", "compartment"] + rest)
    ensures DraftCompartmentTail(["has"] + afterHas) == Some(([Text("has")] + (body + [Text("end"), Text("compartment")]), rest))
  {
    assert (["has"] + afterHas)[1..] == afterHas;
    EndSwallowsNextKeyword(rest);
  }

  /** The body `x = 1;` of the first compartment, then `end compartment`. */
  lemma BodyThenBareEnd(rest: seq<Token>)
    ensures DraftCompartmentTail(["has", "x", "=", "1", ";", "end", "compartment"] + rest)
            == Some(([Text("has")] + ([Text("x"), Text("="), Float("1"), Text(";")] + [Text("end"), Text("compartment")]), rest))
  {
    var afterHas := ["x", "=", "1", ";", "end", "compartment"] + rest;
    BodyExample(rest);
    BareEndTakesNextKeyword(afterHas, [Text("x"), Text("="), Float("1"), Text(";")], rest);
    CompartmentTailInput(rest);
  }

  /** The tail of the first compartment, split after `has`. */
  lemma CompartmentTailInput(rest: seq<Token>)
    ensures ["has", "x", "=", "1", ";", "end", "compartment"] + rest
            == ["has"] + (["x", "=", "1", ";", "end", "compartment"] + rest)
  {
    AppendAssociative(["has"], ["x", "=", "1", ";", "end", "compartment"], rest);
    assert ["has", "x", "=", "1", ";", "end", "compartment"] == ["has"] + ["x", "=", "1", ";", "end", "compartment"];
  }

  /** The output of the first compartment, assembled as the draft
      assembles it. */
  lemma FirstCompartmentOutput()
    ensures [Text("has")] + ([Text("x"), Text("="), Float("1"), Text(";")] + [Text("end"), Text("compartment")])
            == [Text("has"), Text("x"), Text("="), Float("1"), Text(";"), Text("end"), Text("compartment")]
    ensures [Text("is")] + ([Text("cube")] + [Text("has"), Text("x"), Text("="), Float("1"), Text(";"), Text("end"), Text("compartment")])
            == [Text("is"), Text("cube"), Text("has"), Text("x"), Text("="), Float("1"), Text(";"), Text("end"), Text("compartment")]
    ensures [Text("compartment"), Text("A")] + [Text("is"), Text("cube"), Text("has"), Text("x"), Text("="), Float("1"), Text(";"), Text("end"), Text("compartment")]
            == [Text("compartment"), Text("A"), Text("is"), Text("cube"), Text("has"), Text("x"), Text("="), Float("1"), Text(";"), Text("end"), Text("compartment")]
  {
    var closing := [Text("has"), Text("x"), Text("="), Float("1"), Text(";"), Text("end"), Text("compartment")];
    var shape := [Text("is"), Text("cube"), Text("has"), Text("x"), Text("="), Float("1"), Text(";"), Text("end"), Text("compartment")];
    assert [Text("cube")] + closing == shape[1..];
  }

  /** The input of the first compartment, split after its name. */
  lemma FirstCompartmentInput(second: seq<Token>)
    ensures ["compartment", "A", "is", "cube", "has", "x", "=", "1", ";", "end", "compartment"] + second
            == ["compartment", "A"] + (["is", "cube", "has", "x", "=", "1", ";", "end", "compartment"] + second)
  {
    AppendAssociative(["compartment", "A"], ["is", "cube", "has", "x", "=", "1", ";", "end", "compartment"], second);
    assert ["compartment", "A", "is", "cube", "has", "x", "=", "1", ";", "end", "compartment"]
           == ["compartment", "A"] + ["is", "cube", "has", "x", "=", "1", ";", "end", "compartment"];
  }

  /** `is cube has x = 1; end compartment`: no list after the geometry. */
  lemma ShapeExample(second: seq<Token>)
    ensures DraftCompartmentShape(["is", "cube", "has", "x", "=", "1", ";", "end", "compartment"] + second)
            == Some(([Text("is"), Text("cube"), Text("has"), Text("x"), Text("="), Float("1"), Text(";"), Text("end"), Text("compartment")], second))
  {
    var tail := ["has", "x", "=", "1", ";", "end", "compartment"] + second;
    assert ["is", "cube", "has", "x", "=", "1", ";", "end", "compartment"] + second == ["is"] + (["cube"] + tail);
    BodyThenBareEnd(second);
    FirstCompartmentOutput();
    assert DraftList(tail) == None;
    assert DraftGeometry(["cube"] + tail) == Some(([Text("cube")], tail));
  }

  /** A compartment read from its parts: the keyword, a name, then its
      shape. */
  lemma CompartmentFromShape(name: Token, afterName: seq<Token>, shape: Out, rest: seq<Token>)
    requires IsIdentifierShape(name)
    requires DraftCompartmentShape(afterName) == Some((shape, rest))
    ensures DraftCompartment(["compartment", name] + afterName) == Some(([Text("compartment"), Text(name)] + shape, rest))
  {
    var toks := ["compartment", name] + afterName;
    assert toks[1..] == [name] + afterName;
    assert toks[1..][1..] == afterName;
  }

  /** The first compartment parses, closed by `end compartment`. */
  lemma FirstCompartmentExample(second: seq<Token>)
    ensures DraftCompartment(["compartment", "A", "is", "cube", "has", "x", "=", "1", ";", "end", "compartment"] + second)
            == Some(([Text("compartment"), Text("A"), Text("is"), Text("cube"), Text("has"), Text("x"), Text("="), Float("1"), Text(";"),
                      Text("end"), Text("compartment")], second))
  {
    var afterName := ["is", "cube", "has", "x", "=", "1", ";", "end", "compartment"] + second;
    FirstCompartmentInput(second);
    ShapeExample(second);
    assert IsIdentifierShape("A");
    CompartmentFromShape("A", afterName,
                         [Text("is"), Text("cube"), Text("has"), Text("x"), Text("="), Float("1"), Text(";"), Text("end"), Text("compartment")],
                         second);
    FirstCompartmentOutput();
  }

  /** One compartment followed by anything but `compartment` is all the
      draft reads. */
  lemma StopsAfterOne(toks: seq<Token>, out: Out, rest: seq<Token>)
    requires DraftCompartment(toks) == Some((out, rest))
    requires !(|rest| > 0 && rest[0] == "compartment")
    ensures DraftManyCompartments(toks) == (out, rest)
  {
    assert DraftCompartment(rest) == None;
    assert out + [] == out;
  }

  /** Two compartments where the first closes with a bare `end`: the first
      one takes the second's `compartment` keyword as its closing name, the
      second is never parsed, and everything from its name on is left over. */
  lemma BareEndLosesNextCompartment(second: seq<Token>)
    requires |second| > 0 && second[0] == "B"
    ensures DraftManyCompartments(["compartment", "A", "is", "cube", "has", "x", "=", "1", ";", "end", "compartment"] + second)
            == ([Text("compartment"), Text("A"), Text("is"), Text("cube"), Text("has"), Text("x"), Text("="), Float("1"), Text(";"),
                 Text("end"), Text("compartment")], second)
  {
    FirstCompartmentExample(second);
    StopsAfterOne(["compartment", "A", "is", "cube", "has", "x", "=", "1", ";", "end", "compartment"] + second,
                  [Text("compartment"), Text("A"), Text("is"), Text("cube"), Text("has"), Text("x"), Text("="), Float("1"), Text(";"),
                   Text("end"), Text("compartment")], second);
  }
}
