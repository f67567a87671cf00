/** Parsing what the printer writes gives back what was printed: the grammar
    of yparser/bnf.py loses nothing of a well-formed value, and each ordered
    choice picks the alternative the printed value came from. */
module RoundTrip {
  import opened Lexical
  import opened Grammar
  import opened Printer

  lemma ValueRoundTrip(v: string, rest: seq<Token>)
    requires PrintableValue(v)
    ensures ParseValue([ValueToken(v)] + rest) == Some((v, rest))
  {
    var toks := [ValueToken(v)] + rest;
    assert toks[0] == ValueToken(v) && toks[1..] == rest;
    if !(IsNumber(v) || IsIdentifier(v)) {
      var q := "\"" + v + "\"";
      assert !IsNumber(q) by {
        if IsNumber(q) { NumberFirstChar(q); }
      }
      assert q[1..|q| - 1] == v;
      UnquoteDoubleQuoted(v);
    }
  }

  lemma PairRoundTrip(p: Pair, rest: seq<Token>)
    requires PrintablePair(p)
    ensures ParsePair(PairTokens(p) + rest) == Some((p, rest))
  {
    var toks := PairTokens(p) + rest;
    assert toks[0] == p.key && toks[1..][0] == "=";
    assert toks[1..][1..] == [ValueToken(p.value)] + rest;
    ValueRoundTrip(p.value, rest);
  }

  lemma PairsMore(toks: seq<Token>, p: Pair, tail: seq<Token>, more: seq<Pair>, rest: seq<Token>)
    requires ParsePair(toks) == Some((p, tail)) && |tail| > 0 && tail[0] == ","
    requires ParsePairs(tail[1..]) == Some((more, rest))
    ensures ParsePairs(toks) == Some(([p] + more, rest))
  {
  }

  lemma PairsLast(toks: seq<Token>, p: Pair, rest: seq<Token>)
    requires ParsePair(toks) == Some((p, rest)) && !(|rest| > 0 && rest[0] == ",")
    ensures ParsePairs(toks) == Some(([p], rest))
  {
  }

  /** An item, a separator and the items after it, followed by `rest`,
      regrouped from the right. */
  lemma SeparatorRegroup(head: seq<Token>, separator: Token, more: seq<Token>, rest: seq<Token>)
    ensures head + [separator] + more + rest == head + ([separator] + (more + rest))
  {
    AppendAssociative(head + [separator], more, rest);
    AppendAssociative(head, [separator], more + rest);
  }

  lemma PairsTokensUnfold(ps: seq<Pair>)
    requires |ps| > 1
    ensures PairsTokens(ps) == PairTokens(ps[0]) + [","] + PairsTokens(ps[1..])
  {
    assert |ps| != 0 && |ps| != 1;
  }

  lemma PairsTokensCons(ps: seq<Pair>, rest: seq<Token>)
    requires |ps| > 1
    ensures PairsTokens(ps) + rest == PairTokens(ps[0]) + ([","] + (PairsTokens(ps[1..]) + rest))
  {
    PairsTokensUnfold(ps);
    SeparatorRegroup(PairTokens(ps[0]), ",", PairsTokens(ps[1..]), rest);
  }

  lemma PairsTail(ps: seq<Pair>)
    requires PrintablePairs(ps) && |ps| > 1
    ensures PrintablePairs(ps[1..])
  {
    forall i | 0 <= i < |ps[1..]| ensures PrintablePair(ps[1..][i]) {
      assert ps[1..][i] == ps[i + 1];
    }
  }

  /** One printed pair is a list of one pair. */
  lemma PairsRoundTripOne(ps: seq<Pair>, rest: seq<Token>)
    requires PrintablePairs(ps) && |ps| == 1
    requires !(|rest| > 0 && rest[0] == ",")
    ensures ParsePairs(PairsTokens(ps) + rest) == Some((ps, rest))
  {
    assert ParsePair(PairsTokens(ps) + rest) == Some((ps[0], rest)) by {
      assert |ps| != 0;
      assert PairsTokens(ps) == PairTokens(ps[0]);
      PairRoundTrip(ps[0], rest);
    }
    PairsLast(PairsTokens(ps) + rest, ps[0], rest);
    assert [ps[0]] == ps;
  }

  /** A printed pair, `,` and pairs that read back read back with it. */
  lemma PairsRoundTripStep(ps: seq<Pair>, rest: seq<Token>)
    requires PrintablePairs(ps) && |ps| > 1
    requires ParsePairs(PairsTokens(ps[1..]) + rest) == Some((ps[1..], rest))
    ensures ParsePairs(PairsTokens(ps) + rest) == Some((ps, rest))
  {
    var tail := [","] + (PairsTokens(ps[1..]) + rest);
    assert ParsePair(PairsTokens(ps) + rest) == Some((ps[0], tail)) by {
      PairsTokensCons(ps, rest);
      PairRoundTrip(ps[0], tail);
    }
    assert tail[1..] == PairsTokens(ps[1..]) + rest;
    PairsMore(PairsTokens(ps) + rest, ps[0], tail, ps[1..], rest);
    assert [ps[0]] + ps[1..] == ps;
  }

  lemma {:induction false} PairsRoundTrip(ps: seq<Pair>, rest: seq<Token>)
    requires PrintablePairs(ps)
    requires !(|rest| > 0 && rest[0] == ",")
    ensures ParsePairs(PairsTokens(ps) + rest) == Some((ps, rest))
    decreases |ps|
  {
    if |ps| == 1 {
      PairsRoundTripOne(ps, rest);
    } else {
      PairsTail(ps);
      PairsRoundTrip(ps[1..], rest);
      PairsRoundTripStep(ps, rest);
    }
  }

  /** A non-empty list of printable pairs reads back exactly, in order. */
  lemma ListRoundTrip(ps: seq<Pair>, rest: seq<Token>)
    requires PrintablePairs(ps)
    ensures ParsePairList(ListTokens(ps) + rest) == Some((ps, rest))
  {
    var toks := ListTokens(ps) + rest;
    var inner := PairsTokens(ps) + (["]"] + rest);
    assert toks == ["["] + inner;
    assert Expect(toks, "[") == Some(inner);
    PairsRoundTrip(ps, ["]"] + rest);
    assert Expect(["]"] + rest, "]") == Some(rest);
  }

  /** `[]` is not a key-value list: a list holds at least one pair. */
  lemma EmptyListRejected(rest: seq<Token>)
    ensures ParsePairList(["[", "]"] + rest) == None
  {
    var toks := ["[", "]"] + rest;
    assert toks[1..] == ["]"] + rest;
    assert !IsIdentifier("]");
  }

  lemma TermsMore(toks: seq<Token>, t: Term, tail: seq<Token>, more: seq<Term>, rest: seq<Token>)
    requires ParseTerm(toks) == Some((t, tail)) && |tail| > 0 && tail[0] == "+"
    requires ParseTerms(tail[1..]) == Some((more, rest))
    ensures ParseTerms(toks) == Some(([t] + more, rest))
  {
  }

  lemma TermsLast(toks: seq<Token>, t: Term, rest: seq<Token>)
    requires ParseTerm(toks) == Some((t, rest)) && !(|rest| > 0 && rest[0] == "+")
    ensures ParseTerms(toks) == Some(([t], rest))
  {
  }

  /** A printed term reads back as itself. */
  lemma TermRoundTrip(t: Term, rest: seq<Token>)
    requires WellFormedTerm(t)
    ensures ParseTerm([t.coefficient, t.species] + rest) == Some((t, rest))
  {
    var toks := [t.coefficient, t.species] + rest;
    assert toks[1..] == [t.species] + rest;
  }

  lemma TermsTokensCons(ts: seq<Term>, rest: seq<Token>)
    requires |ts| > 1
    ensures TermsTokens(ts) + rest == [ts[0].coefficient, ts[0].species] + (["+"] + (TermsTokens(ts[1..]) + rest))
  {
    var c := ts[0].coefficient;
    var s := ts[0].species;
    assert |ts| != 0 && |ts| != 1;
    assert TermsTokens(ts) == [c, s, "+"] + TermsTokens(ts[1..]);
    assert [c, s, "+"] == [c, s] + ["+"];
    AppendAssociative([c, s, "+"], TermsTokens(ts[1..]), rest);
    AppendAssociative([c, s], ["+"], TermsTokens(ts[1..]) + rest);
  }

  lemma TermsTail(ts: seq<Term>)
    requires PrintableTerms(ts) && |ts| > 1
    ensures PrintableTerms(ts[1..])
  {
    forall i | 0 <= i < |ts[1..]| ensures WellFormedTerm(ts[1..][i]) {
      assert ts[1..][i] == ts[i + 1];
    }
  }

  lemma TermsRoundTripOne(ts: seq<Term>, rest: seq<Token>)
    requires PrintableTerms(ts) && |ts| == 1
    requires !(|rest| > 0 && rest[0] == "+")
    ensures ParseTerms(TermsTokens(ts) + rest) == Some((ts, rest))
  {
    var t := ts[0];
    assert ParseTerm(TermsTokens(ts) + rest) == Some((t, rest)) by {
      assert |ts| != 0;
      assert TermsTokens(ts) == [t.coefficient, t.species];
      TermRoundTrip(t, rest);
    }
    TermsLast(TermsTokens(ts) + rest, t, rest);
    assert [t] == ts;
  }

  lemma TermsRoundTripStep(ts: seq<Term>, rest: seq<Token>)
    requires PrintableTerms(ts) && |ts| > 1
    requires ParseTerms(TermsTokens(ts[1..]) + rest) == Some((ts[1..], rest))
    ensures ParseTerms(TermsTokens(ts) + rest) == Some((ts, rest))
  {
    var t := ts[0];
    var tail := ["+"] + (TermsTokens(ts[1..]) + rest);
    assert ParseTerm(TermsTokens(ts) + rest) == Some((t, tail)) by {
      TermsTokensCons(ts, rest);
      TermRoundTrip(t, tail);
    }
    assert tail[1..] == TermsTokens(ts[1..]) + rest;
    TermsMore(TermsTokens(ts) + rest, t, tail, ts[1..], rest);
    assert [t] + ts[1..] == ts;
  }

  lemma {:induction false} TermsRoundTrip(ts: seq<Term>, rest: seq<Token>)
    requires PrintableTerms(ts)
    requires !(|rest| > 0 && rest[0] == "+")
    ensures ParseTerms(TermsTokens(ts) + rest) == Some((ts, rest))
    decreases |ts|
  {
    if |ts| == 1 {
      TermsRoundTripOne(ts, rest);
    } else {
      TermsTail(ts);
      TermsRoundTrip(ts[1..], rest);
      TermsRoundTripStep(ts, rest);
    }
  }

  // ---------------------------------------------------------------------
  // Statements

  /** No reserved word, so no keyword, is a digit string or an identifier. */
  lemma DigitsAreNotReserved(c: string)
    requires IsDigits(c)
    ensures c !in Reserved && !IsIdentifierShape(c)
  {
    if c in Reserved {
      ReservedAreNotIdentifiers(c);
    }
  }

  lemma NamedListRoundTrip(name: string, ps: seq<Pair>, rest: seq<Token>)
    requires IsIdentifier(name) && PrintablePairs(ps)
    ensures ParseNamedList([name] + ListTokens(ps) + [";"] + rest) == Some(((name, ps), rest))
  {
    var afterList := [";"] + rest;
    var afterName := ListTokens(ps) + afterList;
    var toks := [name] + ListTokens(ps) + [";"] + rest;
    assert toks == [name] + afterName;
    assert ParseIdentifier(toks) == Some((name, afterName));
    ListRoundTrip(ps, afterList);
    assert Expect(afterList, ";") == Some(rest);
  }

  /** The printed species declaration: the optional flag, the keyword, then
      what the shared name-and-list production reads. */
  lemma SpeciesTokens(s: Stmt, rest: seq<Token>)
    requires s.SpeciesStmt?
    ensures StmtTokens(s) + rest
            == (if s.buffered then ["buffered"] else []) + (["species"] + ([s.name] + ListTokens(s.params) + [";"] + rest))
  {
    var flag: seq<Token> := if s.buffered then ["buffered"] else [];
    assert StmtTokens(s) == flag + ["species", s.name] + ListTokens(s.params) + [";"];
    DeclarationRegrouped(flag, "species", s.name, ListTokens(s.params), rest);
  }

  /** A declaration's tokens, followed by `rest`, regrouped from the right. */
  lemma DeclarationRegrouped(flag: seq<Token>, keyword: Token, name: Token, list: seq<Token>, rest: seq<Token>)
    ensures flag + [keyword, name] + list + [";"] + rest == flag + ([keyword] + ([name] + list + [";"] + rest))
  {
    AppendAssociative(flag, [keyword, name], list);
    AppendAssociative(flag + [keyword, name], list, [";"]);
    AppendAssociative(flag, [keyword, name] + list, [";"]);
    AppendAssociative(flag, [keyword, name] + list + [";"], rest);
    assert [keyword, name] + list + [";"] + rest == [keyword] + ([name] + list + [";"] + rest);
  }

  lemma SpeciesRoundTrip(s: Stmt, rest: seq<Token>)
    requires s.SpeciesStmt? && PrintableStmt(s)
    ensures ParseSpecies(StmtTokens(s) + rest) == Some((s, rest))
  {
    var afterKeyword := [s.name] + ListTokens(s.params) + [";"] + rest;
    var afterFlag := ["species"] + afterKeyword;
    var toks := StmtTokens(s) + rest;
    assert |toks| > 0 && (toks[0] == "buffered") == s.buffered
           && (if s.buffered then toks[1..] else toks) == afterFlag by {
      SpeciesTokens(s, rest);
      if s.buffered {
        assert toks[1..] == afterFlag;
      }
    }
    assert afterFlag[0] in SpeciesKeywords && afterFlag[1..] == afterKeyword;
    assert ParseNamedList(afterKeyword) == Some(((s.name, s.params), rest)) by {
      NamedListRoundTrip(s.name, s.params, rest);
    }
  }

  lemma ReactionDeclRoundTrip(name: string, ps: seq<Pair>, rest: seq<Token>)
    requires IsIdentifier(name) && PrintablePairs(ps)
    ensures ParseReactionDecl(["reaction", name] + ListTokens(ps) + [";"] + rest)
            == Some((ReactionDeclStmt(name, ps), rest))
  {
    var afterKeyword := [name] + ListTokens(ps) + [";"] + rest;
    var toks := ["reaction", name] + ListTokens(ps) + [";"] + rest;
    assert toks == ["reaction"] + afterKeyword;
    assert toks[1..] == afterKeyword;
    assert toks[0] in ReactionKeywords;
    NamedListRoundTrip(name, ps, rest);
  }

  lemma RefRoundTrip(rate: ReactionRef, rest: seq<Token>)
    requires match rate
             case ByName(name) => IsIdentifier(name)
             case Inline(params) => PrintablePairs(params)
    ensures ParseReactionRef(RefTokens(rate) + rest) == Some((rate, rest))
  {
    match rate
    case ByName(name) =>
      assert ([name] + rest)[1..] == rest;
    case Inline(params) =>
      assert !IsIdentifier("[");
      ListRoundTrip(params, rest);
  }

  lemma ReactionTailRoundTrip(rate: ReactionRef, products: seq<Term>, rest: seq<Token>)
    requires match rate
             case ByName(name) => IsIdentifier(name)
             case Inline(params) => PrintablePairs(params)
    requires PrintableTerms(products)
    ensures ParseReactionTail(["<-"] + (RefTokens(rate) + (["->"] + (TermsTokens(products) + ([";"] + rest)))))
            == Some(((rate, products), rest))
  {
    var afterProducts := [";"] + rest;
    var afterRight := TermsTokens(products) + afterProducts;
    var afterRef := ["->"] + afterRight;
    var afterLeft := RefTokens(rate) + afterRef;
    var toks := ["<-"] + afterLeft;
    assert Expect(toks, "<-") == Some(afterLeft);
    RefRoundTrip(rate, afterRef);
    assert Expect(afterRef, "->") == Some(afterRight);
    TermsRoundTrip(products, afterProducts);
    assert Expect(afterProducts, ";") == Some(rest);
  }

  /** The printed reaction, regrouped from the right. */
  lemma ReactionTokens(substrates: seq<Term>, rate: ReactionRef, products: seq<Term>, rest: seq<Token>)
    ensures StmtTokens(ReactionStmt(substrates, rate, products)) + rest
            == TermsTokens(substrates) + (["<-"] + (RefTokens(rate) + (["->"] + (TermsTokens(products) + ([";"] + rest)))))
  {
    var a := TermsTokens(substrates);
    var r := RefTokens(rate);
    var p := TermsTokens(products);
    var t5 := [";"] + rest;
    var t4 := p + t5;
    var t3 := ["->"] + t4;
    var t2 := r + t3;
    var t1 := ["<-"] + t2;
    assert a + ["<-"] + r + ["->"] + p + [";"] + rest == a + ["<-"] + r + ["->"] + p + t5 by {
      AppendAssociative(a + ["<-"] + r + ["->"] + p, [";"], rest);
    }
    assert a + ["<-"] + r + ["->"] + p + t5 == a + ["<-"] + r + ["->"] + t4 by {
      AppendAssociative(a + ["<-"] + r + ["->"], p, t5);
    }
    assert a + ["<-"] + r + ["->"] + t4 == a + ["<-"] + r + t3 by {
      AppendAssociative(a + ["<-"] + r, ["->"], t4);
    }
    assert a + ["<-"] + r + t3 == a + ["<-"] + t2 by {
      AppendAssociative(a + ["<-"], r, t3);
    }
    assert a + ["<-"] + t2 == a + t1 by {
      AppendAssociative(a, ["<-"], t2);
    }
  }

  lemma ReactionRoundTrip(substrates: seq<Term>, rate: ReactionRef, products: seq<Term>, rest: seq<Token>)
    requires PrintableStmt(ReactionStmt(substrates, rate, products))
    ensures ParseReaction(StmtTokens(ReactionStmt(substrates, rate, products)) + rest)
            == Some((ReactionStmt(substrates, rate, products), rest))
  {
    var afterSubstrates := ["<-"] + (RefTokens(rate) + (["->"] + (TermsTokens(products) + ([";"] + rest))));
    ReactionTokens(substrates, rate, products, rest);
    TermsRoundTrip(substrates, afterSubstrates);
    ReactionTailRoundTrip(rate, products, rest);
  }

  lemma VariableRoundTrip(s: Stmt, rest: seq<Token>)
    requires s.VariableStmt? && PrintableStmt(s)
    ensures ParseVariable(StmtTokens(s) + rest) == Some((s, rest))
  {
    var afterPair := [";"] + rest;
    var toks := StmtTokens(s) + rest;
    assert toks == [s.qualifier] + (PairTokens(s.pair) + afterPair) by {
      assert StmtTokens(s) == [s.qualifier] + PairTokens(s.pair) + [";"];
      AppendAssociative([s.qualifier] + PairTokens(s.pair), [";"], rest);
      AppendAssociative([s.qualifier], PairTokens(s.pair), afterPair);
    }
    assert toks[1..] == PairTokens(s.pair) + afterPair;
    assert ParsePair(toks[1..]) == Some((s.pair, afterPair)) by {
      PairRoundTrip(s.pair, afterPair);
    }
    assert Expect(afterPair, ";") == Some(rest);
  }

  lemma RecipeInstanceRoundTrip(s: Stmt, rest: seq<Token>)
    requires s.RecipeInstanceStmt? && PrintableStmt(s)
    ensures ParseRecipeInstance(StmtTokens(s) + rest) == Some((s, rest))
  {
    var toks := StmtTokens(s) + rest;
    assert toks == [s.recipe, s.name, ";"] + rest;
    assert toks[1..] == [s.name, ";"] + rest;
    assert toks[1..][1..] == [";"] + rest;
    assert ([";"] + rest)[1..] == rest;
  }

  /** A token that is no keyword makes the species and reaction-declaration
      alternatives fail. */
  lemma KeywordAlternativesFail(toks: seq<Token>)
    requires |toks| > 0 && toks[0] !in Reserved
    ensures ParseSpecies(toks) == None && ParseReactionDecl(toks) == None
  {
  }

  lemma SpeciesStmtRoundTrip(s: Stmt, rest: seq<Token>)
    requires s.SpeciesStmt? && PrintableStmt(s)
    ensures ParseStmt(StmtTokens(s) + rest) == Some((s, rest))
  {
    SpeciesRoundTrip(s, rest);
  }

  lemma ReactionDeclStmtRoundTrip(s: Stmt, rest: seq<Token>)
    requires s.ReactionDeclStmt? && PrintableStmt(s)
    ensures ParseStmt(StmtTokens(s) + rest) == Some((s, rest))
  {
    var toks := StmtTokens(s) + rest;
    assert toks[0] == "reaction";
    assert ParseSpecies(toks) == None;
    ReactionDeclRoundTrip(s.name, s.params, rest);
  }

  lemma ReactionStmtRoundTrip(s: Stmt, rest: seq<Token>)
    requires s.ReactionStmt? && PrintableStmt(s)
    ensures ParseStmt(StmtTokens(s) + rest) == Some((s, rest))
  {
    var toks := StmtTokens(s) + rest;
    var c := s.substrates[0].coefficient;
    assert toks[0] == c;
    DigitsAreNotReserved(c);
    KeywordAlternativesFail(toks);
    ReactionRoundTrip(s.substrates, s.rate, s.products, rest);
  }

  lemma VariableStmtRoundTrip(s: Stmt, rest: seq<Token>)
    requires s.VariableStmt? && PrintableStmt(s)
    ensures ParseStmt(StmtTokens(s) + rest) == Some((s, rest))
  {
    var toks := StmtTokens(s) + rest;
    assert toks[0] == s.qualifier;
    assert !IsDigits(s.qualifier) by {
      if IsDigits(s.qualifier) { DigitsAreNotReserved(s.qualifier); }
    }
    assert ParseSpecies(toks) == None && ParseReactionDecl(toks) == None;
    assert ParseTerm(toks) == None;
    assert ParseReaction(toks) == None;
    VariableRoundTrip(s, rest);
  }

  lemma RecipeInstanceStmtRoundTrip(s: Stmt, rest: seq<Token>)
    requires s.RecipeInstanceStmt? && PrintableStmt(s)
    ensures ParseStmt(StmtTokens(s) + rest) == Some((s, rest))
  {
    var toks := StmtTokens(s) + rest;
    var tail := [s.name, ";"] + rest;
    assert toks == [s.recipe] + tail;
    KeywordAlternativesFail(toks);
    assert !IsDigits(s.recipe);
    assert ParseTerm(toks) == Some((Term("1", s.recipe), tail));
    assert s.name != "+" && s.name != "<-" && s.name != "=";
    assert ParseTerms(toks) == Some(([Term("1", s.recipe)], tail));
    assert ParseReaction(toks) == None;
    assert ParsePair(toks) == None;
    assert ParseVariable(toks) == None;
    RecipeInstanceRoundTrip(s, rest);
  }

  /** Each printed statement is read back by the alternative it was printed
      from: every alternative tried before it fails on it. */
  lemma StmtRoundTrip(s: Stmt, rest: seq<Token>)
    requires PrintableStmt(s)
    ensures ParseStmt(StmtTokens(s) + rest) == Some((s, rest))
  {
    match s
    case SpeciesStmt(_, _, _) =>
      SpeciesStmtRoundTrip(s, rest);
    case ReactionDeclStmt(_, _) =>
      ReactionDeclStmtRoundTrip(s, rest);
    case ReactionStmt(_, _, _) =>
      ReactionStmtRoundTrip(s, rest);
    case VariableStmt(_, _) =>
      VariableStmtRoundTrip(s, rest);
    case RecipeInstanceStmt(_, _) =>
      RecipeInstanceStmtRoundTrip(s, rest);
  }

  lemma EndIsNoName()
    ensures "end" in Reserved && !IsDigits("end") && !IsIdentifier("end")
  {
    assert "end"[0] == 'e';
  }

  lemma EndIsNoDeclaration(rest: seq<Token>)
    ensures ParseSpecies(["end"] + rest) == None && ParseReactionDecl(["end"] + rest) == None
  {
    var toks := ["end"] + rest;
    assert toks[0] == "end";
  }

  lemma EndIsNoReaction(rest: seq<Token>)
    ensures ParseReaction(["end"] + rest) == None
  {
    EndIsNoName();
    var toks := ["end"] + rest;
    assert toks[0] == "end";
    assert ParseTerm(toks) == None;
    assert ParseTerms(toks) == None;
  }

  lemma EndIsNoVariable(rest: seq<Token>)
    ensures ParseVariable(["end"] + rest) == None && ParseRecipeInstance(["end"] + rest) == None
  {
    EndIsNoName();
    var toks := ["end"] + rest;
    assert toks[0] == "end";
    assert ParsePair(toks) == None;
    assert ParseIdentifier(toks) == None;
  }

  /** No statement starts with `end`: a body stops in front of it. */
  lemma StmtRejectsEnd(rest: seq<Token>)
    ensures ParseStmt(["end"] + rest) == None
  {
    EndIsNoDeclaration(rest);
    EndIsNoReaction(rest);
    EndIsNoVariable(rest);
  }

  lemma BodyTokensCons(body: seq<Stmt>, rest: seq<Token>)
    requires body != []
    ensures BodyTokens(body) + rest == StmtTokens(body[0]) + (BodyTokens(body[1..]) + rest)
  {
    AppendAssociative(StmtTokens(body[0]), BodyTokens(body[1..]), rest);
  }

  lemma ManyStmtsCons(xs: seq<Stmt>, toks: seq<Token>, tail: seq<Token>, rest: seq<Token>)
    requires xs != [] && ParseStmt(toks) == Some((xs[0], tail)) && ManyStmts(tail) == (xs[1..], rest)
    ensures ManyStmts(toks) == (xs, rest)
  {
    ManyStmtsUnfold(toks, xs[0], tail);
    HeadTail(xs);
  }

  lemma HeadTail<T>(xs: seq<T>)
    requires xs != []
    ensures [xs[0]] + xs[1..] == xs
  {
  }

  lemma ManyStmtsUnfold(toks: seq<Token>, first: Stmt, tail: seq<Token>)
    requires ParseStmt(toks) == Some((first, tail))
    ensures ManyStmts(toks) == ([first] + ManyStmts(tail).0, ManyStmts(tail).1)
  {
  }

  lemma StmtTailPrintable(xs: seq<Stmt>)
    requires xs != [] && forall i :: 0 <= i < |xs| ==> PrintableStmt(xs[i])
    ensures forall i :: 0 <= i < |xs[1..]| ==> PrintableStmt(xs[1..][i])
  {
    forall i | 0 <= i < |xs[1..]| ensures PrintableStmt(xs[1..][i]) {
      assert xs[1..][i] == xs[i + 1];
    }
  }

  lemma {:induction false} ManyStmtsRoundTrip(body: seq<Stmt>, rest: seq<Token>)
    requires forall i :: 0 <= i < |body| ==> PrintableStmt(body[i])
    requires ParseStmt(rest) == None
    ensures ManyStmts(BodyTokens(body) + rest) == (body, rest)
    decreases |body|
  {
    if body == [] {
      assert BodyTokens(body) + rest == rest;
    } else {
      var tail := BodyTokens(body[1..]) + rest;
      BodyTokensCons(body, rest);
      StmtRoundTrip(body[0], tail);
      StmtTailPrintable(body);
      ManyStmtsRoundTrip(body[1..], rest);
      ManyStmtsCons(body, BodyTokens(body) + rest, tail, rest);
    }
  }

  lemma BodyRoundTrip(body: seq<Stmt>, rest: seq<Token>)
    requires PrintableBody(body)
    ensures ParseBody(BodyTokens(body) + ["end"] + rest) == Some((body, ["end"] + rest))
  {
    var toks := BodyTokens(body) + ["end"] + rest;
    assert toks == BodyTokens(body) + (["end"] + rest) by {
      AppendAssociative(BodyTokens(body), ["end"], rest);
    }
    assert ManyStmts(toks) == (body, ["end"] + rest) by {
      StmtRejectsEnd(rest);
      ManyStmtsRoundTrip(body, ["end"] + rest);
    }
  }

  // ---------------------------------------------------------------------
  // Recipes and compartments

  /** Three leading tokens split off one at a time. */
  lemma ThreeTokensRegrouped(a: Token, b: Token, c: Token, more: seq<Token>)
    ensures [a, b, c] + more == [a] + ([b] + ([c] + more))
  {
    assert [a, b, c] == [a] + ([b] + [c]);
    AppendAssociative([b], [c], more);
    AppendAssociative([a], [b] + [c], more);
  }

  /** A recipe read from its parts: the keyword, a name, `is`, then a body
      closed by `end`. */
  lemma RecipeFromParts(name: string, afterIs: seq<Token>, body: seq<Stmt>, rest: seq<Token>)
    requires IsIdentifier(name) && ParseBody(afterIs) == Some((body, ["end"] + rest))
    ensures ParseRecipe(["recipe"] + ([name] + (["is"] + afterIs))) == Some((RecipeBlock(name, body), rest))
  {
    var afterName := ["is"] + afterIs;
    var afterKeyword := [name] + afterName;
    assert Expect(["recipe"] + afterKeyword, "recipe") == Some(afterKeyword);
    assert ParseIdentifier(afterKeyword) == Some((name, afterName));
    assert Expect(afterName, "is") == Some(afterIs);
    assert Expect(["end"] + rest, "end") == Some(rest);
  }

  lemma RecipeRoundTrip(name: string, body: seq<Stmt>, rest: seq<Token>)
    requires IsIdentifier(name) && PrintableBody(body)
    ensures ParseRecipe(["recipe", name, "is"] + (BodyTokens(body) + ["end"] + rest))
            == Some((RecipeBlock(name, body), rest))
  {
    BodyRoundTrip(body, rest);
    RecipeFromParts(name, BodyTokens(body) + ["end"] + rest, body, rest);
    ThreeTokensRegrouped("recipe", name, "is", BodyTokens(body) + ["end"] + rest);
  }

  /** With the optional list omitted the geometry has no parameters: the
      `has` that follows is not the opening bracket of a list. */
  lemma GeometryRoundTrip(geometry: string, params: seq<Pair>, rest: seq<Token>)
    requires geometry in GeometryKeywords && PrintableOptionalPairs(params)
    requires |rest| > 0 && rest[0] == "has"
    ensures ParseGeometry([geometry] + (OptionalListTokens(params) + rest)) == Some(((geometry, params), rest))
  {
    var toks := [geometry] + (OptionalListTokens(params) + rest);
    assert toks[1..] == OptionalListTokens(params) + rest;
    if params == [] {
      assert toks[1..] == rest;
      assert Expect(rest, "[") == None;
    } else {
      ListRoundTrip(params, rest);
    }
  }

  lemma CompartmentTailRoundTrip(body: seq<Stmt>, rest: seq<Token>)
    requires PrintableBody(body)
    ensures ParseCompartmentTail(["has"] + (BodyTokens(body) + ["end"] + rest)) == Some((body, rest))
  {
    var afterHas := BodyTokens(body) + ["end"] + rest;
    assert Expect(["has"] + afterHas, "has") == Some(afterHas);
    BodyRoundTrip(body, rest);
    assert Expect(["end"] + rest, "end") == Some(rest);
  }

  /** A compartment block is its header followed by what the geometry and
      the tail read. */
  lemma CompartmentFromParts(name: string, afterIs: seq<Token>, geometry: (string, seq<Pair>),
                             afterGeometry: seq<Token>, body: seq<Stmt>, rest: seq<Token>)
    requires IsIdentifier(name)
    requires ParseGeometry(afterIs) == Some((geometry, afterGeometry))
    requires ParseCompartmentTail(afterGeometry) == Some((body, rest))
    ensures ParseCompartment(["compartment", name, "is"] + afterIs)
            == Some((CompartmentBlock(name, geometry.0, geometry.1, body), rest))
  {
    var afterName := ["is"] + afterIs;
    var toks := ["compartment", name, "is"] + afterIs;
    ThreeTokensRegrouped("compartment", name, "is", afterIs);
    assert Expect(toks, "compartment") == Some([name] + afterName);
    assert ParseIdentifier([name] + afterName) == Some((name, afterName));
    assert Expect(afterName, "is") == Some(afterIs);
  }

  lemma CompartmentRoundTrip(name: string, geometry: string, params: seq<Pair>, body: seq<Stmt>, rest: seq<Token>)
    requires IsIdentifier(name) && geometry in GeometryKeywords
    requires PrintableOptionalPairs(params) && PrintableBody(body)
    ensures ParseCompartment(["compartment", name, "is"]
                             + ([geometry] + (OptionalListTokens(params) + (["has"] + (BodyTokens(body) + ["end"] + rest)))))
            == Some((CompartmentBlock(name, geometry, params, body), rest))
  {
    var afterGeometry := ["has"] + (BodyTokens(body) + ["end"] + rest);
    GeometryRoundTrip(geometry, params, afterGeometry);
    CompartmentTailRoundTrip(body, rest);
    CompartmentFromParts(name, [geometry] + (OptionalListTokens(params) + afterGeometry),
                         (geometry, params), afterGeometry, body, rest);
  }

  /** The printed recipe, followed by `rest`, regrouped from the right. */
  lemma RecipeTokensRegrouped(name: string, body: seq<Stmt>, rest: seq<Token>)
    ensures BlockTokens(RecipeBlock(name, body)) + rest
            == ["recipe", name, "is"] + (BodyTokens(body) + ["end"] + rest)
  {
    AppendAssociative(["recipe", name, "is"], BodyTokens(body) + ["end"], rest);
  }

  /** The printed compartment, followed by `rest`, regrouped from the right. */
  lemma CompartmentTokensRegrouped(name: string, geometry: string, params: seq<Pair>, body: seq<Stmt>, rest: seq<Token>)
    ensures BlockTokens(CompartmentBlock(name, geometry, params, body)) + rest
            == ["compartment", name, "is"]
               + ([geometry] + (OptionalListTokens(params) + (["has"] + (BodyTokens(body) + ["end"] + rest))))
  {
    var closing := BodyTokens(body) + ["end"];
    var afterGeometry := ["has"] + closing;
    var afterIs := OptionalListTokens(params) + afterGeometry;
    AppendAssociative(["compartment", name, "is"], [geometry] + afterIs, rest);
    AppendAssociative([geometry], afterIs, rest);
    AppendAssociative(OptionalListTokens(params), afterGeometry, rest);
    AppendAssociative(["has"], closing, rest);
  }

  /** Each printed block is read back by the alternative it was printed from. */
  lemma BlockRoundTrip(b: Block, rest: seq<Token>)
    requires PrintableBlock(b)
    ensures ParseBlock(BlockTokens(b) + rest) == Some((b, rest))
  {
    match b
    case RecipeBlock(name, body) =>
      RecipeTokensRegrouped(name, body, rest);
      RecipeRoundTrip(name, body, rest);
    case CompartmentBlock(name, geometry, params, body) =>
      CompartmentTokensRegrouped(name, geometry, params, body, rest);
      var toks := BlockTokens(b) + rest;
      assert toks[0] == "compartment";
      assert ParseRecipe(toks) == None;
      CompartmentRoundTrip(name, geometry, params, body, rest);
  }

  /** No block starts with a model keyword: the blocks stop in front of the model. */
  lemma BlockRejectsModel(rest: seq<Token>)
    requires |rest| > 0 && rest[0] in ModelKeywords
    ensures ParseBlock(rest) == None
  {
    assert Expect(rest, "recipe") == None;
    assert Expect(rest, "compartment") == None;
  }

  lemma BlocksTokensCons(bs: seq<Block>, rest: seq<Token>)
    requires bs != []
    ensures BlocksTokens(bs) + rest == BlockTokens(bs[0]) + (BlocksTokens(bs[1..]) + rest)
  {
    AppendAssociative(BlockTokens(bs[0]), BlocksTokens(bs[1..]), rest);
  }

  lemma ManyBlocksCons(xs: seq<Block>, toks: seq<Token>, tail: seq<Token>, rest: seq<Token>)
    requires xs != [] && ParseBlock(toks) == Some((xs[0], tail)) && ManyBlocks(tail) == (xs[1..], rest)
    ensures ManyBlocks(toks) == (xs, rest)
  {
    ManyBlocksUnfold(toks, xs[0], tail);
    HeadTail(xs);
  }

  lemma ManyBlocksUnfold(toks: seq<Token>, first: Block, tail: seq<Token>)
    requires ParseBlock(toks) == Some((first, tail))
    ensures ManyBlocks(toks) == ([first] + ManyBlocks(tail).0, ManyBlocks(tail).1)
  {
  }

  lemma BlockTailPrintable(xs: seq<Block>)
    requires xs != [] && forall i :: 0 <= i < |xs| ==> PrintableBlock(xs[i])
    ensures forall i :: 0 <= i < |xs[1..]| ==> PrintableBlock(xs[1..][i])
  {
    forall i | 0 <= i < |xs[1..]| ensures PrintableBlock(xs[1..][i]) {
      assert xs[1..][i] == xs[i + 1];
    }
  }

  lemma {:induction false} ManyBlocksRoundTrip(bs: seq<Block>, rest: seq<Token>)
    requires forall i :: 0 <= i < |bs| ==> PrintableBlock(bs[i])
    requires ParseBlock(rest) == None
    ensures ManyBlocks(BlocksTokens(bs) + rest) == (bs, rest)
    decreases |bs|
  {
    if bs == [] {
      assert BlocksTokens(bs) + rest == rest;
    } else {
      var tail := BlocksTokens(bs[1..]) + rest;
      BlocksTokensCons(bs, rest);
      BlockRoundTrip(bs[0], tail);
      BlockTailPrintable(bs);
      ManyBlocksRoundTrip(bs[1..], rest);
      ManyBlocksCons(bs, BlocksTokens(bs) + rest, tail, rest);
    }
  }

  // ---------------------------------------------------------------------
  // The model

  lemma CompartmentInstanceRoundTrip(compartment: string, name: string, rest: seq<Token>)
    requires IsIdentifier(compartment) && IsIdentifier(name)
    ensures ParseModelStmt([compartment, name, ";"] + rest)
            == Some((CompartmentInstanceStmt(compartment, name), rest))
  {
    var toks := [compartment, name, ";"] + rest;
    assert toks[1..] == [name, ";"] + rest;
    assert toks[1..][1..] == [";"] + rest;
    assert ([";"] + rest)[1..] == rest;
  }

  /** With the optional list omitted the simulator has no parameters. */
  lemma SimulatorRoundTrip(name: string, params: seq<Pair>, rest: seq<Token>)
    requires IsIdentifier(name) && PrintableOptionalPairs(params)
    ensures ParseSimulator(["simulator", name] + (OptionalListTokens(params) + ([";"] + rest)))
            == Some((SimulatorStmt(name, params), rest))
  {
    var afterName := OptionalListTokens(params) + ([";"] + rest);
    var toks := ["simulator", name] + afterName;
    assert toks == ["simulator"] + ([name] + afterName);
    assert Expect(toks, "simulator") == Some([name] + afterName);
    assert ParseIdentifier([name] + afterName) == Some((name, afterName));
    if params == [] {
      assert afterName == [";"] + rest;
      assert Expect(afterName, "[") == None;
    } else {
      ListRoundTrip(params, [";"] + rest);
    }
    assert Expect([";"] + rest, ";") == Some(rest);
  }

  /** `simulator` is a reserved word, so a simulator statement is never read
      as a compartment instance. */
  lemma ModelStmtRoundTrip(s: ModelStmt, rest: seq<Token>)
    requires PrintableModelStmt(s)
    ensures ParseModelStmt(ModelStmtTokens(s) + rest) == Some((s, rest))
  {
    match s
    case CompartmentInstanceStmt(compartment, name) =>
      assert ModelStmtTokens(s) + rest == [compartment, name, ";"] + rest;
      CompartmentInstanceRoundTrip(compartment, name, rest);
    case SimulatorStmt(name, params) =>
      var toks := ModelStmtTokens(s) + rest;
      assert toks == ["simulator", name] + (OptionalListTokens(params) + ([";"] + rest)) by {
        AppendAssociative(["simulator", name] + OptionalListTokens(params), [";"], rest);
        AppendAssociative(["simulator", name], OptionalListTokens(params), [";"] + rest);
      }
      assert ParseCompartmentInstance(toks) == None by {
        assert toks[0] == "simulator" && "simulator" in Reserved;
        assert ParseIdentifier(toks) == None;
      }
      SimulatorRoundTrip(name, params, rest);
  }

  lemma ModelStmtRejectsEnd(rest: seq<Token>)
    ensures ParseModelStmt(["end"] + rest) == None
  {
    EndIsNoName();
    var toks := ["end"] + rest;
    assert toks[0] == "end";
    assert ParseIdentifier(toks) == None;
    assert Expect(toks, "simulator") == None;
  }

  lemma ModelStmtsTokensCons(ss: seq<ModelStmt>, rest: seq<Token>)
    requires ss != []
    ensures ModelStmtsTokens(ss) + rest == ModelStmtTokens(ss[0]) + (ModelStmtsTokens(ss[1..]) + rest)
  {
    AppendAssociative(ModelStmtTokens(ss[0]), ModelStmtsTokens(ss[1..]), rest);
  }

  lemma ManyModelStmtsCons(xs: seq<ModelStmt>, toks: seq<Token>, tail: seq<Token>, rest: seq<Token>)
    requires xs != [] && ParseModelStmt(toks) == Some((xs[0], tail)) && ManyModelStmts(tail) == (xs[1..], rest)
    ensures ManyModelStmts(toks) == (xs, rest)
  {
    ManyModelStmtsUnfold(toks, xs[0], tail);
    HeadTail(xs);
  }

  lemma ManyModelStmtsUnfold(toks: seq<Token>, first: ModelStmt, tail: seq<Token>)
    requires ParseModelStmt(toks) == Some((first, tail))
    ensures ManyModelStmts(toks) == ([first] + ManyModelStmts(tail).0, ManyModelStmts(tail).1)
  {
  }

  lemma ModelStmtTailPrintable(xs: seq<ModelStmt>)
    requires xs != [] && forall i :: 0 <= i < |xs| ==> PrintableModelStmt(xs[i])
    ensures forall i :: 0 <= i < |xs[1..]| ==> PrintableModelStmt(xs[1..][i])
  {
    forall i | 0 <= i < |xs[1..]| ensures PrintableModelStmt(xs[1..][i]) {
      assert xs[1..][i] == xs[i + 1];
    }
  }

  lemma {:induction false} ManyModelStmtsRoundTrip(ss: seq<ModelStmt>, rest: seq<Token>)
    requires forall i :: 0 <= i < |ss| ==> PrintableModelStmt(ss[i])
    requires ParseModelStmt(rest) == None
    ensures ManyModelStmts(ModelStmtsTokens(ss) + rest) == (ss, rest)
    decreases |ss|
  {
    if ss == [] {
      assert ModelStmtsTokens(ss) + rest == rest;
    } else {
      var tail := ModelStmtsTokens(ss[1..]) + rest;
      ModelStmtsTokensCons(ss, rest);
      ModelStmtRoundTrip(ss[0], tail);
      ModelStmtTailPrintable(ss);
      ManyModelStmtsRoundTrip(ss[1..], rest);
      ManyModelStmtsCons(ss, ModelStmtsTokens(ss) + rest, tail, rest);
    }
  }

  /** The printed model, followed by `rest`, regrouped from the right. */
  lemma ModelTokensRegrouped(m: Model, rest: seq<Token>)
    ensures ModelTokens(m) + rest
            == ["model"] + ([m.name] + (["has"] + (ModelStmtsTokens(m.stmts) + (["end"] + rest))))
  {
    var stmts := ModelStmtsTokens(m.stmts);
    AppendAssociative(["model", m.name, "has"] + stmts, ["end"], rest);
    AppendAssociative(["model", m.name, "has"], stmts, ["end"] + rest);
    ThreeTokensRegrouped("model", m.name, "has", stmts + (["end"] + rest));
  }

  lemma ModelRoundTrip(m: Model, rest: seq<Token>)
    requires PrintableModel(m)
    ensures ParseModel(ModelTokens(m) + rest) == Some((m, rest))
  {
    var afterStmts := ["end"] + rest;
    var afterHas := ModelStmtsTokens(m.stmts) + afterStmts;
    var afterName := ["has"] + afterHas;
    var toks := ModelTokens(m) + rest;
    assert toks == ["model"] + ([m.name] + afterName) by {
      ModelTokensRegrouped(m, rest);
    }
    assert toks[1..] == [m.name] + afterName;
    assert ParseIdentifier(toks[1..]) == Some((m.name, afterName));
    assert Expect(afterName, "has") == Some(afterHas);
    assert ManyModelStmts(afterHas) == (m.stmts, afterStmts) by {
      ModelStmtRejectsEnd(rest);
      ManyModelStmtsRoundTrip(m.stmts, afterStmts);
    }
    assert Expect(afterStmts, "end") == Some(rest);
  }

  // ---------------------------------------------------------------------
  // The document

  /** Every well-formed document, printed and parsed back, is itself; the
      tokens after the model are left over untouched. */
  lemma DocumentRoundTrip(d: Document, rest: seq<Token>)
    requires PrintableDocument(d)
    ensures ParseDocument(DocumentTokens(d) + rest) == Some((d, rest))
  {
    var afterBlocks := ModelTokens(d.model) + rest;
    AppendAssociative(BlocksTokens(d.blocks), ModelTokens(d.model), rest);
    assert afterBlocks[0] == "model";
    BlockRejectsModel(afterBlocks);
    ManyBlocksRoundTrip(d.blocks, afterBlocks);
    assert ParseBlocks(DocumentTokens(d) + rest) == Some((d.blocks, afterBlocks));
    ModelRoundTrip(d.model, rest);
  }
}
