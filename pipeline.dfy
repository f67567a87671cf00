/** The whole front end on printed input: for every well-formed document,
    the printed tokens, with or without comments among them, parse to the
    document whose children are the elements its blocks and its model build.
    The printer writes no comment, so nothing of what it writes is dropped. */
module Pipeline {
  import opened Lexical
  import opened Grammar
  import opened Printer
  import opened RoundTrip
  import opened Actions
  import opened DocumentModel

  predicate CommentFree(toks: seq<Token>) {
    forall i :: 0 <= i < |toks| ==> !IsComment(toks[i])
  }

  lemma CommentFreeAppend(a: seq<Token>, b: seq<Token>)
    requires CommentFree(a) && CommentFree(b)
    ensures CommentFree(a + b)
  {
    forall i | 0 <= i < |a + b| ensures !IsComment((a + b)[i]) {
      if i >= |a| {
        assert (a + b)[i] == b[i - |a|];
      }
    }
  }

  /** A token whose first character is not `/` is no comment. */
  lemma NoSlashNoComment(t: Token)
    requires |t| > 0 && t[0] != '/'
    ensures !IsComment(t)
  {
    if |t| >= 2 {
      assert t[..2][0] == t[0];
    }
  }

  lemma NameIsNoComment(t: Token)
    requires IsIdentifierShape(t) || IsDigits(t)
    ensures !IsComment(t)
  {
    NoSlashNoComment(t);
  }

  lemma ValueTokenIsNoComment(v: string)
    requires PrintableValue(v)
    ensures !IsComment(ValueToken(v))
  {
    if IsNumber(v) {
      NumberFirstChar(v);
      NoSlashNoComment(v);
    } else if IsIdentifier(v) {
      NoSlashNoComment(v);
    } else {
      var q := "\"" + v + "\"";
      assert q[0] == '"';
      NoSlashNoComment(q);
    }
  }

  lemma PairTokensFree(p: Pair)
    requires PrintablePair(p)
    ensures CommentFree(PairTokens(p))
  {
    NameIsNoComment(p.key);
    ValueTokenIsNoComment(p.value);
    NoSlashNoComment("=");
  }

  lemma {:induction false} PairsTokensFree(ps: seq<Pair>)
    requires forall i :: 0 <= i < |ps| ==> PrintablePair(ps[i])
    ensures CommentFree(PairsTokens(ps))
    decreases |ps|
  {
    if |ps| == 1 {
      PairTokensFree(ps[0]);
    } else if |ps| > 1 {
      PairTokensFree(ps[0]);
      PairsTokensFree(ps[1..]);
      NoSlashNoComment(",");
      CommentFreeAppend(PairTokens(ps[0]), [","]);
      CommentFreeAppend(PairTokens(ps[0]) + [","], PairsTokens(ps[1..]));
    }
  }

  lemma OptionalListTokensFree(ps: seq<Pair>)
    requires forall i :: 0 <= i < |ps| ==> PrintablePair(ps[i])
    ensures CommentFree(ListTokens(ps)) && CommentFree(OptionalListTokens(ps))
  {
    PairsTokensFree(ps);
    NoSlashNoComment("[");
    NoSlashNoComment("]");
    CommentFreeAppend(["["], PairsTokens(ps));
    CommentFreeAppend(["["] + PairsTokens(ps), ["]"]);
  }

  lemma {:induction false} TermsTokensFree(ts: seq<Term>)
    requires forall i :: 0 <= i < |ts| ==> WellFormedTerm(ts[i])
    ensures CommentFree(TermsTokens(ts))
    decreases |ts|
  {
    if |ts| > 0 {
      NameIsNoComment(ts[0].coefficient);
      NameIsNoComment(ts[0].species);
      if |ts| > 1 {
        TermsTokensFree(ts[1..]);
        NoSlashNoComment("+");
        CommentFreeAppend([ts[0].coefficient, ts[0].species, "+"], TermsTokens(ts[1..]));
      }
    }
  }

  lemma StmtTokensFree(s: Stmt)
    requires PrintableStmt(s)
    ensures CommentFree(StmtTokens(s))
  {
    NoSlashNoComment(";");
    match s
    case SpeciesStmt(buffered, name, params) =>
      var flag: seq<Token> := if buffered then ["buffered"] else [];
      NoSlashNoComment("buffered");
      NoSlashNoComment("species");
      NameIsNoComment(name);
      OptionalListTokensFree(params);
      CommentFreeAppend(flag, ["species", name]);
      CommentFreeAppend(flag + ["species", name], ListTokens(params));
      CommentFreeAppend(flag + ["species", name] + ListTokens(params), [";"]);
    case ReactionDeclStmt(name, params) =>
      NoSlashNoComment("reaction");
      NameIsNoComment(name);
      OptionalListTokensFree(params);
      CommentFreeAppend(["reaction", name], ListTokens(params));
      CommentFreeAppend(["reaction", name] + ListTokens(params), [";"]);
    case ReactionStmt(substrates, rate, products) =>
      TermsTokensFree(substrates);
      TermsTokensFree(products);
      match rate {
        case ByName(name) => NameIsNoComment(name);
        case Inline(params) => OptionalListTokensFree(params);
      }
      NoSlashNoComment("<-");
      NoSlashNoComment("->");
      var a := TermsTokens(substrates) + ["<-"];
      CommentFreeAppend(TermsTokens(substrates), ["<-"]);
      CommentFreeAppend(a, RefTokens(rate));
      CommentFreeAppend(a + RefTokens(rate), ["->"]);
      CommentFreeAppend(a + RefTokens(rate) + ["->"], TermsTokens(products));
      CommentFreeAppend(a + RefTokens(rate) + ["->"] + TermsTokens(products), [";"]);
    case VariableStmt(qualifier, pair) =>
      NoSlashNoComment(qualifier);
      PairTokensFree(pair);
      CommentFreeAppend([qualifier], PairTokens(pair));
      CommentFreeAppend([qualifier] + PairTokens(pair), [";"]);
    case RecipeInstanceStmt(recipe, name) =>
      NameIsNoComment(recipe);
      NameIsNoComment(name);
  }

  lemma {:induction false} BodyTokensFree(body: seq<Stmt>)
    requires forall i :: 0 <= i < |body| ==> PrintableStmt(body[i])
    ensures CommentFree(BodyTokens(body))
    decreases |body|
  {
    if body != [] {
      StmtTokensFree(body[0]);
      StmtTailPrintable(body);
      BodyTokensFree(body[1..]);
      CommentFreeAppend(StmtTokens(body[0]), BodyTokens(body[1..]));
    }
  }

  lemma BlockTokensFree(b: Block)
    requires PrintableBlock(b)
    ensures CommentFree(BlockTokens(b))
  {
    NameIsNoComment(b.name);
    BodyTokensFree(b.body);
    NoSlashNoComment("end");
    NoSlashNoComment("is");
    CommentFreeAppend(BodyTokens(b.body), ["end"]);
    match b
    case RecipeBlock(name, body) =>
      NoSlashNoComment("recipe");
      CommentFreeAppend(["recipe", name, "is"], BodyTokens(body) + ["end"]);
    case CompartmentBlock(name, geometry, params, body) =>
      NoSlashNoComment("compartment");
      NoSlashNoComment("has");
      NoSlashNoComment(geometry);
      OptionalListTokensFree(params);
      var closing := BodyTokens(body) + ["end"];
      CommentFreeAppend(["has"], closing);
      CommentFreeAppend(OptionalListTokens(params), ["has"] + closing);
      CommentFreeAppend([geometry], OptionalListTokens(params) + (["has"] + closing));
      CommentFreeAppend(["compartment", name, "is"], [geometry] + (OptionalListTokens(params) + (["has"] + closing)));
  }

  lemma {:induction false} BlocksTokensFree(bs: seq<Block>)
    requires forall i :: 0 <= i < |bs| ==> PrintableBlock(bs[i])
    ensures CommentFree(BlocksTokens(bs))
    decreases |bs|
  {
    if bs != [] {
      BlockTokensFree(bs[0]);
      BlockTailPrintable(bs);
      BlocksTokensFree(bs[1..]);
      CommentFreeAppend(BlockTokens(bs[0]), BlocksTokens(bs[1..]));
    }
  }

  lemma ModelStmtTokensFree(s: ModelStmt)
    requires PrintableModelStmt(s)
    ensures CommentFree(ModelStmtTokens(s))
  {
    NoSlashNoComment(";");
    match s
    case CompartmentInstanceStmt(compartment, name) =>
      NameIsNoComment(compartment);
      NameIsNoComment(name);
    case SimulatorStmt(name, params) =>
      NoSlashNoComment("simulator");
      NameIsNoComment(name);
      OptionalListTokensFree(params);
      CommentFreeAppend(["simulator", name], OptionalListTokens(params));
      CommentFreeAppend(["simulator", name] + OptionalListTokens(params), [";"]);
  }

  lemma {:induction false} ModelStmtsTokensFree(ss: seq<ModelStmt>)
    requires forall i :: 0 <= i < |ss| ==> PrintableModelStmt(ss[i])
    ensures CommentFree(ModelStmtsTokens(ss))
    decreases |ss|
  {
    if ss != [] {
      ModelStmtTokensFree(ss[0]);
      ModelStmtTailPrintable(ss);
      ModelStmtsTokensFree(ss[1..]);
      CommentFreeAppend(ModelStmtTokens(ss[0]), ModelStmtsTokens(ss[1..]));
    }
  }

  /** The printer writes no comment. */
  lemma DocumentTokensFree(d: Document)
    requires PrintableDocument(d)
    ensures CommentFree(DocumentTokens(d))
  {
    BlocksTokensFree(d.blocks);
    ModelStmtsTokensFree(d.model.stmts);
    NameIsNoComment(d.model.name);
    NoSlashNoComment("model");
    NoSlashNoComment("has");
    NoSlashNoComment("end");
    CommentFreeAppend(["model", d.model.name, "has"], ModelStmtsTokens(d.model.stmts));
    CommentFreeAppend(["model", d.model.name, "has"] + ModelStmtsTokens(d.model.stmts), ["end"]);
    CommentFreeAppend(BlocksTokens(d.blocks), ModelTokens(d.model));
  }

  /** The element a well-formed document becomes: its blocks' elements in
      order, then its model's. */
  function DocumentElement(d: Document): Element {
    Root(BlockElements(d.blocks) + [ModelOf(d.model)])
  }

  /** Every well-formed document, printed, parses to the element built from
      it: the front end loses nothing and adds nothing. */
  lemma PrintedDocumentParses(d: Document)
    requires PrintableDocument(d)
    ensures Parse(DocumentTokens(d)) == Some(DocumentElement(d))
  {
    var toks := DocumentTokens(d);
    DocumentTokensFree(d);
    StripCommentsNoComments(toks);
    DocumentRoundTrip(d, []);
    assert toks + [] == toks;
  }

  /** The same holds with comments anywhere in the printed tokens. */
  lemma CommentedDocumentParses(d: Document, a: seq<Token>, c: Token, b: seq<Token>)
    requires PrintableDocument(d) && IsComment(c) && a + b == DocumentTokens(d)
    ensures Parse(a + [c] + b) == Some(DocumentElement(d))
  {
    CommentsIgnored(a, c, b);
    PrintedDocumentParses(d);
  }
}
