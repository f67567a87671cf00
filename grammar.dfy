/** The productions of the YACML grammar (yparser/bnf.py), as recursive-descent
    functions over the token sequence.

    Every production returns `None` when it does not match, or the value it
    hands to its build action together with the tokens it did not consume.
    Ordered choice tries the alternatives in the grammar's order and keeps the
    first that matches; sequences do not backtrack into an earlier element;
    `Optional`, `OneOrMore` and `delimitedList` are greedy. Punctuation and the
    words `is` and `has` are suppressed, so they never reach a build action. */
module Grammar {
  import opened Lexical

  type Parsed<T> = Option<(T, seq<Token>)>

  /** `key = value` */
  datatype Pair = Pair(key: string, value: string)

  /** A stoichiometric term: coefficient (a digit string) and species. */
  datatype Term = Term(coefficient: string, species: string)

  /** What stands between `<-` and `->`: a declared reaction's name, or an
      inline parameter list. */
  datatype ReactionRef = ByName(name: string) | Inline(params: seq<Pair>)

  /** The statements of a recipe or compartment body. */
  datatype Stmt =
    | SpeciesStmt(buffered: bool, name: string, params: seq<Pair>)
    | ReactionDeclStmt(name: string, params: seq<Pair>)
    | ReactionStmt(substrates: seq<Term>, rate: ReactionRef, products: seq<Term>)
    | VariableStmt(qualifier: string, pair: Pair)
    | RecipeInstanceStmt(recipe: string, name: string)

  /** The top-level declarations that precede the model. `geometryParams` is
      empty when the optional list is omitted. */
  datatype Block =
    | RecipeBlock(name: string, body: seq<Stmt>)
    | CompartmentBlock(name: string, geometry: string, geometryParams: seq<Pair>, body: seq<Stmt>)

  /** The statements of a model. `params` is empty when the optional list is
      omitted. */
  datatype ModelStmt =
    | CompartmentInstanceStmt(compartment: string, name: string)
    | SimulatorStmt(name: string, params: seq<Pair>)

  datatype Model = Model(name: string, stmts: seq<ModelStmt>)

  datatype Document = Document(blocks: seq<Block>, model: Model)

  /** `rest` is what is left of `toks` after a non-empty prefix was consumed. */
  predicate Consumes(toks: seq<Token>, rest: seq<Token>) {
    |rest| < |toks| && rest == toks[|toks| - |rest|..]
  }

  predicate WellFormedPair(p: Pair) {
    IsIdentifier(p.key)
  }

  predicate WellFormedTerm(t: Term) {
    IsDigits(t.coefficient) && IsIdentifier(t.species)
  }

  // ---------------------------------------------------------------------
  // Single tokens

  function Expect(toks: seq<Token>, literal: string): (r: Option<seq<Token>>)
    ensures r.Some? ==> Consumes(toks, r.value)
  {
    if |toks| > 0 && toks[0] == literal then Some(toks[1..]) else None
  }

  function ParseIdentifier(toks: seq<Token>): (r: Parsed<string>)
    ensures r.Some? ==> IsIdentifier(r.value.0) && Consumes(toks, r.value.1)
  {
    if |toks| > 0 && IsIdentifier(toks[0]) then Some((toks[0], toks[1..])) else None
  }

  /** `pValue = pNumVal | pIdentifier | quotedString`: numbers are passed on as
      their lexeme, quoted strings lose every `"`. */
  function ParseValue(toks: seq<Token>): (r: Parsed<string>)
    ensures r.Some? ==> Consumes(toks, r.value.1)
  {
    if |toks| == 0 then None
    else if IsNumber(toks[0]) then Some((toks[0], toks[1..]))
    else if IsIdentifier(toks[0]) then Some((toks[0], toks[1..]))
    else if IsQuoted(toks[0]) then Some((Unquote(toks[0]), toks[1..]))
    else None
  }

  // ---------------------------------------------------------------------
  // Key-value lists

  /** `pKeyVals = Group(pIdentifier + EQUAL + pValue)` */
  function ParsePair(toks: seq<Token>): (r: Parsed<Pair>)
    ensures r.Some? ==> WellFormedPair(r.value.0) && Consumes(toks, r.value.1)
  {
    var key :- ParseIdentifier(toks);
    var afterEqual :- Expect(key.1, "=");
    var value :- ParseValue(afterEqual);
    Some((Pair(key.0, value.0), value.1))
  }

  /** `delimitedList(pKeyVals)`: one or more pairs separated by `,`. */
  function ParsePairs(toks: seq<Token>): (r: Parsed<seq<Pair>>)
    decreases |toks|
    ensures r.Some? ==> |r.value.0| >= 1 && Consumes(toks, r.value.1)
    ensures r.Some? ==> forall i :: 0 <= i < |r.value.0| ==> WellFormedPair(r.value.0[i])
  {
    var first :- ParsePair(toks);
    if |first.1| > 0 && first.1[0] == "," then
      match ParsePairs(first.1[1..])
      case Some(more) => Some(([first.0] + more.0, more.1))
      case None => Some(([first.0], first.1))
    else
      Some(([first.0], first.1))
  }

  /** `pKeyValList = LBRAC + Group(delimitedList(pKeyVals)) + RBRAC` */
  function ParsePairList(toks: seq<Token>): (r: Parsed<seq<Pair>>)
    ensures r.Some? ==> |r.value.0| >= 1 && Consumes(toks, r.value.1)
    ensures r.Some? ==> forall i :: 0 <= i < |r.value.0| ==> WellFormedPair(r.value.0[i])
  {
    var afterOpen :- Expect(toks, "[");
    var pairs :- ParsePairs(afterOpen);
    var afterClose :- Expect(pairs.1, "]");
    Some((pairs.0, afterClose))
  }

  // ---------------------------------------------------------------------
  // Stoichiometric terms

  /** `Group(Optional(Word(nums), '1') + pSpeciesName)` */
  function ParseTerm(toks: seq<Token>): (r: Parsed<Term>)
    ensures r.Some? ==> WellFormedTerm(r.value.0) && Consumes(toks, r.value.1)
  {
    if |toks| > 0 && IsDigits(toks[0]) then
      var species :- ParseIdentifier(toks[1..]);
      Some((Term(toks[0], species.0), species.1))
    else
      var species :- ParseIdentifier(toks);
      Some((Term("1", species.0), species.1))
  }

  /** `delimitedList(pSpeciesNameWithStoichCoeff, '+')` */
  function ParseTerms(toks: seq<Token>): (r: Parsed<seq<Term>>)
    decreases |toks|
    ensures r.Some? ==> |r.value.0| >= 1 && Consumes(toks, r.value.1)
    ensures r.Some? ==> forall i :: 0 <= i < |r.value.0| ==> WellFormedTerm(r.value.0[i])
  {
    var first :- ParseTerm(toks);
    if |first.1| > 0 && first.1[0] == "+" then
      match ParseTerms(first.1[1..])
      case Some(more) => Some(([first.0] + more.0, more.1))
      case None => Some(([first.0], first.1))
    else
      Some(([first.0], first.1))
  }

  // ---------------------------------------------------------------------
  // Statements

  /** `pSpeciesName + pKeyValList + pEOS` and `pReacName + pKeyValList + pEOS`,
      the part that species and reaction declarations share. */
  function ParseNamedList(toks: seq<Token>): (r: Parsed<(string, seq<Pair>)>)
    ensures r.Some? ==> IsIdentifier(r.value.0.0) && |r.value.0.1| >= 1 && Consumes(toks, r.value.1)
  {
    var name :- ParseIdentifier(toks);
    var params :- ParsePairList(name.1);
    var rest :- Expect(params.1, ";");
    Some(((name.0, params.0), rest))
  }

  /** `Optional(BUFFERED, 'false') + SPECIES + pSpeciesName + pKeyValList + pEOS` */
  function ParseSpecies(toks: seq<Token>): (r: Parsed<Stmt>)
    ensures r.Some? ==> r.value.0.SpeciesStmt? && Consumes(toks, r.value.1)
  {
    var buffered := |toks| > 0 && toks[0] == "buffered";
    var afterFlag := if buffered then toks[1..] else toks;
    if |afterFlag| == 0 || afterFlag[0] !in SpeciesKeywords then None
    else
      var declared :- ParseNamedList(afterFlag[1..]);
      Some((SpeciesStmt(buffered, declared.0.0, declared.0.1), declared.1))
  }

  /** `REACTION + pReacName + pKeyValList + pEOS` */
  function ParseReactionDecl(toks: seq<Token>): (r: Parsed<Stmt>)
    ensures r.Some? ==> r.value.0.ReactionDeclStmt? && Consumes(toks, r.value.1)
  {
    if |toks| == 0 || toks[0] !in ReactionKeywords then None
    else
      var declared :- ParseNamedList(toks[1..]);
      Some((ReactionDeclStmt(declared.0.0, declared.0.1), declared.1))
  }

  /** `pReac = pReacName | pKeyValList`: the identifier form is tried first,
      and the first token alone decides which of the two forms is taken. */
  function ParseReactionRef(toks: seq<Token>): (r: Parsed<ReactionRef>)
    ensures r.Some? ==> Consumes(toks, r.value.1)
    ensures r.Some? && r.value.0.ByName? ==> IsIdentifier(toks[0]) && r.value.0.name == toks[0]
    ensures r.Some? && r.value.0.Inline? ==> toks[0] == "[" && |r.value.0.params| >= 1
  {
    match ParseIdentifier(toks)
    case Some(name) => Some((ByName(name.0), name.1))
    case None =>
      var params :- ParsePairList(toks);
      Some((Inline(params.0), params.1))
  }

  /** `pSubstrasteList + LREAC + pReac + RREAC + pProductList + pEOS` */
  function ParseReaction(toks: seq<Token>): (r: Parsed<Stmt>)
    ensures r.Some? ==> r.value.0.ReactionStmt? && Consumes(toks, r.value.1)
  {
    var substrates :- ParseTerms(toks);
    var tail :- ParseReactionTail(substrates.1);
    Some((ReactionStmt(substrates.0, tail.0.0, tail.0.1), tail.1))
  }

  /** `LREAC + pReac + RREAC + pProductList + pEOS` */
  function ParseReactionTail(toks: seq<Token>): (r: Parsed<(ReactionRef, seq<Term>)>)
    ensures r.Some? ==> Consumes(toks, r.value.1)
  {
    var afterLeft :- Expect(toks, "<-");
    var rate :- ParseReactionRef(afterLeft);
    var afterRight :- Expect(rate.1, "->");
    var products :- ParseTerms(afterRight);
    var rest :- Expect(products.1, ";");
    Some(((rate.0, products.0), rest))
  }

  /** `Optional(CONST | VAR, 'var') + pKeyVals + pEOS` */
  function ParseVariable(toks: seq<Token>): (r: Parsed<Stmt>)
    ensures r.Some? ==> r.value.0.VariableStmt? && Consumes(toks, r.value.1)
  {
    var qualified := |toks| > 0 && (toks[0] == "const" || toks[0] == "var");
    var qualifier := if qualified then toks[0] else "var";
    var afterQualifier := if qualified then toks[1..] else toks;
    var pair :- ParsePair(afterQualifier);
    var rest :- Expect(pair.1, ";");
    assert Consumes(afterQualifier, rest);
    Some((VariableStmt(qualifier, pair.0), rest))
  }

  /** `pRecipeType + pRecipeName + pEOS` */
  function ParseRecipeInstance(toks: seq<Token>): (r: Parsed<Stmt>)
    ensures r.Some? ==> r.value.0.RecipeInstanceStmt? && Consumes(toks, r.value.1)
  {
    var recipe :- ParseIdentifier(toks);
    var name :- ParseIdentifier(recipe.1);
    var rest :- Expect(name.1, ";");
    Some((RecipeInstanceStmt(recipe.0, name.0), rest))
  }

  /** `pYACMLExpr = pSpeciesExpr | pReacExpr | pVariableExpr | pRecipeInstExpr`
      with `pReacExpr = pReacDecl | pReacInst`. */
  function ParseStmt(toks: seq<Token>): (r: Parsed<Stmt>)
    ensures r.Some? ==> Consumes(toks, r.value.1)
  {
    var species := ParseSpecies(toks);
    if species.Some? then species else
    var declaration := ParseReactionDecl(toks);
    if declaration.Some? then declaration else
    var reaction := ParseReaction(toks);
    if reaction.Some? then reaction else
    var variable := ParseVariable(toks);
    if variable.Some? then variable else
    ParseRecipeInstance(toks)
  }

  /** Zero or more statements, as many as match. */
  function ManyStmts(toks: seq<Token>): (r: (seq<Stmt>, seq<Token>))
    decreases |toks|
    ensures |r.0| == 0 ==> r.1 == toks
    ensures |r.0| > 0 ==> Consumes(toks, r.1)
  {
    match ParseStmt(toks)
    case None => ([], toks)
    case Some(first) =>
      var more := ManyStmts(first.1);
      ([first.0] + more.0, more.1)
  }

  /** `OneOrMore(pYACMLExpr)`, the body of a recipe or a compartment. */
  function ParseBody(toks: seq<Token>): (r: Parsed<seq<Stmt>>)
    ensures r.Some? ==> |r.value.0| >= 1 && Consumes(toks, r.value.1)
  {
    var (stmts, rest) := ManyStmts(toks);
    if |stmts| == 0 then None else Some((stmts, rest))
  }

  // ---------------------------------------------------------------------
  // Recipes and compartments

  /** `pGeometry = GEOMETRY + Optional(pKeyValList, [])` */
  function ParseGeometry(toks: seq<Token>): (r: Parsed<(string, seq<Pair>)>)
    ensures r.Some? ==> r.value.0.0 in GeometryKeywords && Consumes(toks, r.value.1)
  {
    if |toks| == 0 || toks[0] !in GeometryKeywords then None
    else
      match ParsePairList(toks[1..])
      case Some(params) => Some(((toks[0], params.0), params.1))
      case None => Some(((toks[0], []), toks[1..]))
  }

  /** `COMPT_BEGIN + pComptName + IS + pGeometry + HAS + pCompartmentBody + END` */
  function ParseCompartment(toks: seq<Token>): (r: Parsed<Block>)
    ensures r.Some? ==> r.value.0.CompartmentBlock? && Consumes(toks, r.value.1)
  {
    var afterKeyword :- Expect(toks, "compartment");
    var name :- ParseIdentifier(afterKeyword);
    var afterIs :- Expect(name.1, "is");
    var geometry :- ParseGeometry(afterIs);
    var tail :- ParseCompartmentTail(geometry.1);
    Some((CompartmentBlock(name.0, geometry.0.0, geometry.0.1, tail.0), tail.1))
  }

  /** `HAS + pCompartmentBody + END` */
  function ParseCompartmentTail(toks: seq<Token>): (r: Parsed<seq<Stmt>>)
    ensures r.Some? ==> |r.value.0| >= 1 && Consumes(toks, r.value.1)
  {
    var afterHas :- Expect(toks, "has");
    var body :- ParseBody(afterHas);
    var rest :- Expect(body.1, "end");
    Some((body.0, rest))
  }

  /** `RECIPE_BEGIN + pRecipeName + IS + pRecipeBody + END` */
  function ParseRecipe(toks: seq<Token>): (r: Parsed<Block>)
    ensures r.Some? ==> r.value.0.RecipeBlock? && Consumes(toks, r.value.1)
  {
    var afterKeyword :- Expect(toks, "recipe");
    var name :- ParseIdentifier(afterKeyword);
    var afterIs :- Expect(name.1, "is");
    var body :- ParseBody(afterIs);
    var rest :- Expect(body.1, "end");
    Some((RecipeBlock(name.0, body.0), rest))
  }

  /** `pRecipe | pCompartment` */
  function ParseBlock(toks: seq<Token>): (r: Parsed<Block>)
    ensures r.Some? ==> Consumes(toks, r.value.1)
  {
    var recipe := ParseRecipe(toks);
    if recipe.Some? then recipe else ParseCompartment(toks)
  }

  /** Zero or more blocks, as many as match. */
  function ManyBlocks(toks: seq<Token>): (r: (seq<Block>, seq<Token>))
    decreases |toks|
    ensures |r.0| == 0 ==> r.1 == toks
    ensures |r.0| > 0 ==> Consumes(toks, r.1)
  {
    match ParseBlock(toks)
    case None => ([], toks)
    case Some(first) =>
      var more := ManyBlocks(first.1);
      ([first.0] + more.0, more.1)
  }

  /** `OneOrMore(pRecipe | pCompartment)` */
  function ParseBlocks(toks: seq<Token>): (r: Parsed<seq<Block>>)
    ensures r.Some? ==> |r.value.0| >= 1 && Consumes(toks, r.value.1)
  {
    var (blocks, rest) := ManyBlocks(toks);
    if |blocks| == 0 then None else Some((blocks, rest))
  }

  // ---------------------------------------------------------------------
  // The model

  /** `SIMULATOR + pSimulatorName + Optional(pKeyValList) + pEOS` */
  function ParseSimulator(toks: seq<Token>): (r: Parsed<ModelStmt>)
    ensures r.Some? ==> r.value.0.SimulatorStmt? && Consumes(toks, r.value.1)
  {
    var afterKeyword :- Expect(toks, "simulator");
    var name :- ParseIdentifier(afterKeyword);
    match ParsePairList(name.1)
    case Some(params) =>
      var rest :- Expect(params.1, ";");
      Some((SimulatorStmt(name.0, params.0), rest))
    case None =>
      var rest :- Expect(name.1, ";");
      Some((SimulatorStmt(name.0, []), rest))
  }

  /** `pComptType + pComptInstName + pEOS` */
  function ParseCompartmentInstance(toks: seq<Token>): (r: Parsed<ModelStmt>)
    ensures r.Some? ==> r.value.0.CompartmentInstanceStmt? && Consumes(toks, r.value.1)
  {
    var compartment :- ParseIdentifier(toks);
    var name :- ParseIdentifier(compartment.1);
    var rest :- Expect(name.1, ";");
    Some((CompartmentInstanceStmt(compartment.0, name.0), rest))
  }

  /** `pModelStmt = pComptInst | pSimulator` */
  function ParseModelStmt(toks: seq<Token>): (r: Parsed<ModelStmt>)
    ensures r.Some? ==> Consumes(toks, r.value.1)
  {
    var instance := ParseCompartmentInstance(toks);
    if instance.Some? then instance else ParseSimulator(toks)
  }

  /** Zero or more model statements, as many as match. */
  function ManyModelStmts(toks: seq<Token>): (r: (seq<ModelStmt>, seq<Token>))
    decreases |toks|
    ensures |r.0| == 0 ==> r.1 == toks
    ensures |r.0| > 0 ==> Consumes(toks, r.1)
  {
    match ParseModelStmt(toks)
    case None => ([], toks)
    case Some(first) =>
      var more := ManyModelStmts(first.1);
      ([first.0] + more.0, more.1)
  }

  /** `MODEL_BEGIN + pModelName + HAS + OneOrMore(pModelStmt) + END` */
  function ParseModel(toks: seq<Token>): (r: Parsed<Model>)
    ensures r.Some? ==> |r.value.0.stmts| >= 1 && Consumes(toks, r.value.1)
  {
    if |toks| == 0 || toks[0] !in ModelKeywords then None
    else
      var name :- ParseIdentifier(toks[1..]);
      var afterHas :- Expect(name.1, "has");
      var (stmts, afterStmts) := ManyModelStmts(afterHas);
      if |stmts| == 0 then None
      else
        var rest :- Expect(afterStmts, "end");
        Some((Model(name.0, stmts), rest))
  }

  /** `yacmlBNF_ = OneOrMore(pRecipe | pCompartment) + pModel`, on input from
      which comments have already been dropped. Tokens after the model are
      left unconsumed and returned. */
  function ParseDocument(toks: seq<Token>): (r: Parsed<Document>)
    ensures r.Some? ==> |r.value.0.blocks| >= 1 && Consumes(toks, r.value.1)
  {
    var blocks :- ParseBlocks(toks);
    var model :- ParseModel(blocks.1);
    Some((Document(blocks.0, model.0), model.1))
  }
}
