/** The earlier draft of the grammar, yparser/yacml_bnf.py: a recognizer
    with no build actions. It knows only compartment blocks, keeps its
    punctuation in the output, turns coefficients into integers and numbers
    into floats, and lets only a reaction name stand between the arrows.

    Each production returns what it produces, as pyparsing's flat token list,
    together with the input it did not consume. `Group` is a nested list
    (pyparsing's `Group`); a number is tagged as a float and kept as its
    lexeme. Identifiers are plain identifier-shaped words: the draft does not
    exclude keywords. */
module Draft {
  import opened Lexical
  import Grammar

  datatype DraftToken = Text(s: string) | Float(lexeme: string) | Int(n: nat) | Group(items: seq<DraftToken>)

  type Out = seq<DraftToken>

  /** The output of a production and the input after it, or `None`. */
  type DraftParsed = Option<(Out, seq<Token>)>

  /** A production whose output is a single token. */
  type DraftParsedOne = Option<(DraftToken, seq<Token>)>

  const DraftSpeciesKeywords: set<string> := {"species", "pool"}
  const DraftReactionKeywords: set<string> := {"reaction", "reac"}
  const DraftGeometryKeywords: set<string> := {"cylinder", "cube", "Spine"}

  /** One of `keywords`, or an identifier-shaped word when `keywords` is
      empty; kept in the output as text. */
  function DraftWord(toks: seq<Token>, keywords: set<string>): (r: DraftParsedOne)
    ensures r.Some? ==> |toks| > 0 && r.value.0 == Text(toks[0]) && r.value.1 == toks[1..]
    ensures r.Some? ==> if keywords == {} then IsIdentifierShape(toks[0]) else toks[0] in keywords
  {
    if |toks| == 0 then None
    else if keywords == {} && IsIdentifierShape(toks[0]) then Some((Text(toks[0]), toks[1..]))
    else if keywords != {} && toks[0] in keywords then Some((Text(toks[0]), toks[1..]))
    else None
  }

  /** `pyparsing_common.identifier`, keywords included. */
  function DraftIdentifier(toks: seq<Token>): (r: DraftParsedOne)
    ensures r.Some? <==> |toks| > 0 && IsIdentifierShape(toks[0])
    ensures r.Some? ==> r.value == (Text(toks[0]), toks[1..])
  {
    DraftWord(toks, {})
  }

  /** `pValue = pNumVal | pIdentifier | quotedString()`: a number becomes a
      float, a word or a quoted string is kept as it is, quotes included. */
  function DraftValue(toks: seq<Token>): (r: DraftParsedOne)
    ensures r.Some? <==> |toks| > 0 && (IsNumber(toks[0]) || IsIdentifierShape(toks[0]) || IsQuoted(toks[0]))
    ensures r.Some? ==> r.value.1 == toks[1..]
    ensures r.Some? ==> r.value.0 == if IsNumber(toks[0]) then Float(toks[0]) else Text(toks[0])
  {
    if |toks| == 0 then None
    else if IsNumber(toks[0]) then Some((Float(toks[0]), toks[1..]))
    else if IsIdentifierShape(toks[0]) || IsQuoted(toks[0]) then Some((Text(toks[0]), toks[1..]))
    else None
  }

  /** `pKeyVals = pIdentifier + EQUAL + pValue`: three tokens, `=` kept. */
  function DraftPair(toks: seq<Token>): (r: DraftParsed)
    ensures r.Some? ==> |toks| >= 3 && r.value.1 == toks[3..]
    ensures r.Some? ==> |r.value.0| == 3 && r.value.0[0] == Text(toks[0]) && r.value.0[1] == Text("=")
  {
    var key :- DraftIdentifier(toks);
    var afterEqual :- Grammar.Expect(key.1, "=");
    var value :- DraftValue(afterEqual);
    Some(([key.0, Text("="), value.0], value.1))
  }

  /** `delimitedList(pKeyVals)`: the pairs one after another, commas dropped. */
  function DraftPairs(toks: seq<Token>): (r: DraftParsed)
    decreases |toks|
    ensures r.Some? ==> |r.value.0| >= 3 && Grammar.Consumes(toks, r.value.1)
  {
    var first :- DraftPair(toks);
    if |first.1| > 0 && first.1[0] == "," then
      match DraftPairs(first.1[1..])
      case Some(more) => Some((first.0 + more.0, more.1))
      case None => Some(first)
    else
      Some(first)
  }

  /** `pKeyValList = LBRAC + delimitedList(pKeyVals) + RBRAC`: flat, with
      the brackets kept; there is no empty list. */
  function DraftList(toks: seq<Token>): (r: DraftParsed)
    ensures r.Some? ==> |r.value.0| >= 5 && r.value.0[0] == Text("[") && r.value.0[|r.value.0| - 1] == Text("]")
    ensures r.Some? ==> Grammar.Consumes(toks, r.value.1)
  {
    var afterOpen :- Grammar.Expect(toks, "[");
    var pairs :- DraftPairs(afterOpen);
    var afterClose :- Grammar.Expect(pairs.1, "]");
    Some(([Text("[")] + pairs.0 + [Text("]")], afterClose))
  }

  /** `pSpeciesExpr = SPECIES + pSpeciesName + pKeyValList + pEOS` and
      `pReacDecl = REACTION + pReacName + pKeyValList + pEOS`: the keyword,
      the name, the list and the `;`. */
  function DraftDeclaration(toks: seq<Token>, keywords: set<string>): (r: DraftParsed)
    requires keywords != {}
    ensures r.Some? ==> |toks| > 0 && |r.value.0| >= 8 && r.value.0[0] == Text(toks[0]) && toks[0] in keywords
    ensures r.Some? ==> r.value.0[|r.value.0| - 1] == Text(";") && Grammar.Consumes(toks, r.value.1)
  {
    var keyword :- DraftWord(toks, keywords);
    var name :- DraftIdentifier(keyword.1);
    var list :- DraftList(name.1);
    var afterEos :- Grammar.Expect(list.1, ";");
    Some(([keyword.0, name.0] + list.0 + [Text(";")], afterEos))
  }

  /** The value of a string of decimal digits. */
  function DecimalValue(s: string): nat
    requires AllDigits(s)
    decreases |s|
  {
    if s == [] then 0 else DecimalValue(s[..|s| - 1]) * 10 + (s[|s| - 1] as int - '0' as int)
  }

  /** `Group(pStoichNumber + pSpeciesName)`: the coefficient as an integer,
      1 when it is omitted, then the species. */
  function DraftTerm(toks: seq<Token>): (r: DraftParsedOne)
    ensures r.Some? ==> |toks| > 0
    ensures r.Some? && IsDigits(toks[0]) ==>
              |toks| > 1 && r.value == (Group([Int(DecimalValue(toks[0])), Text(toks[1])]), toks[2..])
    ensures r.Some? && !IsDigits(toks[0]) ==> r.value == (Group([Int(1), Text(toks[0])]), toks[1..])
  {
    if |toks| > 0 && IsDigits(toks[0]) then
      var species :- DraftIdentifier(toks[1..]);
      Some((Group([Int(DecimalValue(toks[0])), species.0]), species.1))
    else
      var species :- DraftIdentifier(toks);
      Some((Group([Int(1), species.0]), species.1))
  }

  /** `delimitedList(pSpeciesNameWithStoichCoeff, '+')`: the terms, `+` dropped. */
  function DraftTermItems(toks: seq<Token>): (r: DraftParsed)
    decreases |toks|
    ensures r.Some? ==> |r.value.0| >= 1 && Grammar.Consumes(toks, r.value.1)
  {
    var first :- DraftTerm(toks);
    if |first.1| > 0 && first.1[0] == "+" then
      match DraftTermItems(first.1[1..])
      case Some(more) => Some(([first.0] + more.0, more.1))
      case None => Some(([first.0], first.1))
    else
      Some(([first.0], first.1))
  }

  /** `Group(delimitedList(...))`: the term list as one nested token. */
  function DraftTerms(toks: seq<Token>): (r: DraftParsedOne)
    ensures r.Some? ==> r.value.0.Group? && |r.value.0.items| >= 1 && Grammar.Consumes(toks, r.value.1)
  {
    var items :- DraftTermItems(toks);
    Some((Group(items.0), items.1))
  }

  /** The part of `pReacSetup` after the substrates: `<-`, the reaction's
      name, `->`, the products and `;`. */
  function DraftReactionTail(toks: seq<Token>): (r: Option<(DraftToken, DraftToken, seq<Token>)>)
    ensures r.Some? ==> r.value.0.Text? && IsIdentifierShape(r.value.0.s)
    ensures r.Some? ==> r.value.1.Group? && Grammar.Consumes(toks, r.value.2)
  {
    var afterLeft :- Grammar.Expect(toks, "<-");
    var name :- DraftIdentifier(afterLeft);
    var afterRight :- Grammar.Expect(name.1, "->");
    var products :- DraftTerms(afterRight);
    var afterEos :- Grammar.Expect(products.1, ";");
    Some((name.0, products.0, afterEos))
  }

  /** `pReacSetup = pSubstrasteList + LREAC + pReacName + RREAC + pProductList + pEOS`:
      six tokens, the third of which is the reaction's name. */
  function DraftReactionSetup(toks: seq<Token>): (r: DraftParsed)
    ensures r.Some? ==> |r.value.0| == 6 && r.value.0[1] == Text("<-") && r.value.0[3] == Text("->")
    ensures r.Some? ==> r.value.0[2].Text? && IsIdentifierShape(r.value.0[2].s)
    ensures r.Some? ==> Grammar.Consumes(toks, r.value.1)
  {
    match DraftTerms(toks)
    case None => None
    case Some((substrates, afterSubstrates)) =>
      match DraftReactionTail(afterSubstrates)
      case None => None
      case Some((name, products, rest)) =>
        var out := [substrates, Text("<-"), name, Text("->"), products, Text(";")];
        assert out[2] == name;
        Some((out, rest))
  }

  /** `pVariableExpr = pKeyVals + pEOS`: no `const` or `var` in the draft. */
  function DraftVariable(toks: seq<Token>): (r: DraftParsed)
    ensures r.Some? ==> |r.value.0| == 4 && r.value.0[1] == Text("=") && r.value.0[3] == Text(";")
    ensures r.Some? ==> Grammar.Consumes(toks, r.value.1)
  {
    var pair :- DraftPair(toks);
    var afterEos :- Grammar.Expect(pair.1, ";");
    Some((pair.0 + [Text(";")], afterEos))
  }

  /** `pYACMLExpr = pSpeciesExpr | pReacExpr | pVariableExpr` with
      `pReacExpr = pReacDecl | pReacSetup`: the first that matches. */
  function DraftStmt(toks: seq<Token>): (r: DraftParsed)
    ensures r.Some? ==> Grammar.Consumes(toks, r.value.1)
  {
    var species := DraftDeclaration(toks, DraftSpeciesKeywords);
    if species.Some? then species else
    var declaration := DraftDeclaration(toks, DraftReactionKeywords);
    if declaration.Some? then declaration else
    var setup := DraftReactionSetup(toks);
    if setup.Some? then setup else
    DraftVariable(toks)
  }

  /** Zero or more statements, as many as match. */
  function DraftManyStmts(toks: seq<Token>): (r: (Out, seq<Token>))
    decreases |toks|
    ensures r.0 == [] ==> r.1 == toks
    ensures r.0 != [] ==> Grammar.Consumes(toks, r.1)
  {
    match DraftStmt(toks)
    case None => ([], toks)
    case Some(first) =>
      var more := DraftManyStmts(first.1);
      (first.0 + more.0, more.1)
  }

  /** `pGeometry = GEOMETRY + Optional(pKeyValList)`: nothing is added when
      the list is omitted. */
  function DraftGeometry(toks: seq<Token>): (r: DraftParsed)
    ensures r.Some? ==> |toks| > 0 && |r.value.0| >= 1 && r.value.0[0] == Text(toks[0]) && toks[0] in DraftGeometryKeywords
    ensures r.Some? ==> Grammar.Consumes(toks, r.value.1)
  {
    var keyword :- DraftWord(toks, DraftGeometryKeywords);
    match DraftList(keyword.1)
    case Some(list) => Some(([keyword.0] + list.0, list.1))
    case None => Some(([keyword.0], keyword.1))
  }

  /** `END = Keyword("end") + Optional(pIdentifier)`: any identifier-shaped
      word after `end` is taken as the block's closing name. */
  function DraftEnd(toks: seq<Token>): (r: DraftParsed)
    ensures r.Some? <==> |toks| > 0 && toks[0] == "end"
    ensures r.Some? && |toks| > 1 && IsIdentifierShape(toks[1]) ==> r.value == ([Text("end"), Text(toks[1])], toks[2..])
    ensures r.Some? && !(|toks| > 1 && IsIdentifierShape(toks[1])) ==> r.value == ([Text("end")], toks[1..])
  {
    var afterEnd :- Grammar.Expect(toks, "end");
    match DraftIdentifier(afterEnd)
    case Some(name) => Some(([Text("end"), name.0], name.1))
    case None => Some(([Text("end")], afterEnd))
  }

  /** The part of `pCompartment` after the geometry: `HAS`, one or more
      statements and `END`. */
  function DraftCompartmentTail(toks: seq<Token>): (r: DraftParsed)
    ensures r.Some? ==> |r.value.0| >= 2 && r.value.0[0] == Text("has") && Grammar.Consumes(toks, r.value.1)
  {
    var afterHas :- Grammar.Expect(toks, "has");
    var body := DraftManyStmts(afterHas);
    if body.0 == [] then None
    else
      var end :- DraftEnd(body.1);
      Some(([Text("has")] + (body.0 + end.0), end.1))
  }

  /** The part of `pCompartment` after the name: `IS`, the geometry and the
      rest. */
  function DraftCompartmentShape(toks: seq<Token>): (r: DraftParsed)
    ensures r.Some? ==> |r.value.0| >= 4 && r.value.0[0] == Text("is") && Grammar.Consumes(toks, r.value.1)
  {
    var afterIs :- Grammar.Expect(toks, "is");
    var geometry :- DraftGeometry(afterIs);
    var tail :- DraftCompartmentTail(geometry.1);
    Some(([Text("is")] + (geometry.0 + tail.0), tail.1))
  }

  /** `pCompartment = COMPT_BEGIN + pComptName + IS + pGeometry + HAS + pCompartmentBody + END`:
      `is` and `has` are kept, and the body holds at least one statement. */
  function DraftCompartment(toks: seq<Token>): (r: DraftParsed)
    ensures r.Some? ==> |r.value.0| >= 6 && r.value.0[0] == Text("compartment") && r.value.0[2] == Text("is")
    ensures r.Some? ==> Grammar.Consumes(toks, r.value.1)
  {
    var afterBegin :- Grammar.Expect(toks, "compartment");
    var name :- DraftIdentifier(afterBegin);
    var tail :- DraftCompartmentShape(name.1);
    Some(([Text("compartment"), name.0] + tail.0, tail.1))
  }

  /** Zero or more compartments, as many as match. */
  function DraftManyCompartments(toks: seq<Token>): (r: (Out, seq<Token>))
    decreases |toks|
    ensures r.0 == [] ==> r.1 == toks
    ensures r.0 != [] ==> r.0[0] == Text("compartment") && Grammar.Consumes(toks, r.1)
  {
    match DraftCompartment(toks)
    case None => ([], toks)
    case Some(first) =>
      var more := DraftManyCompartments(first.1);
      (first.0 + more.0, more.1)
  }

  /** `yacmlBNF_ = OneOrMore(pCompartment)`, comments ignored; what follows
      the last compartment is left over. */
  function DraftDocument(toks: seq<Token>): (r: DraftParsed)
    ensures r.Some? ==> |r.value.0| >= 6 && r.value.0[0] == Text("compartment")
  {
    var compartments := DraftManyCompartments(StripComments(toks));
    if compartments.0 == [] then None else Some(compartments)
  }

  // ---------------------------------------------------------------------
  // Properties

  /** A comment anywhere in the input changes nothing. */
  lemma DraftCommentsIgnored(a: seq<Token>, c: Token, b: seq<Token>)
    requires IsComment(c)
    ensures DraftDocument(a + [c] + b) == DraftDocument(a + b)
  {
    CommentIsInvisible(a, c, b);
  }
}
