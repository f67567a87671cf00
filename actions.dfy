/** The build actions of yparser/bnf.py: each turns what one production
    matched into one element of the document tree.

    An element has a tag, a map of attributes, an ordered list of children and
    an optional text. Setting an attribute that is already present replaces
    its value, so attributes set from a list of pairs keep the value of the
    last pair with that key.

    The actions whose source walks a list in a loop are methods with that loop,
    each proved equal to a specification function; the lemmas below state what
    the specification functions promise. Recipe, compartment and model actions
    receive the raw token list of their production (`Item`s), because the
    source filters that list by kind. */
module Actions {
  import opened Lexical
  import opened Grammar

  datatype Element = Element(tag: string, attrs: map<string, string>, children: seq<Element>, text: Option<string>)

  /** An element with only a tag and a text. */
  function Leaf(tag: string, text: string): Element {
    Element(tag, map[], [], Some(text))
  }

  // ---------------------------------------------------------------------
  // Attributes from key-value pairs

  /** The attributes set from `ps` in order. */
  function PairsToMap(ps: seq<Pair>): map<string, string>
    decreases |ps|
  {
    if ps == [] then map[]
    else PairsToMap(ps[..|ps| - 1])[ps[|ps| - 1].key := ps[|ps| - 1].value]
  }

  /** The keys are exactly the keys of the pairs, and a key holds the value of
      the last pair that has it: a later duplicate wins. */
  lemma {:induction false} PairsToMapLastWins(ps: seq<Pair>)
    ensures forall k :: k in PairsToMap(ps) <==> exists i :: 0 <= i < |ps| && ps[i].key == k
    ensures forall i :: 0 <= i < |ps| && (forall j :: i < j < |ps| ==> ps[j].key != ps[i].key)
                        ==> PairsToMap(ps)[ps[i].key] == ps[i].value
    decreases |ps|
  {
    if ps != [] {
      var init := ps[..|ps| - 1];
      PairsToMapLastWins(init);
      forall k | k in PairsToMap(ps) ensures exists i :: 0 <= i < |ps| && ps[i].key == k {
        if k != ps[|ps| - 1].key {
          var i :| 0 <= i < |init| && init[i].key == k;
          assert ps[i] == init[i];
        }
      }
      forall k | exists i :: 0 <= i < |ps| && ps[i].key == k ensures k in PairsToMap(ps) {
        var i :| 0 <= i < |ps| && ps[i].key == k;
        if i < |init| {
          assert init[i] == ps[i];
        }
      }
      forall i | 0 <= i < |ps| && (forall j :: i < j < |ps| ==> ps[j].key != ps[i].key)
        ensures PairsToMap(ps)[ps[i].key] == ps[i].value
      {
        if i < |init| {
          assert init[i] == ps[i];
          forall j | i < j < |init| ensures init[j].key != init[i].key {
            assert init[j] == ps[j];
          }
        }
      }
    }
  }

  /** `for k, v in pairs: element.attrib[k] = v` */
  method AttributesOf(ps: seq<Pair>) returns (attrs: map<string, string>)
    ensures attrs == PairsToMap(ps)
  {
    attrs := map[];
    for i := 0 to |ps|
      invariant attrs == PairsToMap(ps[..i])
    {
      assert ps[..i + 1][..i] == ps[..i];
      attrs := attrs[ps[i].key := ps[i].value];
    }
    assert ps[..|ps|] == ps;
  }

  // ---------------------------------------------------------------------
  // add_variable

  /** A variable: its qualifier as attribute `type`, then exactly two children,
      `name` and `value`. */
  function VariableElement(qualifier: string, pair: Pair): Element {
    Element("variable", map["type" := qualifier], [Leaf("name", pair.key), Leaf("value", pair.value)], None)
  }

  /** The `type` of a variable is the qualifier written in front of it, and
      `var` when there is none; its two children hold the key and the value. */
  lemma VariableTypeDefault(toks: seq<Token>)
    requires ParseVariable(toks).Some?
    ensures var s := ParseVariable(toks).value.0;
            var e := VariableElement(s.qualifier, s.pair);
            && e.attrs["type"] == (if toks[0] == "const" then "const" else "var")
            && |e.children| == 2
            && e.children[0] == Leaf("name", s.pair.key)
            && e.children[1] == Leaf("value", s.pair.value)
            && IsIdentifier(s.pair.key)
  {
  }

  // ---------------------------------------------------------------------
  // add_species

  function BufferedFlag(buffered: bool): string {
    if buffered then "true" else "false"
  }

  /** A species: the name as text, the pairs as attributes, then
      `is_buffered`. */
  function SpeciesElement(buffered: bool, name: string, params: seq<Pair>): Element {
    Element("species", PairsToMap(params)["is_buffered" := BufferedFlag(buffered)], [], Some(name))
  }

  method BuildSpecies(buffered: bool, name: string, params: seq<Pair>) returns (e: Element)
    ensures e == SpeciesElement(buffered, name, params)
  {
    var attrs := AttributesOf(params);
    attrs := attrs["is_buffered" := if buffered then "true" else "false"];
    e := Element("species", attrs, [], Some(name));
  }

  /** `is_buffered` is `true` exactly when the species was declared buffered,
      whatever the pairs say, since it is written last; every other attribute
      comes from the pairs, the last duplicate winning. */
  lemma SpeciesAttributes(buffered: bool, name: string, params: seq<Pair>)
    ensures var e := SpeciesElement(buffered, name, params);
            && e.text == Some(name) && e.children == []
            && (e.attrs["is_buffered"] == "true" <==> buffered)
            && (forall k :: k != "is_buffered" ==>
                  (k in e.attrs <==> exists i :: 0 <= i < |params| && params[i].key == k))
            && (forall i :: (&& 0 <= i < |params| && params[i].key != "is_buffered"
                             && (forall j :: i < j < |params| ==> params[j].key != params[i].key))
                             ==> e.attrs[params[i].key] == params[i].value)
  {
    PairsToMapLastWins(params);
  }

  // ---------------------------------------------------------------------
  // add_reaction_declaration

  /** The rate keys recognised whatever their case. */
  const RateKeys: set<string> := {"kf", "kb", "numkf", "numkb", "km"}

  function LowerChar(c: char): char {
    if 'A' <= c <= 'Z' then (c as int + 32) as char else c
  }

  /** `str.lower` on ASCII text. */
  function Lower(s: string): (r: string)
    ensures |r| == |s|
    ensures forall i :: 0 <= i < |s| ==> r[i] == LowerChar(s[i])
  {
    if s == [] then [] else [LowerChar(s[0])] + Lower(s[1..])
  }

  /** The child one pair of a declaration becomes. */
  function DeclarationChild(p: Pair): Element {
    if Lower(p.key) in RateKeys then Leaf(p.key, p.value)
    else Element("variable", map["name" := p.key], [], Some(p.value))
  }

  /** One child per pair, in order. */
  function DeclarationChildren(ps: seq<Pair>): (r: seq<Element>)
    decreases |ps|
    ensures |r| == |ps|
    ensures forall i :: 0 <= i < |ps| ==> r[i] == DeclarationChild(ps[i])
  {
    if ps == [] then []
    else DeclarationChildren(ps[..|ps| - 1]) + [DeclarationChild(ps[|ps| - 1])]
  }

  function ReactionDeclarationElement(name: string, params: seq<Pair>): Element {
    Element("reaction_declaration", map["id" := name], DeclarationChildren(params), None)
  }

  method BuildReactionDeclaration(name: string, params: seq<Pair>) returns (e: Element)
    ensures e == ReactionDeclarationElement(name, params)
  {
    var children: seq<Element> := [];
    for i := 0 to |params|
      invariant children == DeclarationChildren(params[..i])
    {
      var key := params[i].key;
      var value := params[i].value;
      assert params[..i + 1][..i] == params[..i];
      if Lower(key) in RateKeys {
        children := children + [Leaf(key, value)];
      } else {
        children := children + [Element("variable", map["name" := key], [], Some(value))];
      }
    }
    assert params[..|params|] == params;
    e := Element("reaction_declaration", map["id" := name], children, None);
  }

  /** Each pair becomes one child, in order: a rate key (in any case) becomes
      an element named by the key as written, any other key a `variable` with
      a `name` attribute; the value is the child's text either way. */
  lemma DeclarationChildrenClassified(name: string, params: seq<Pair>)
    ensures var e := ReactionDeclarationElement(name, params);
            && e.attrs == map["id" := name]
            && |e.children| == |params|
            && (forall i :: 0 <= i < |params| ==> e.children[i].text == Some(params[i].value))
            && (forall i :: 0 <= i < |params| ==>
                  (Lower(params[i].key) in RateKeys <==> e.children[i].tag == params[i].key && e.children[i].attrs == map[]))
            && (forall i :: 0 <= i < |params| && Lower(params[i].key) !in RateKeys ==>
                  e.children[i].tag == "variable" && e.children[i].attrs == map["name" := params[i].key])
  {
    forall i | 0 <= i < |params|
      ensures var c := ReactionDeclarationElement(name, params).children[i];
              Lower(params[i].key) in RateKeys <==> c.tag == params[i].key && c.attrs == map[]
    {
      var c := DeclarationChild(params[i]);
      if Lower(params[i].key) !in RateKeys {
        assert "name" in c.attrs;
      }
    }
  }

  // ---------------------------------------------------------------------
  // add_reaction_instantiation

  /** A `substrate` or `product` child. */
  function TermChild(tag: string, t: Term): Element {
    Element(tag, map["stoichiometric_number" := t.coefficient], [], Some(t.species))
  }

  function TermChildren(tag: string, ts: seq<Term>): (r: seq<Element>)
    decreases |ts|
    ensures |r| == |ts|
    ensures forall i :: 0 <= i < |ts| ==> r[i] == TermChild(tag, ts[i])
  {
    if ts == [] then []
    else TermChildren(tag, ts[..|ts| - 1]) + [TermChild(tag, ts[|ts| - 1])]
  }

  /** A declared reaction is referred to through `instance_of`; an inline list
      gives its pairs as attributes. */
  function RateAttributes(rate: ReactionRef): map<string, string> {
    match rate
    case ByName(name) => map["instance_of" := name]
    case Inline(params) => PairsToMap(params)
  }

  function ReactionElement(substrates: seq<Term>, rate: ReactionRef, products: seq<Term>): Element {
    Element("reaction", RateAttributes(rate),
            TermChildren("substrate", substrates) + TermChildren("product", products), None)
  }

  method BuildReaction(substrates: seq<Term>, rate: ReactionRef, products: seq<Term>) returns (e: Element)
    ensures e == ReactionElement(substrates, rate, products)
  {
    var children: seq<Element> := [];
    for i := 0 to |substrates|
      invariant children == TermChildren("substrate", substrates[..i])
    {
      assert substrates[..i + 1][..i] == substrates[..i];
      var t := substrates[i];
      children := children + [Element("substrate", map["stoichiometric_number" := t.coefficient], [], Some(t.species))];
    }
    assert substrates[..|substrates|] == substrates;
    for i := 0 to |products|
      invariant children == TermChildren("substrate", substrates) + TermChildren("product", products[..i])
    {
      assert products[..i + 1][..i] == products[..i];
      var t := products[i];
      children := children + [Element("product", map["stoichiometric_number" := t.coefficient], [], Some(t.species))];
    }
    assert products[..|products|] == products;
    var attrs: map<string, string>;
    if rate.Inline? {
      attrs := AttributesOf(rate.params);
    } else {
      attrs := map["instance_of" := rate.name];
    }
    e := Element("reaction", attrs, children, None);
  }

  /** One `substrate` child per substrate in order, then one `product` child
      per product in order, each carrying its coefficient and species. */
  lemma ReactionChildrenInOrder(substrates: seq<Term>, rate: ReactionRef, products: seq<Term>)
    ensures var e := ReactionElement(substrates, rate, products);
            && |e.children| == |substrates| + |products|
            && (forall i :: 0 <= i < |substrates| ==>
                  && e.children[i].tag == "substrate"
                  && e.children[i].attrs["stoichiometric_number"] == substrates[i].coefficient
                  && e.children[i].text == Some(substrates[i].species))
            && (forall i :: 0 <= i < |products| ==>
                  && e.children[|substrates| + i].tag == "product"
                  && e.children[|substrates| + i].attrs["stoichiometric_number"] == products[i].coefficient
                  && e.children[|substrates| + i].text == Some(products[i].species))
  {
    var e := ReactionElement(substrates, rate, products);
    forall i | 0 <= i < |products|
      ensures e.children[|substrates| + i] == TermChild("product", products[i])
    {
      assert e.children[|substrates| + i] == TermChildren("product", products)[i];
    }
  }

  /** Exactly one of the two forms: a name gives the single attribute
      `instance_of`; a list gives one attribute per key and no `instance_of`
      unless a pair has that key. */
  lemma RateFormsExclusive(rate: ReactionRef)
    ensures rate.ByName? ==> RateAttributes(rate).Keys == {"instance_of"}
                             && RateAttributes(rate)["instance_of"] == rate.name
    ensures rate.Inline? ==>
      forall k :: k in RateAttributes(rate) <==> exists i :: 0 <= i < |rate.params| && rate.params[i].key == k
  {
    if rate.Inline? {
      PairsToMapLastWins(rate.params);
    }
  }

  // ---------------------------------------------------------------------
  // add_recipe_instance, add_compt_instance, add_simulator

  function RecipeInstanceElement(recipe: string, name: string): Element {
    Element("recipe_instance", map["instance_of" := recipe], [], Some(name))
  }

  function CompartmentInstanceElement(compartment: string, name: string): Element {
    Element("compartment_instance", map["instance_of" := compartment], [], Some(name))
  }

  function SimulatorElement(name: string, params: seq<Pair>): Element {
    Element("simulator", PairsToMap(params), [], Some(name))
  }

  method BuildSimulator(name: string, params: seq<Pair>) returns (e: Element)
    ensures e == SimulatorElement(name, params)
  {
    var attrs := AttributesOf(params);
    e := Element("simulator", attrs, [], Some(name));
  }

  /** A simulator written without a list is read with no parameters, and
      its element has the name as text and no attributes. */
  lemma SimulatorWithoutList(name: string, rest: seq<Token>)
    requires IsIdentifier(name)
    ensures ParseSimulator(["simulator", name, ";"] + rest) == Some((SimulatorStmt(name, []), rest))
    ensures ModelStmtElement(SimulatorStmt(name, [])) == Element("simulator", map[], [], Some(name))
  {
    var toks := ["simulator", name, ";"] + rest;
    var afterKeyword := [name, ";"] + rest;
    var afterName := [";"] + rest;
    assert toks[1..] == afterKeyword && afterKeyword[1..] == afterName && afterName[1..] == rest;
    assert Expect(toks, "simulator") == Some(afterKeyword);
    assert ParseIdentifier(afterKeyword) == Some((name, afterName));
    assert ParsePairList(afterName) == None;
    assert Expect(afterName, ";") == Some(rest);
  }

  // ---------------------------------------------------------------------
  // Statements

  function StmtElement(s: Stmt): Element {
    match s
    case SpeciesStmt(buffered, name, params) => SpeciesElement(buffered, name, params)
    case ReactionDeclStmt(name, params) => ReactionDeclarationElement(name, params)
    case ReactionStmt(substrates, rate, products) => ReactionElement(substrates, rate, products)
    case VariableStmt(qualifier, pair) => VariableElement(qualifier, pair)
    case RecipeInstanceStmt(recipe, name) => RecipeInstanceElement(recipe, name)
  }

  /** The action of whichever statement production matched. */
  method BuildStmt(s: Stmt) returns (e: Element)
    ensures e == StmtElement(s)
  {
    match s
    case SpeciesStmt(buffered, name, params) =>
      e := BuildSpecies(buffered, name, params);
    case ReactionDeclStmt(name, params) =>
      e := BuildReactionDeclaration(name, params);
    case ReactionStmt(substrates, rate, products) =>
      e := BuildReaction(substrates, rate, products);
    case VariableStmt(qualifier, pair) =>
      e := VariableElement(qualifier, pair);
    case RecipeInstanceStmt(recipe, name) =>
      e := RecipeInstanceElement(recipe, name);
  }

  /** The statements' elements, one per statement, in order. */
  function StmtElements(body: seq<Stmt>): (r: seq<Element>)
    decreases |body|
    ensures |r| == |body|
    ensures forall i :: 0 <= i < |body| ==> r[i] == StmtElement(body[i])
  {
    if body == [] then []
    else StmtElements(body[..|body| - 1]) + [StmtElement(body[|body| - 1])]
  }

  method BuildBody(body: seq<Stmt>) returns (es: seq<Element>)
    ensures es == StmtElements(body)
  {
    es := [];
    for i := 0 to |body|
      invariant es == StmtElements(body[..i])
    {
      assert body[..i + 1][..i] == body[..i];
      var e := BuildStmt(body[i]);
      es := es + [e];
    }
    assert body[..|body|] == body;
  }

  function ModelStmtElement(s: ModelStmt): Element {
    match s
    case CompartmentInstanceStmt(compartment, name) => CompartmentInstanceElement(compartment, name)
    case SimulatorStmt(name, params) => SimulatorElement(name, params)
  }

  method BuildModelStmt(s: ModelStmt) returns (e: Element)
    ensures e == ModelStmtElement(s)
  {
    match s
    case CompartmentInstanceStmt(compartment, name) =>
      e := CompartmentInstanceElement(compartment, name);
    case SimulatorStmt(name, params) =>
      e := BuildSimulator(name, params);
  }

  function ModelStmtElements(ss: seq<ModelStmt>): (r: seq<Element>)
    decreases |ss|
    ensures |r| == |ss|
    ensures forall i :: 0 <= i < |ss| ==> r[i] == ModelStmtElement(ss[i])
  {
    if ss == [] then []
    else ModelStmtElements(ss[..|ss| - 1]) + [ModelStmtElement(ss[|ss| - 1])]
  }

  method BuildModelStmts(ss: seq<ModelStmt>) returns (es: seq<Element>)
    ensures es == ModelStmtElements(ss)
  {
    es := [];
    for i := 0 to |ss|
      invariant es == ModelStmtElements(ss[..i])
    {
      assert ss[..i + 1][..i] == ss[..i];
      var e := BuildModelStmt(ss[i]);
      es := es + [e];
    }
    assert ss[..|ss| - 0] == ss;
  }

  // ---------------------------------------------------------------------
  // The token lists of recipes, compartments and models

  /** What the recipe, compartment and model actions receive: keywords and
      names as words, the body statements as the elements their own actions
      built, and the geometry's list as a group of pairs. */
  datatype Item = Word(word: string) | Node(node: Element) | PairGroup(pairs: seq<Pair>)

  function Nodes(es: seq<Element>): (r: seq<Item>)
    decreases |es|
    ensures |r| == |es|
    ensures forall i :: 0 <= i < |es| ==> r[i] == Node(es[i])
  {
    if es == [] then [] else Nodes(es[..|es| - 1]) + [Node(es[|es| - 1])]
  }

  /** The elements among `items`, in order (`isinstance(x, etree._Element)`). */
  function Elements(items: seq<Item>): seq<Element>
    decreases |items|
  {
    if items == [] then []
    else Elements(items[..|items| - 1]) + (if items[|items| - 1].Node? then [items[|items| - 1].node] else [])
  }

  lemma {:induction false} ElementsAppend(a: seq<Item>, b: seq<Item>)
    ensures Elements(a + b) == Elements(a) + Elements(b)
    decreases |b|
  {
    if b == [] {
      assert a + b == a;
    } else {
      var last := b[|b| - 1];
      assert (a + b)[..|a + b| - 1] == a + b[..|b| - 1];
      ElementsAppend(a, b[..|b| - 1]);
    }
  }

  /** Filtering the nodes of `es` gives back `es`. */
  lemma {:induction false} ElementsOfNodes(es: seq<Element>)
    ensures Elements(Nodes(es)) == es
    decreases |es|
  {
    if es != [] {
      var ns := Nodes(es);
      assert ns[..|ns| - 1] == Nodes(es[..|es| - 1]);
      ElementsOfNodes(es[..|es| - 1]);
    }
  }

  /** Words carry no element. */
  lemma ElementsOfWords(items: seq<Item>)
    requires forall i :: 0 <= i < |items| ==> !items[i].Node?
    ensures Elements(items) == []
    decreases |items|
  {
    if items != [] {
      ElementsOfWords(items[..|items| - 1]);
    }
  }

  function RecipeItems(name: string, body: seq<Element>): seq<Item> {
    [Word("recipe"), Word(name)] + Nodes(body) + [Word("end")]
  }

  function CompartmentItems(name: string, geometry: string, params: seq<Pair>, body: seq<Element>): seq<Item> {
    [Word("compartment"), Word(name), Word(geometry), PairGroup(params)] + Nodes(body) + [Word("end")]
  }

  function ModelItems(keyword: string, name: string, stmts: seq<Element>): seq<Item> {
    [Word(keyword), Word(name)] + Nodes(stmts) + [Word("end")]
  }

  lemma ElementsOfBody(head: seq<Item>, body: seq<Element>)
    requires forall i :: 0 <= i < |head| ==> !head[i].Node?
    ensures Elements(head + Nodes(body) + [Word("end")]) == body
  {
    assert Elements(head + Nodes(body)) == body by {
      ElementsAppend(head, Nodes(body));
      ElementsOfWords(head);
      ElementsOfNodes(body);
    }
    assert Elements([Word("end")]) == [] by {
      ElementsOfWords([Word("end")]);
    }
    ElementsAppend(head + Nodes(body), [Word("end")]);
  }

  /** The elements of a block's token list are its statements' elements, in
      parse order: the keywords, the name and `end` are dropped. */
  lemma ItemsKeepBodyInOrder(name: string, geometry: string, params: seq<Pair>, keyword: string, body: seq<Element>)
    ensures Elements(RecipeItems(name, body)) == body
    ensures Elements(CompartmentItems(name, geometry, params, body)[4..]) == body
    ensures Elements(ModelItems(keyword, name, body)[2..]) == body
  {
    ElementsOfBody([Word("recipe"), Word(name)], body);
    assert CompartmentItems(name, geometry, params, body)[4..] == [] + Nodes(body) + [Word("end")];
    assert ModelItems(keyword, name, body)[2..] == [] + Nodes(body) + [Word("end")];
    ElementsOfBody([], body);
  }

  function RecipeElement(name: string, body: seq<Element>): Element {
    Element("recipe", map["id" := name], body, None)
  }

  /** A compartment's children: `name`, then `geometry` (the keyword as text,
      the list's pairs as attributes), then the body. */
  function CompartmentElement(name: string, geometry: string, params: seq<Pair>, body: seq<Element>): Element {
    Element("compartment", map[],
            [Leaf("name", name), Element("geometry", PairsToMap(params), [], Some(geometry))] + body, None)
  }

  function ModelElement(name: string, stmts: seq<Element>): Element {
    Element("model", map[], [Leaf("name", name)] + stmts, None)
  }

  /** The geometry of a compartment written without a list has no attributes;
      the body follows `name` and `geometry` in order. */
  lemma CompartmentChildrenInOrder(name: string, geometry: string, params: seq<Pair>, body: seq<Element>)
    ensures var e := CompartmentElement(name, geometry, params, body);
            && |e.children| == 2 + |body|
            && e.children[0] == Leaf("name", name)
            && e.children[1].tag == "geometry" && e.children[1].text == Some(geometry)
            && (params == [] ==> e.children[1].attrs == map[])
            && e.children[2..] == body
  {
  }

  // ---------------------------------------------------------------------
  // add_model and add_simulator as written

  /** The attributes the loop of add_model sets: every token after the name
      that is not an element is indexed as if it were a pair, its first item
      the key and its second the value. A word shorter than two characters or
      a group of pairs makes the action fail. */
  function ModelAttributesAsWritten(items: seq<Item>): Option<map<string, string>>
    decreases |items|
  {
    if items == [] then Some(map[])
    else
      var attrs :- ModelAttributesAsWritten(items[..|items| - 1]);
      match items[|items| - 1]
      case Node(_) => Some(attrs)
      case Word(w) => if |w| < 2 then None else Some(attrs[[w[0]] := [w[1]]])
      case PairGroup(_) => None
  }

  function ModelElementAsWritten(items: seq<Item>): Option<Element>
    requires |items| >= 2 && items[1].Word?
  {
    var attrs :- ModelAttributesAsWritten(items[2..]);
    Some(Element("model", attrs, [Leaf("name", items[1].word)] + Elements(items[2..]), None))
  }

  lemma {:induction false} ModelAttributesOfNodes(es: seq<Element>)
    ensures ModelAttributesAsWritten(Nodes(es)) == Some(map[])
    decreases |es|
  {
    if es != [] {
      var ns := Nodes(es);
      assert ns[..|ns| - 1] == Nodes(es[..|es| - 1]);
      ModelAttributesOfNodes(es[..|es| - 1]);
    }
  }

  /** As written, every model element gets the attribute `e="n"` from its
      closing `end`; otherwise it is the model element. */
  lemma ModelEndBecomesAttribute(keyword: string, name: string, stmts: seq<Element>)
    ensures ModelElementAsWritten(ModelItems(keyword, name, stmts))
            == Some(Element("model", map["e" := "n"], ModelElement(name, stmts).children, None))
  {
    var items := ModelItems(keyword, name, stmts);
    var tail := Nodes(stmts) + [Word("end")];
    assert items[2..] == tail;
    assert tail[..|tail| - 1] == Nodes(stmts);
    ModelAttributesOfNodes(stmts);
    ItemsKeepBodyInOrder(name, "", [], keyword, stmts);
  }

  /** What add_simulator receives: the list is there only when written. */
  function SimulatorItems(name: string, params: seq<Pair>): seq<Item> {
    [Word("simulator"), Word(name)] + (if params == [] then [] else [PairGroup(params)])
  }

  /** add_simulator as written: it reads the third token, which is missing
      when the list is omitted. */
  function SimulatorElementAsWritten(items: seq<Item>): Option<Element>
    requires |items| >= 2 && items[1].Word?
  {
    if |items| < 3 || !items[2].PairGroup? then None
    else Some(Element("simulator", PairsToMap(items[2].pairs), [], Some(items[1].word)))
  }

  /** The simulator action as written, taken on its own, fails exactly
      when the list is omitted, and otherwise builds the simulator element.
      The grammar as written never hands it a list-less statement: the
      compartment instance is tried first and takes `simulator name;`. */
  lemma SimulatorFailsWithoutList(name: string, params: seq<Pair>)
    ensures SimulatorElementAsWritten(SimulatorItems(name, params)).None? <==> params == []
    ensures params != [] ==> SimulatorElementAsWritten(SimulatorItems(name, params)) == Some(SimulatorElement(name, params))
  {
  }
}
