/** The whole parse of yparser/bnf.py: comments are dropped, the recipe and
    compartment blocks are parsed one after another and each is appended to
    the document as soon as its action runs, then the model is parsed and
    appended last. The document is an explicit builder object rather than the
    module-level element of the source, so every parse starts from an empty
    document. */
module DocumentModel {
  import opened Lexical
  import opened Grammar
  import opened Actions
  import opened Extension

  /** The element a parsed block becomes. */
  function BlockElement(b: Block): Element {
    match b
    case RecipeBlock(name, body) => RecipeElement(name, StmtElements(body))
    case CompartmentBlock(name, geometry, params, body) => CompartmentElement(name, geometry, params, StmtElements(body))
  }

  function BlockElements(bs: seq<Block>): (r: seq<Element>)
    decreases |bs|
    ensures |r| == |bs|
    ensures forall i :: 0 <= i < |bs| ==> r[i] == BlockElement(bs[i])
  {
    if bs == [] then [] else BlockElements(bs[..|bs| - 1]) + [BlockElement(bs[|bs| - 1])]
  }

  function ModelOf(m: Model): Element {
    ModelElement(m.name, ModelStmtElements(m.stmts))
  }

  /** The root `yacml` element holding the given children. */
  function Root(children: seq<Element>): Element {
    Element("yacml", map[], children, None)
  }

  /** The document a token sequence parses to, or `None` when it does not
      parse; tokens after the model are ignored. */
  function Parse(toks: seq<Token>): Option<Element> {
    var d :- ParseDocument(StripComments(toks));
    Some(Root(BlockElements(d.0.blocks) + [ModelOf(d.0.model)]))
  }

  /** The document under construction: the children of the root element, in
      the order the actions appended them. */
  class DocumentBuilder {
    var children: seq<Element>

    constructor()
      ensures children == []
    {
      children := [];
    }

    function Document(): Element
      reads this
    {
      Root(children)
    }

    /** add_recipe: `id` is the name; the children are the elements among the
        tokens, in order; the recipe is appended to the document. */
    method AddRecipe(tokens: seq<Item>) returns (recipe: Element)
      requires |tokens| >= 2 && tokens[1].Word?
      modifies this
      ensures recipe == RecipeElement(tokens[1].word, Elements(tokens))
      ensures children == old(children) + [recipe]
    {
      var body: seq<Element> := [];
      for i := 0 to |tokens|
        invariant body == Elements(tokens[..i])
      {
        assert tokens[..i + 1][..i] == tokens[..i];
        if tokens[i].Node? {
          body := body + [tokens[i].node];
        }
      }
      assert tokens[..|tokens|] == tokens;
      recipe := Element("recipe", map["id" := tokens[1].word], body, None);
      children := children + [recipe];
    }

    /** add_compartment: a `name` child, a `geometry` child whose attributes
        are the pairs of the fourth token, then the elements among the
        remaining tokens; the compartment is appended to the document. */
    method AddCompartment(tokens: seq<Item>) returns (compartment: Element)
      requires |tokens| >= 4 && tokens[1].Word? && tokens[2].Word? && tokens[3].PairGroup?
      modifies this
      ensures compartment == CompartmentElement(tokens[1].word, tokens[2].word, tokens[3].pairs, Elements(tokens[4..]))
      ensures children == old(children) + [compartment]
    {
      var attrs := AttributesOf(tokens[3].pairs);
      var geometry := Element("geometry", attrs, [], Some(tokens[2].word));
      var body: seq<Element> := [];
      var rest := tokens[4..];
      for i := 0 to |rest|
        invariant body == Elements(rest[..i])
      {
        assert rest[..i + 1][..i] == rest[..i];
        if rest[i].Node? {
          body := body + [rest[i].node];
        }
      }
      assert rest[..|rest|] == rest;
      compartment := Element("compartment", map[], [Leaf("name", tokens[1].word), geometry] + body, None);
      children := children + [compartment];
    }

    /** add_model, keeping only the elements after the name (the attribute
        loop of the source is modelled separately, as written): a `name`
        child, then the statements; the model is appended to the document. */
    method AddModel(tokens: seq<Item>)
      requires |tokens| >= 2 && tokens[1].Word?
      modifies this
      ensures children == old(children) + [ModelElement(tokens[1].word, Elements(tokens[2..]))]
    {
      var stmts: seq<Element> := [];
      var rest := tokens[2..];
      for i := 0 to |rest|
        invariant stmts == Elements(rest[..i])
      {
        assert rest[..i + 1][..i] == rest[..i];
        if rest[i].Node? {
          stmts := stmts + [rest[i].node];
        }
      }
      assert rest[..|rest|] == rest;
      children := children + [Element("model", map[], [Leaf("name", tokens[1].word)] + stmts, None)];
    }
  }

  method AddRecipeBlock(builder: DocumentBuilder, name: string, body: seq<Stmt>)
    modifies builder
    ensures builder.children == old(builder.children) + [BlockElement(RecipeBlock(name, body))]
  {
    var es := BuildBody(body);
    var items := RecipeItems(name, es);
    assert items[1] == Word(name);
    ItemsKeepBodyInOrder(name, "", [], "", es);
    var recipe := builder.AddRecipe(items);
    assert recipe == RecipeElement(name, es);
  }

  method AddCompartmentBlock(builder: DocumentBuilder, name: string, geometry: string, params: seq<Pair>, body: seq<Stmt>)
    modifies builder
    ensures builder.children == old(builder.children) + [BlockElement(CompartmentBlock(name, geometry, params, body))]
  {
    var es := BuildBody(body);
    var items := CompartmentItems(name, geometry, params, es);
    assert items[1] == Word(name) && items[2] == Word(geometry) && items[3] == PairGroup(params);
    ItemsKeepBodyInOrder(name, geometry, params, "", es);
    var compartment := builder.AddCompartment(items);
    assert compartment == CompartmentElement(name, geometry, params, es);
  }

  /** Runs the action of a parsed block and appends its element. */
  method AddBlock(builder: DocumentBuilder, b: Block)
    modifies builder
    ensures builder.children == old(builder.children) + [BlockElement(b)]
  {
    match b
    case RecipeBlock(name, body) =>
      AddRecipeBlock(builder, name, body);
    case CompartmentBlock(name, geometry, params, body) =>
      AddCompartmentBlock(builder, name, geometry, params, body);
  }

  /** Runs the model's actions and appends the model element. */
  method AddModelBlock(builder: DocumentBuilder, m: Model)
    modifies builder
    ensures builder.children == old(builder.children) + [ModelOf(m)]
  {
    var stmts := BuildModelStmts(m.stmts);
    var items := ModelItems("model", m.name, stmts);
    assert items[1] == Word(m.name);
    ItemsKeepBodyInOrder(m.name, "", [], "model", stmts);
    builder.AddModel(items);
  }

  lemma ManyBlocksStep(toks: seq<Token>, b: Block, rest: seq<Token>)
    requires ParseBlock(toks) == Some((b, rest))
    ensures ManyBlocks(toks).0 == [b] + ManyBlocks(rest).0
    ensures ManyBlocks(toks).1 == ManyBlocks(rest).1
  {
    assert ManyBlocks(toks) == ([b] + ManyBlocks(rest).0, ManyBlocks(rest).1);
  }

  lemma ManyBlocksStop(toks: seq<Token>)
    requires ParseBlock(toks) == None
    ensures ManyBlocks(toks) == ([], toks)
  {
  }

  lemma BlockElementsSnoc(bs: seq<Block>, b: Block)
    ensures BlockElements(bs + [b]) == BlockElements(bs) + [BlockElement(b)]
  {
    assert (bs + [b])[..|bs|] == bs;
  }

  /** One turn of the block loop: the parsed block moves from what is left
      to parse to what has been parsed, and its element is appended. */
  lemma BlocksLoopStep(input: seq<Token>, parsed: seq<Block>, cur: seq<Token>, b: Block, rest: seq<Token>)
    requires ManyBlocks(input).0 == parsed + ManyBlocks(cur).0 && ManyBlocks(input).1 == ManyBlocks(cur).1
    requires ParseBlock(cur) == Some((b, rest))
    ensures ManyBlocks(input).0 == (parsed + [b]) + ManyBlocks(rest).0
    ensures ManyBlocks(input).1 == ManyBlocks(rest).1
    ensures BlockElements(parsed + [b]) == BlockElements(parsed) + [BlockElement(b)]
  {
    ManyBlocksStep(cur, b, rest);
    AppendAssociative(parsed, [b], ManyBlocks(rest).0);
    BlockElementsSnoc(parsed, b);
  }

  /** `OneOrMore(pRecipe | pCompartment)`: parses blocks while one matches,
      appending each block's element as its action runs. */
  method AddBlocks(builder: DocumentBuilder, input: seq<Token>) returns (parsed: seq<Block>, cur: seq<Token>)
    modifies builder
    ensures ManyBlocks(input).0 == parsed && ManyBlocks(input).1 == cur
    ensures builder.children == old(builder.children) + BlockElements(parsed)
  {
    cur := input;
    parsed := [];
    var next := ParseBlock(cur);
    while next.Some?
      invariant next == ParseBlock(cur)
      invariant ManyBlocks(input).0 == parsed + ManyBlocks(cur).0
      invariant ManyBlocks(input).1 == ManyBlocks(cur).1
      invariant builder.children == old(builder.children) + BlockElements(parsed)
      decreases |cur|
    {
      var b := next.value.0;
      var rest := next.value.1;
      BlocksLoopStep(input, parsed, cur, b, rest);
      AddBlock(builder, b);
      parsed := parsed + [b];
      cur := rest;
      next := ParseBlock(cur);
    }
    ManyBlocksStop(cur);
    assert parsed + [] == parsed;
  }

  /** Parse, read as the block loop followed by the model. */
  lemma ParseInParts(toks: seq<Token>, blocks: seq<Block>, cur: seq<Token>)
    requires ManyBlocks(StripComments(toks)).0 == blocks && ManyBlocks(StripComments(toks)).1 == cur
    ensures blocks == [] ==> Parse(toks) == None
    ensures blocks != [] && ParseModel(cur).None? ==> Parse(toks) == None
    ensures blocks != [] && ParseModel(cur).Some? ==>
              Parse(toks) == Some(Root(BlockElements(blocks) + [ModelOf(ParseModel(cur).value.0)]))
  {
    var input := StripComments(toks);
    if blocks != [] {
      assert ParseBlocks(input) == Some((blocks, cur));
    }
  }

  /** parser_main: the document the token sequence parses to, built block by
      block in parse order and closed by the model. */
  method ParserMain(toks: seq<Token>) returns (doc: Option<Element>)
    ensures doc == Parse(toks)
  {
    var input := StripComments(toks);
    var builder := new DocumentBuilder();
    var blocks, cur := AddBlocks(builder, input);
    ParseInParts(toks, blocks, cur);
    if blocks == [] {
      return None;
    }
    var model := ParseModel(cur);
    if model.None? {
      return None;
    }
    var m := model.value.0;
    assert builder.children == BlockElements(blocks);
    AddModelBlock(builder, m);
    assert builder.children == BlockElements(blocks) + [ModelOf(m)];
    doc := Some(builder.Document());
    assert doc == Some(Root(BlockElements(blocks) + [ModelOf(m)]));
  }

  // ---------------------------------------------------------------------
  // Properties of the document

  /** The document is one or more recipe or compartment elements in parse
      order, followed by exactly one model element, which is last. */
  lemma DocumentShape(toks: seq<Token>)
    requires Parse(toks).Some?
    ensures var e := Parse(toks).value;
            && e.tag == "yacml" && |e.children| >= 2
            && e.children[|e.children| - 1].tag == "model"
            && forall i :: 0 <= i < |e.children| - 1 ==>
                 e.children[i].tag == "recipe" || e.children[i].tag == "compartment"
  {
    var d := ParseDocument(StripComments(toks)).value.0;
    var blocks := BlockElements(d.blocks);
    var e := Parse(toks).value;
    assert e.children == blocks + [ModelOf(d.model)];
    forall i | 0 <= i < |e.children| - 1
      ensures e.children[i].tag == "recipe" || e.children[i].tag == "compartment"
    {
      assert e.children[i] == BlockElement(d.blocks[i]);
    }
  }

  /** A comment anywhere in the input changes nothing in the document. */
  lemma CommentsIgnored(a: seq<Token>, c: Token, b: seq<Token>)
    requires IsComment(c)
    ensures Parse(a + [c] + b) == Parse(a + b)
  {
    CommentIsInvisible(a, c, b);
  }

  /** Tokens after the model, whatever they are, do not change the document:
      the parse ends with the model's `end` and never looks past it. This
      rests on no keyword being an identifier, so that `end` never starts
      another model statement. */
  lemma TrailingTokensIgnored(toks: seq<Token>, extra: seq<Token>)
    requires Parse(toks).Some?
    ensures Parse(toks + extra) == Parse(toks)
  {
    StripCommentsAppend(toks, extra);
    DocumentExtend(StripComments(toks), StripComments(extra));
  }
}
