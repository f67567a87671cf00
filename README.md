# YACML parsing front end, in Dafny

YACML is a small language for chemical-reaction models. A YACML document
declares recipes and compartments. Their bodies hold species, reaction
declarations, reactions, variables and recipe instances. The document ends
with one model that names compartment instances and simulators. The front end
in `yparser/bnf.py` parses a document and builds a tree of tagged elements: a
`yacml` root holding one element per recipe and compartment, in parse order,
then the model element.

This project models that front end and the earlier draft grammar,
`yparser/yacml_bnf.py`.

- `lexical.dfy` (module `Lexical`) holds the lexical classes:
  - reserved words, identifiers (identifier-shaped and not reserved), digit
    strings, numeric literals and quoted strings;
  - Java-style comments, which are removed before the grammar runs;
  - the parse action on quoted strings, which removes every `"`.
- `grammar.dfy` (module `Grammar`) holds every production of `bnf.py` as a
  recursive-descent function over the token sequence.
  - Each returns `None`, or what it hands to its build action together with
    the tokens left over.
  - Ordered choice tries the alternatives in the grammar's order.
  - `Optional`, `OneOrMore` and `delimitedList` are greedy and never backtrack.
- `actions.dfy` (module `Actions`) holds the build actions.
  - Each element has a tag, an attribute map, ordered children and an
    optional text.
  - Every action that walks a list in a loop is a method with that loop. It is
    proved equal to a specification function, and lemmas state what the
    specification function promises.
- `document.dfy` (module `DocumentModel`) holds the document.
  - A `DocumentBuilder` class stands in for the module-level `xml_` element.
    The recipe, compartment and model actions append to its `children`.
  - `ParserMain` runs the block loop imperatively and is proved equal to the
    functional `Parse`.
- `printer.dfy` (module `Printer`) and `roundtrip.dfy` (module `RoundTrip`)
  hold a canonical printer for everything the grammar matches. They prove that
  parsing the printed tokens gives back exactly the printed value. This shows
  that each ordered choice picks the alternative the value came from, and that
  no production drops or reorders anything.
- `pipeline.dfy` (module `Pipeline`) proves the same for whole documents
  through `Parse`, with or without comments among the tokens.
- `extension.dfy` (module `Extension`) proves that the parser never reads past
  what it consumes. A production that matches some tokens matches them the
  same way with any tokens appended, once the token that stopped each
  repetition or optional part is known. So, in the model's reading, where no
  keyword is an identifier, whatever follows the model's `end` never changes
  the document. `bnf.py` itself can read that `end` as the type of a
  compartment instance (see DocumentModel.TrailingTokensIgnored under
  "## Left out").
- `draft.dfy` (module `Draft`) is the draft grammar as a second recognizer.
  - It returns pyparsing's flat token list, with `Group` as a nested list.
  - Punctuation, `is`, `has` and `end` are kept in the output.
  - Coefficients become integers, and numbers are tagged as floats.
- `draft_properties.dfy` (module `DraftProperties`) compares the two grammars
  and works through the draft's own smoke tests.

## Model

| member | source | states |
|---|---|---|
| Lexical.IsIdentifier | yparser/bnf.py:199-201 | pyparsing's `identifier` (a letter or `_`, then letters, digits or `_`) that is not one of the reserved words |
| Lexical.IsNumber | yparser/bnf.py:206-208 | an optional sign, then a mantissa of digits with at most one dot and at least one digit (`\.\d+` included), then an optional exponent: `e` or `E`, an optional sign, and digits |
| Lexical.IsQuoted | yparser/bnf.py:212 | pyparsing's `quotedString`: a single- or double-quoted literal whose body has no bare delimiter, newline or carriage return, with doubled delimiters and backslash escapes allowed |
| Lexical.IsComment | yparser/bnf.py:303 | `javaStyleComment`: a `/* ... */` token or a token starting with `//` |
| Lexical.ReservedAreNotIdentifiers | yparser/bnf.py:182-201 | a reserved word has the shape of an identifier but is never accepted as one |
| Lexical.ValueClassesDisjoint | yparser/bnf.py:206-212 | no lexeme is both a number and an identifier, both a number and a quoted string, or both an identifier and a quoted string, so the order of `pValue` never hides a class |
| Lexical.NumberFirstChar | yparser/bnf.py:206-208 | a numeric literal starts with a sign, a digit or a dot |
| Lexical.DigitsAreNumbers | yparser/bnf.py:206-207 | every digit string is a numeric literal (the integer form) |
| Lexical.DecimalAccepted | yparser/bnf.py:206-208 | `1.5111` is a numeric literal |
| Lexical.FractionAccepted | yparser/bnf.py:208 | `.5111` is a numeric literal (the `\.\d+` form) |
| Lexical.SignedScientificAccepted | yparser/bnf.py:206-208 | `-1.35e13` is a numeric literal |
| Lexical.ScientificAccepted | yparser/bnf.py:206-208 | `1e-2` is a numeric literal |
| Lexical.SmokeTestNumbersAccepted | yparser/yacml_bnf.py:44-45 | the four literals the draft's smoke tests parse are all numeric literals |
| Lexical.SampleNonNumbersRejected | yparser/bnf.py:206-208 | a lone sign, a lone dot, `1e`, `e5` and `1.2.3` are not numeric literals |
| Lexical.TwoDotsRejected | yparser/bnf.py:206-208 | a literal with two dots is not a number |
| Lexical.IndexOf | yparser/bnf.py:206-208 | the result is the first index holding the character, or the length when there is none |
| Lexical.IndexOfExponent | yparser/bnf.py:206-208 | the result is the first index holding `e` or `E`, or the length when there is none |
| Lexical.Remove | yparser/bnf.py:213 | the result is no longer than the input and holds no removed character |
| Lexical.RemoveAppend | yparser/bnf.py:213 | removal works character by character: it distributes over concatenation |
| Lexical.RemoveAbsent | yparser/bnf.py:213 | a string without the character is left unchanged |
| Lexical.Unquote | yparser/bnf.py:213 | the quoted-string parse action: every `"` is removed and nothing else changes |
| Lexical.UnquoteDoubleQuoted | yparser/bnf.py:213 | a double-quoted literal whose body has no `"` becomes exactly its body |
| Lexical.UnquoteSingleQuoted | yparser/bnf.py:213 | only `"` is removed: a single-quoted literal keeps its delimiters |
| Lexical.UnquoteIdempotent | yparser/bnf.py:213 | removing the quotes twice is the same as removing them once |
| Lexical.StripComments | yparser/bnf.py:303 | what the grammar sees holds no comment and is no longer than the input |
| Lexical.StripCommentsAppend | yparser/bnf.py:303 | dropping comments works token by token: it distributes over concatenation |
| Lexical.CommentIsInvisible | yparser/bnf.py:303 | a comment between any two tokens leaves the grammar's input unchanged |
| Lexical.StripCommentsNoComments | yparser/bnf.py:303 | input without comments reaches the grammar unchanged |
| Grammar.Expect | yparser/bnf.py:188-195 | a matched literal consumes exactly one token |
| Grammar.ParseIdentifier | yparser/bnf.py:199-201 | a matched identifier is identifier-shaped, is not reserved, and consumes one token |
| Grammar.ParseValue | yparser/bnf.py:212-213 | a matched value consumes a non-empty prefix |
| Grammar.ParsePair | yparser/bnf.py:215 | a matched pair has an identifier as its key |
| Grammar.ParsePairs | yparser/bnf.py:217 | the comma-separated list holds at least one pair, each with an identifier key |
| Grammar.ParsePairList | yparser/bnf.py:217 | a bracketed list holds at least one pair, each with an identifier key |
| Grammar.ParseTerm | yparser/bnf.py:222-223 | a term's coefficient is a digit string and its species is an identifier |
| Grammar.ParseTerms | yparser/bnf.py:226-227 | a `+`-separated term list holds at least one well-formed term |
| Grammar.ParseNamedList | yparser/bnf.py:218-239 | a name followed by a non-empty list and `;` |
| Grammar.ParseSpecies | yparser/bnf.py:218 | only a species statement is produced |
| Grammar.ParseReactionDecl | yparser/bnf.py:239 | only a reaction declaration is produced |
| Grammar.ParseReactionRef | yparser/bnf.py:240 | the name form is produced only from an identifier token, which it keeps; the list form only from `[`, with at least one pair |
| Grammar.ParseReaction | yparser/bnf.py:241 | only a reaction statement is produced |
| Grammar.ParseReactionTail | yparser/bnf.py:241 | the tail after the substrates consumes a non-empty prefix |
| Grammar.ParseVariable | yparser/bnf.py:248-249 | only a variable statement is produced |
| Grammar.ParseRecipeInstance | yparser/bnf.py:256-257 | only a recipe-instance statement is produced |
| Grammar.ParseStmt | yparser/bnf.py:264 | a matched statement consumes a non-empty prefix |
| Grammar.ManyStmts | yparser/bnf.py:269-274 | zero statements consume nothing; one or more consume a non-empty prefix |
| Grammar.ParseBody | yparser/bnf.py:269-274 | a body holds at least one statement |
| Grammar.ParseGeometry | yparser/bnf.py:261 | the geometry is one of the geometry keywords |
| Grammar.ParseCompartment | yparser/bnf.py:270 | only a compartment block is produced |
| Grammar.ParseCompartmentTail | yparser/bnf.py:270 | `has`, at least one statement, then `end` |
| Grammar.ParseRecipe | yparser/bnf.py:275 | only a recipe block is produced |
| Grammar.ParseBlock | yparser/bnf.py:299 | a matched block consumes a non-empty prefix |
| Grammar.ManyBlocks | yparser/bnf.py:299 | zero blocks consume nothing; one or more consume a non-empty prefix |
| Grammar.ParseBlocks | yparser/bnf.py:299 | there is at least one block |
| Grammar.ParseSimulator | yparser/bnf.py:283 | only a simulator statement is produced |
| Grammar.ParseCompartmentInstance | yparser/bnf.py:288 | only a compartment-instance statement is produced |
| Grammar.ParseModelStmt | yparser/bnf.py:292 | a matched model statement consumes a non-empty prefix |
| Grammar.ManyModelStmts | yparser/bnf.py:294 | zero statements consume nothing; one or more consume a non-empty prefix |
| Grammar.ParseModel | yparser/bnf.py:294 | a model holds at least one statement |
| Grammar.ParseDocument | yparser/bnf.py:299 | a document holds at least one block before its model |
| Actions.PairsToMapLastWins | yparser/bnf.py:38-39 | the keys set from a list of pairs are exactly the pairs' keys, and each holds the value of the last pair with that key |
| Actions.AttributesOf | yparser/bnf.py:38-39 | the attribute loop builds exactly the map the pairs specify |
| Actions.VariableTypeDefault | yparser/bnf.py:24-32 | `type` is `const` when written and `var` otherwise; there are exactly two children, `name` with the key and `value` with the value |
| Actions.BuildSpecies | yparser/bnf.py:34-41 | the loop builds the species element: the name as text, the pairs as attributes, then `is_buffered` |
| Actions.SpeciesAttributes | yparser/bnf.py:34-41 | `is_buffered` is `true` exactly when `buffered` was written, whatever the pairs say; every other attribute comes from the pairs, the last duplicate winning |
| Actions.Lower | yparser/bnf.py:57 | lower-casing keeps the length and maps each character to its lower case |
| Actions.DeclarationChildren | yparser/bnf.py:56-63 | one child per pair, in order |
| Actions.BuildReactionDeclaration | yparser/bnf.py:53-64 | the loop builds the declaration: `id` is the name, then one child per pair |
| Actions.DeclarationChildrenClassified | yparser/bnf.py:53-64 | each pair becomes one child in order; a key whose lower case is one of `kf`, `kb`, `numkf`, `numkb`, `km` gives an element named by the key as written, and any other key gives a `variable` with a `name` attribute; the value is the child's text either way |
| Actions.TermChildren | yparser/bnf.py:69-76 | one child per term, in order |
| Actions.BuildReaction | yparser/bnf.py:66-85 | the two loops and the rate branch build the reaction element |
| Actions.ReactionChildrenInOrder | yparser/bnf.py:66-76 | one `substrate` child per substrate in source order, then one `product` child per product in source order, each with `stoichiometric_number` set to the coefficient and the species as text |
| Actions.RateFormsExclusive | yparser/bnf.py:78-84 | a name gives the single attribute `instance_of`; a list gives one attribute per key and nothing else |
| Actions.RecipeInstanceElement | yparser/bnf.py:87-92 | a `recipe_instance` element whose only attribute `instance_of` is the recipe and whose text is the instance name |
| Actions.CompartmentInstanceElement | yparser/bnf.py:108-119 | a `compartment_instance` element whose only attribute `instance_of` is the compartment type and whose text is the instance name; the loop over `tokens[2:]` adds nothing |
| Actions.BuildSimulator | yparser/bnf.py:121-126 | the loop builds the simulator element: the name as text, the pairs as attributes |
| Actions.SimulatorWithoutList | yparser/bnf.py:121-126 | in the model's reading, `simulator name;` is a simulator with no parameters, and its element has the name as text and no attributes |
| Actions.StmtElements | yparser/bnf.py:264 | one element per statement, in order |
| Actions.BuildStmt | yparser/bnf.py:24-92 | runs the action of whichever statement production matched |
| Actions.BuildBody | yparser/bnf.py:269-274 | the body's elements, one per statement, in order |
| Actions.ModelStmtElements | yparser/bnf.py:292 | one element per model statement, in order |
| Actions.BuildModelStmt | yparser/bnf.py:108-126 | runs the action of whichever model-statement production matched |
| Actions.BuildModelStmts | yparser/bnf.py:292-294 | the model statements' elements, in order |
| Actions.Nodes | yparser/bnf.py:47-49 | every element becomes one token, in order |
| Actions.ElementsAppend | yparser/bnf.py:47-49 | keeping the elements of a token list works token by token |
| Actions.ElementsOfNodes | yparser/bnf.py:47-49 | keeping the elements of a list of elements gives the same list back |
| Actions.ElementsOfWords | yparser/bnf.py:47-49 | keywords and names carry no element |
| Actions.ItemsKeepBodyInOrder | yparser/bnf.py:47-49 | the elements among a recipe's, a compartment's or a model's tokens are the statements' elements in parse order; keywords, names and `end` are dropped |
| Actions.CompartmentChildrenInOrder | yparser/bnf.py:135-152 | the children are `name`, then `geometry` with the keyword as text, then the body; the geometry has no attributes when the list is omitted |
| Actions.ModelAttributesOfNodes | yparser/bnf.py:100-104 | statement elements set no attribute in the loop of add_model |
| Actions.ModelEndBecomesAttribute | yparser/bnf.py:94-106 | as written, every model element gets the attribute `e="n"` from its closing `end` |
| Actions.SimulatorFailsWithoutList | yparser/bnf.py:121-126 | the simulator action as written, taken on its own, fails exactly when it is handed no list; the grammar never hands it one without a list |
| DocumentModel.BlockElements | yparser/bnf.py:299 | one element per block, in order |
| DocumentModel.DocumentBuilder.constructor | yparser/bnf.py:22 | every parse starts from an empty document |
| DocumentModel.DocumentBuilder.AddRecipe | yparser/bnf.py:43-51 | `id` is the name; the children are the elements among the tokens, in order; the recipe is appended to the document |
| DocumentModel.DocumentBuilder.AddCompartment | yparser/bnf.py:135-152 | a `name` child, a `geometry` child with the list's pairs as attributes, then the elements among the remaining tokens; the compartment is appended to the document |
| DocumentModel.DocumentBuilder.AddModel | yparser/bnf.py:94-106 | a `name` child, then the statement elements; the model is appended to the document |
| DocumentModel.AddRecipeBlock | yparser/bnf.py:43-51 | appends the recipe element of a parsed recipe |
| DocumentModel.AddCompartmentBlock | yparser/bnf.py:135-152 | appends the compartment element of a parsed compartment |
| DocumentModel.AddBlock | yparser/bnf.py:299 | appends the element of a parsed block |
| DocumentModel.AddModelBlock | yparser/bnf.py:94-106 | appends the model element of a parsed model |
| DocumentModel.BlocksLoopStep | yparser/bnf.py:299 | one turn of the block loop moves the parsed block from what is left to what is done |
| DocumentModel.AddBlocks | yparser/bnf.py:299 | the loop parses exactly the blocks `OneOrMore` matches and appends their elements in parse order |
| DocumentModel.ParseInParts | yparser/bnf.py:299 | no block, or no model after the blocks, means no document; otherwise the document is the blocks' elements, then the model's |
| DocumentModel.Parse | yparser/bnf.py:298-303 | comments dropped, then one or more blocks and a model; the `yacml` root holding the blocks' elements in parse order, then the model's; `None` when no document matches |
| DocumentModel.ParserMain | yparser/bnf.py:161-164 | the document built block by block is exactly the parse of the input |
| DocumentModel.DocumentShape | yparser/bnf.py:297-299 | a document is a `yacml` root with one or more recipe or compartment elements, followed by exactly one model element, which is last |
| DocumentModel.CommentsIgnored | yparser/bnf.py:303 | a comment anywhere in the input changes nothing in the document |
| DocumentModel.TrailingTokensIgnored | yparser/bnf.py:294-303 | in the model's reading, where no keyword is an identifier: for every input that parses, any tokens appended after it, comments or not, leave the document unchanged |
| RoundTrip.ValueRoundTrip | yparser/bnf.py:212-213 | a printed value reads back as itself |
| RoundTrip.PairRoundTrip | yparser/bnf.py:215 | a printed pair reads back as itself |
| RoundTrip.PairsRoundTripOne | yparser/bnf.py:217 | a single printed pair is a list of one pair |
| RoundTrip.PairsRoundTripStep | yparser/bnf.py:217 | a printed pair, a comma and pairs that read back, read back together |
| RoundTrip.PairsRoundTrip | yparser/bnf.py:217 | comma-separated printed pairs read back in order |
| RoundTrip.ListRoundTrip | yparser/bnf.py:217 | a printed non-empty list reads back exactly, in order |
| RoundTrip.EmptyListRejected | yparser/bnf.py:217 | `[]` is not a key-value list |
| RoundTrip.TermRoundTrip | yparser/bnf.py:222-223 | a printed term reads back as itself |
| RoundTrip.TermsRoundTripOne | yparser/bnf.py:226-227 | one printed term is a list of one term |
| RoundTrip.TermsRoundTripStep | yparser/bnf.py:226-227 | a printed term, `+` and terms that read back, read back together |
| RoundTrip.TermsRoundTrip | yparser/bnf.py:222-227 | `+`-separated printed terms read back in order |
| RoundTrip.DigitsAreNotReserved | yparser/bnf.py:182-185 | a digit string is neither a reserved word nor identifier-shaped |
| RoundTrip.NamedListRoundTrip | yparser/bnf.py:218-239 | a name, a printed list and `;` read back as that name and list |
| RoundTrip.SpeciesRoundTrip | yparser/bnf.py:218 | a printed species declaration reads back, with `buffered` kept |
| RoundTrip.ReactionDeclRoundTrip | yparser/bnf.py:239 | a printed reaction declaration reads back as itself |
| RoundTrip.RefRoundTrip | yparser/bnf.py:240 | a printed rate reads back in the form it was printed in |
| RoundTrip.ReactionTailRoundTrip | yparser/bnf.py:241 | the printed part after the substrates reads back as its rate and products |
| RoundTrip.ReactionRoundTrip | yparser/bnf.py:241 | a printed reaction reads back as itself |
| RoundTrip.VariableRoundTrip | yparser/bnf.py:248-249 | a printed variable reads back with its qualifier |
| RoundTrip.RecipeInstanceRoundTrip | yparser/bnf.py:256-257 | a printed recipe instance reads back as itself |
| RoundTrip.KeywordAlternativesFail | yparser/bnf.py:173-174 | a statement that does not start with a reserved word is no species and no reaction declaration |
| RoundTrip.SpeciesStmtRoundTrip | yparser/bnf.py:264 | a printed species is read by the species alternative |
| RoundTrip.ReactionDeclStmtRoundTrip | yparser/bnf.py:246 | a printed reaction declaration is read by the declaration alternative |
| RoundTrip.ReactionStmtRoundTrip | yparser/bnf.py:246 | a printed reaction is read by the reaction alternative |
| RoundTrip.VariableStmtRoundTrip | yparser/bnf.py:264 | a printed variable is read by the variable alternative |
| RoundTrip.RecipeInstanceStmtRoundTrip | yparser/bnf.py:264 | a printed recipe instance is read by the last alternative |
| RoundTrip.StmtRoundTrip | yparser/bnf.py:264 | every printed statement is read back by the alternative it was printed from |
| RoundTrip.EndIsNoName | yparser/bnf.py:199-201 | `end` is reserved, so it is neither a name nor a coefficient |
| RoundTrip.EndIsNoDeclaration | yparser/bnf.py:218-239 | no declaration starts with `end` |
| RoundTrip.EndIsNoReaction | yparser/bnf.py:241 | no reaction starts with `end` |
| RoundTrip.EndIsNoVariable | yparser/bnf.py:249-257 | no variable and no recipe instance starts with `end` |
| RoundTrip.StmtRejectsEnd | yparser/bnf.py:264-275 | no statement starts with `end`, so a body stops in front of it |
| RoundTrip.ManyStmtsRoundTrip | yparser/bnf.py:269 | printed statements read back in order, and reading stops where no statement starts |
| RoundTrip.BodyRoundTrip | yparser/bnf.py:269-275 | a printed body followed by `end` reads back as itself |
| RoundTrip.RecipeFromParts | yparser/bnf.py:275 | `recipe`, a name, `is` and a body closed by `end` read as that recipe |
| RoundTrip.RecipeRoundTrip | yparser/bnf.py:275 | a printed recipe reads back as itself |
| RoundTrip.GeometryRoundTrip | yparser/bnf.py:261 | a printed geometry reads back, and with the list omitted it has no parameters |
| RoundTrip.CompartmentTailRoundTrip | yparser/bnf.py:270 | `has`, a printed body and `end` read back as the body |
| RoundTrip.CompartmentFromParts | yparser/bnf.py:270 | a compartment header, a geometry and a tail read as that compartment |
| RoundTrip.CompartmentRoundTrip | yparser/bnf.py:270 | a printed compartment reads back as itself |
| RoundTrip.BlockRoundTrip | yparser/bnf.py:299 | every printed block is read by the alternative it was printed from |
| RoundTrip.BlockRejectsModel | yparser/bnf.py:299 | no block starts with a model keyword, so the blocks stop in front of the model |
| RoundTrip.ManyBlocksRoundTrip | yparser/bnf.py:299 | printed blocks read back in order |
| RoundTrip.CompartmentInstanceRoundTrip | yparser/bnf.py:288-292 | a printed compartment instance is read by the first model-statement alternative |
| RoundTrip.SimulatorRoundTrip | yparser/bnf.py:283 | a printed simulator reads back, and with the list omitted it has no parameters |
| RoundTrip.ModelStmtRoundTrip | yparser/bnf.py:292 | every printed model statement is read by the alternative it was printed from |
| RoundTrip.ModelStmtRejectsEnd | yparser/bnf.py:292-294 | no model statement starts with `end` |
| RoundTrip.ManyModelStmtsRoundTrip | yparser/bnf.py:294 | printed model statements read back in order |
| RoundTrip.ModelRoundTrip | yparser/bnf.py:294 | a printed model reads back as itself |
| RoundTrip.DocumentRoundTrip | yparser/bnf.py:299 | every well-formed document, printed and parsed, is itself; the tokens after the model are left over |
| Extension.ExpectExtend | yparser/bnf.py:168-195 | a keyword or literal that matches still matches with tokens appended, and hands them back |
| Extension.IdentifierExtend | yparser/bnf.py:199 | an identifier that matches still matches with tokens appended |
| Extension.ValueExtend | yparser/bnf.py:212 | a value that matches reads the same with tokens appended |
| Extension.PairExtend | yparser/bnf.py:215 | a pair that matches reads the same with tokens appended |
| Extension.PairsExtend | yparser/bnf.py:217 | a pair list that stopped in front of a token other than `,` reads the same with tokens appended |
| Extension.PairListExtend | yparser/bnf.py:217 | a bracketed list that matches reads the same with tokens appended |
| Extension.TermExtend | yparser/bnf.py:222-223 | a term that matches reads the same with tokens appended |
| Extension.TermsExtend | yparser/bnf.py:226-227 | a term list that stopped in front of a token other than `+` reads the same with tokens appended |
| Extension.NamedListExtend | yparser/bnf.py:218 | a name, a list and `;` read the same with tokens appended |
| Extension.SpeciesExtend | yparser/bnf.py:218 | a species statement that matches reads the same with tokens appended |
| Extension.ReactionDeclExtend | yparser/bnf.py:239 | a reaction declaration that matches reads the same with tokens appended |
| Extension.ReactionRefExtend | yparser/bnf.py:240 | the rate reads the same with tokens appended, in the same form |
| Extension.ReactionTailExtend | yparser/bnf.py:241 | the part of a reaction after its substrates reads the same with tokens appended |
| Extension.ReactionExtend | yparser/bnf.py:241 | a reaction that matches reads the same with tokens appended |
| Extension.VariableExtend | yparser/bnf.py:249 | a variable statement that matches reads the same with tokens appended |
| Extension.RecipeInstanceExtend | yparser/bnf.py:257 | a recipe instance that matches reads the same with tokens appended |
| Extension.ReactionStart | yparser/bnf.py:241 | a reaction starts with a coefficient or a species name, never with a reserved word |
| Extension.ReservedStartsNoReaction | yparser/bnf.py:222-226 | no reaction starts with a reserved word |
| Extension.NameWithoutArrowStartsNoReaction | yparser/bnf.py:241 | a name followed by neither `+` nor `<-` starts no reaction |
| Extension.VariableFirstMatch | yparser/bnf.py:264 | a variable statement matches none of the alternatives tried before it, whatever tokens follow |
| Extension.RecipeInstanceFirstMatch | yparser/bnf.py:264 | a recipe instance matches none of the alternatives tried before it, whatever tokens follow |
| Extension.StmtExtend | yparser/bnf.py:264 | a statement reads the same with tokens appended: the appended tokens never change which alternative is taken |
| Extension.ManyStmtsExtend | yparser/bnf.py:269 | a run of statements that stopped at `end` reads the same with tokens appended |
| Extension.BodyExtend | yparser/bnf.py:274 | a body followed by `end` reads the same with tokens appended |
| Extension.GeometryExtend | yparser/bnf.py:261 | a geometry followed by a token other than `[` reads the same with tokens appended |
| Extension.CompartmentTailExtend | yparser/bnf.py:270 | `has`, a body and `end` read the same with tokens appended |
| Extension.CompartmentExtend | yparser/bnf.py:270 | a compartment that matches reads the same with tokens appended |
| Extension.RecipeExtend | yparser/bnf.py:275 | a recipe that matches reads the same with tokens appended |
| Extension.BlockExtend | yparser/bnf.py:299 | a block reads the same with tokens appended, through the same alternative |
| Extension.ManyBlocksExtend | yparser/bnf.py:299 | a run of blocks that stopped at the model keyword reads the same with tokens appended |
| Extension.BlocksExtend | yparser/bnf.py:299 | one or more blocks followed by the model keyword read the same with tokens appended |
| Extension.SimulatorExtend | yparser/bnf.py:283 | a simulator, with or without its list, reads the same with tokens appended |
| Extension.CompartmentInstanceExtend | yparser/bnf.py:288 | a compartment instance reads the same with tokens appended |
| Extension.ModelStmtExtend | yparser/bnf.py:292 | a model statement reads the same with tokens appended, through the same alternative |
| Extension.ManyModelStmtsExtend | yparser/bnf.py:294 | a run of model statements that stopped at `end` reads the same with tokens appended |
| Extension.ModelExtend | yparser/bnf.py:294 | a model that matches reads the same with tokens appended |
| Extension.DocumentExtend | yparser/bnf.py:299 | in the model's reading, where no keyword is an identifier: a document that matches reads the same with any tokens appended, which are handed back after the model |
| Pipeline.NoSlashNoComment | yparser/bnf.py:303 | a token that does not start with `/` is no comment |
| Pipeline.ValueTokenIsNoComment | yparser/bnf.py:303 | a printed value is no comment |
| Pipeline.DocumentTokensFree | yparser/bnf.py:303 | the printer writes no comment |
| Pipeline.PrintedDocumentParses | yparser/bnf.py:299-303 | every well-formed printed document parses to the root holding its blocks' elements, then its model's element |
| Pipeline.CommentedDocumentParses | yparser/bnf.py:303 | the same holds with a comment anywhere among the printed tokens |
| Draft.DraftWord | yparser/yacml_bnf.py:29-31 | a keyword, or an identifier-shaped word, is kept as one text token |
| Draft.DraftIdentifier | yparser/yacml_bnf.py:24 | any identifier-shaped word matches, keywords included, and is kept as text |
| Draft.DraftValue | yparser/yacml_bnf.py:44-49 | a value is a number, an identifier-shaped word or a quoted string; a number becomes a float, anything else is kept as written |
| Draft.DraftPair | yparser/yacml_bnf.py:51 | `key = value` gives three tokens, the key, `=` and the value |
| Draft.DraftPairs | yparser/yacml_bnf.py:53 | the pairs follow one another flat, commas dropped |
| Draft.DraftList | yparser/yacml_bnf.py:53 | a list is flat, opens with `[`, closes with `]` and holds at least one pair |
| Draft.DraftDeclaration | yparser/yacml_bnf.py:54-66 | a declaration starts with its keyword and ends with `;` |
| Draft.DraftTerm | yparser/yacml_bnf.py:57-59 | a term is the group of its coefficient as an integer, 1 when omitted, and its species |
| Draft.DraftTermItems | yparser/yacml_bnf.py:62-63 | a term list holds at least one term, `+` dropped |
| Draft.DraftTerms | yparser/yacml_bnf.py:62-63 | the term list becomes one group |
| Draft.DraftReactionTail | yparser/yacml_bnf.py:67 | only a name may stand between the arrows; the products are a group |
| Draft.DraftReactionSetup | yparser/yacml_bnf.py:67 | a reaction gives six tokens, with `<-` and `->` around the reaction's name |
| Draft.DraftVariable | yparser/yacml_bnf.py:70 | a variable gives four tokens: key, `=`, value and `;` |
| Draft.DraftStmt | yparser/yacml_bnf.py:68-73 | a matched statement consumes a non-empty prefix |
| Draft.DraftManyStmts | yparser/yacml_bnf.py:77 | zero statements consume nothing; one or more consume a non-empty prefix |
| Draft.DraftGeometry | yparser/yacml_bnf.py:75 | the geometry starts with one of `cylinder`, `cube`, `Spine` |
| Draft.DraftEnd | yparser/yacml_bnf.py:28 | `end` takes the next token as a closing name exactly when that token is identifier-shaped |
| Draft.DraftCompartmentTail | yparser/yacml_bnf.py:78-79 | `has` is kept, and a body holds at least one statement |
| Draft.DraftCompartmentShape | yparser/yacml_bnf.py:78 | `is` is kept, then the geometry |
| Draft.DraftCompartment | yparser/yacml_bnf.py:78-79 | a compartment starts `compartment`, a name, `is` |
| Draft.DraftManyCompartments | yparser/yacml_bnf.py:81 | zero compartments consume nothing; otherwise the output starts with `compartment` |
| Draft.DraftDocument | yparser/yacml_bnf.py:81-82 | a document is one or more compartments |
| Draft.DraftCommentsIgnored | yparser/yacml_bnf.py:82 | a comment anywhere in the input changes nothing |
| DraftProperties.DraftTermsOf | yparser/yacml_bnf.py:59 | one term group per term, in order |
| DraftProperties.TermAgrees | yparser/yacml_bnf.py:57-59 | wherever the complete grammar reads a term, the draft reads the same tokens, turning the digits into the integer they denote, or 1 when omitted |
| DraftProperties.TermsAgree | yparser/yacml_bnf.py:62-63 | a printed term list reads in the draft as one group per term, in order, `+` dropped |
| DraftProperties.ReactionTailFromParts | yparser/yacml_bnf.py:67 | `<-`, a name, `->`, the products and `;` read as that name and products |
| DraftProperties.ReactionTailAgrees | yparser/yacml_bnf.py:67 | a printed reaction tail with a named rate reads in the draft as its name and product group |
| DraftProperties.ReactionByNameAgrees | yparser/yacml_bnf.py:62-68 | a reaction with a named rate reads in the draft as the substrate group, `<-`, the name, `->`, the product group and `;` |
| DraftProperties.InlineRateRejected | yparser/yacml_bnf.py:67 | a reaction with an inline list between the arrows is no reaction to the draft |
| DraftProperties.CoefficientTerm | yparser/yacml_bnf.py:57-59 | a written coefficient becomes the integer its digits denote |
| DraftProperties.BareTerm | yparser/yacml_bnf.py:57 | an omitted coefficient becomes the integer 1 |
| DraftProperties.ZeroCoefficientAccepted | yparser/yacml_bnf.py:57 | a coefficient of zero is accepted |
| DraftProperties.CapitalSpineOnlyInDraft | yparser/yacml_bnf.py:31 | the draft accepts `Spine` as a geometry, and the complete grammar rejects it |
| DraftProperties.SpineOnlyInCompleteGrammar | yparser/yacml_bnf.py:31 | the complete grammar accepts `spine` as a geometry, and the draft rejects it |
| DraftProperties.EnzymeOnlyInCompleteGrammar | yparser/yacml_bnf.py:29-30 | `enzyme` and `enz_reac` are keywords only in the complete grammar |
| DraftProperties.PairFromParts | yparser/yacml_bnf.py:51 | `key = value` gives the key, `=` and the value as the draft reads it |
| DraftProperties.PairAlone | yparser/yacml_bnf.py:51 | the same with nothing after the value |
| DraftProperties.VariableFromPair | yparser/yacml_bnf.py:70 | a pair followed by `;` is a variable, with the `;` kept |
| DraftProperties.VariableFromParts | yparser/yacml_bnf.py:70-73 | `key = value ;` is read as a variable statement |
| DraftProperties.KeywordAsVariableName | yparser/yacml_bnf.py:70 | the draft lets `species` name a variable; the complete grammar, in the model's reading of the keyword exclusion, refuses it as a name |
| DraftProperties.EndSwallowsNextKeyword | yparser/yacml_bnf.py:28 | after a bare `end`, the next `compartment` is taken as the closing name |
| DraftProperties.AvogadroIsNumber | yparser/yacml_bnf.py:86 | `6.023e23` is a numeric literal |
| DraftProperties.PairSmokeTest | yparser/yacml_bnf.py:86 | `AV = 6.023e23` gives `AV`, `=` and the number as a float |
| DraftProperties.CompartmentSmokeTestRejected | yparser/yacml_bnf.py:87-92 | the smoke-test compartment has no `is`, so the draft rejects it |
| DraftProperties.NumberSmokeTests | yparser/yacml_bnf.py:93-96 | each numeric smoke-test literal is a value, read as a float |
| DraftProperties.NumberValue | yparser/yacml_bnf.py:44-46 | a number alone is a value, read as a float |
| DraftProperties.SubstrateSmokeTest | yparser/yacml_bnf.py:97 | `2a + 3b` gives one group of two terms with integer coefficients |
| DraftProperties.ProductSmokeTest | yparser/yacml_bnf.py:97 | `c + 9d` gives one group whose omitted coefficient is 1 |
| DraftProperties.ReactionTailSmokeTest | yparser/yacml_bnf.py:97 | `<- r0 -> c + 9d;` gives the name `r0` and the product group |
| DraftProperties.ReactionSmokeTest | yparser/yacml_bnf.py:97 | `2a + 3b <- r0 -> c + 9d;` gives `[[2,a],[3,b]]`, `<-`, `r0`, `->`, `[[1,c],[9,d]]`, `;` |
| DraftProperties.PairStartIsVariable | yparser/yacml_bnf.py:68-73 | a statement that starts with a name and `=` is read as a variable |
| DraftProperties.VariableStmtExample | yparser/yacml_bnf.py:70-73 | `x = 1;` is a variable statement, with the number as a float |
| DraftProperties.EndIsNoDraftStmt | yparser/yacml_bnf.py:73 | no statement starts with `end compartment` |
| DraftProperties.BodyExample | yparser/yacml_bnf.py:77 | the body `x = 1;` ends where `end` begins |
| DraftProperties.BareEndTakesNextKeyword | yparser/yacml_bnf.py:28 | after a body, a bare `end` followed by `compartment` closes the block, with `compartment` as its name |
| DraftProperties.BodyThenBareEnd | yparser/yacml_bnf.py:78-79 | `has x = 1; end compartment` is a whole compartment tail |
| DraftProperties.ShapeExample | yparser/yacml_bnf.py:75-78 | `is cube has x = 1; end compartment` reads with no list after the geometry |
| DraftProperties.CompartmentFromShape | yparser/yacml_bnf.py:78 | `compartment`, a name and a shape read as that compartment |
| DraftProperties.FirstCompartmentExample | yparser/yacml_bnf.py:78-79 | a compartment closed by a bare `end` before the next compartment takes `compartment` as its closing name |
| DraftProperties.StopsAfterOne | yparser/yacml_bnf.py:81 | one compartment followed by anything but `compartment` is all the draft reads |
| DraftProperties.BareEndLosesNextCompartment | yparser/yacml_bnf.py:28 | with two compartments, where the first closes with a bare `end`, the second is never parsed and everything from its name on is left over |

## Left out

- `yacml.py` is not part of this model. It builds solvers, parses command-line options and loads files through modules outside this model (`yacml.py:15-20`).
- Semantic resolution lives in `yparser.create_graph` and `pre_processor` (`yacml.py:40-41`) and is not modelled. This covers reaction-reference lookup, recipe expansion, cycle checks and graph construction.
- Characters, whitespace and positions are not modelled. The input is already a sequence of lexemes (`Token`), so there is no scanner and no lexical error.
- Numbers are kept as their lexemes. The `str(float(...))` canonicalization of `bnf.py` and the `float()` of the draft are floating-point conversions. The draft only tags a number as a float.
- The numeric class is modelled as the union of the integer, the real and scientific number, and `\.\d+`, each matching the whole lexeme. The released pyparsing 2.x and 3.x define no `pyparsing_common.numeric`. If the pyparsing that `bnf.py:16` imports is one of them, `bnf.py:206` and `yacml_bnf.py:44` raise `AttributeError` at import and nothing parses. The union is then the evident intent, not the code. It assumes that `numeric` matches a whole literal, as the smoke tests at `yacml_bnf.py:93-96` suggest. Without `numeric`, `integer` is tried before `number`, and on character input pyparsing would read only the `1` of `1.5111`. Working on whole lexemes, the model does not capture that.
- Grammar.ParseIdentifier: rejects every reserved word everywhere, as the comment at `yparser/bnf.py:200` intends. The `ignore` at `yparser/bnf.py:201` does not do that. pyparsing applies an ignore expression only in pre-parse, and pre-parse is skipped for the first element of a sequence, a `Group` or an `Optional`. So in `bnf.py` a keyword is accepted where the identifier comes first, and skipped where it comes later. It comes first in the pair key (`yparser/bnf.py:215`), the recipe-instance type (`yparser/bnf.py:257`) and the compartment-instance type (`yparser/bnf.py:288`). By this reading (not executed), `species = 1;` is a variable, `species a;` is a recipe instance of `species`, and `simulator gsl;` is a compartment instance of `simulator`. The model refuses the first two and reads the third as a simulator (see Grammar.ParseModelStmt below).
- Grammar.ParsePair, Grammar.ParseRecipeInstance, Grammar.ParseCompartmentInstance: refuse a keyword as the key or the type, where `bnf.py` accepts it (see Grammar.ParseIdentifier above).
- DocumentModel.TrailingTokensIgnored, Extension.DocumentExtend: true only in the model's reading, where Grammar.ParseCompartmentInstance refuses `end` as a type. `OneOrMore(pModelStmt)` at `yparser/bnf.py:294` tries one more statement at the model's closing `end`. `pComptInst` is tried first (`yparser/bnf.py:292`), and its leading type is the first element of its sequence (`yparser/bnf.py:288`), so it accepts `end`. By this reading (not executed), in `recipe r is A a; end model m has C c; end x ;` the tail `end x ;` is a compartment instance. The `END` of `yparser/bnf.py:294` then finds no token left, and the whole parse fails. The same holds when keywords stand between that `end` and the name, because the name's pre-parse skips them. The model refuses `end` as a type, so it returns the document it returns without the tail. The same reading also lets `end` followed by a name and `;` be taken as a recipe instance (`yparser/bnf.py:257`) inside a recipe or compartment body, where the model stops the body (RoundTrip.StmtRejectsEnd).
- DraftProperties.KeywordAsVariableName: its refusal on the complete side is the model's reading of the keyword exclusion, not what pyparsing does with `yparser/bnf.py:201`.
- Grammar.ParseModelStmt: a list-less `simulator name;` is read as a simulator, and so are the round trips that print one (RoundTrip.SimulatorRoundTrip, RoundTrip.ModelStmtRoundTrip, RoundTrip.ModelRoundTrip, RoundTrip.DocumentRoundTrip). In `bnf.py` the compartment instance is tried first (`yparser/bnf.py:292`) and its leading identifier accepts the keyword, so that input becomes a compartment instance of type `simulator`. `pSimulator` is reached only when a `[` follows the name, so the list is always there.
- Actions.SimulatorFailsWithoutList: describes `add_simulator` taken on its own. Its unguarded `tokens[2]` (`yparser/bnf.py:124`) is a latent defect that no input reaches, for the reason given under Grammar.ParseModelStmt.
- The module-level `xml_` is never cleared between parses, so elements accumulate from one parse to the next. The model starts every parse from an empty document.
- A block whose action ran before a later part of the input failed stays appended to `xml_` in the source. `Parse` returns `None` for such input instead.
- Console output is left out.
- Attributes are a map, so their order is not modelled. A map does keep the last value written for each key, which the model relies on.
- The loop at `yparser/bnf.py:114-118`, whose branch refers to `lxml._Element`, is not modelled. It never runs: `tokens[2:]` is always empty, because `;` is suppressed.
- Comments are single tokens: `/* ... */`, or `//` up to the end of the token.
- Tokens after the model are ignored in the model's reading, as pyparsing's default `parseString` ignores what follows a match. In `bnf.py` they can instead make the parse fail; see the DocumentModel.TrailingTokensIgnored line above.
- The printer is a verification device, not part of the source. It prints every written coefficient and qualifier, and quotes a value that is neither a number nor an identifier.
- DocumentModel.DocumentBuilder.AddModel: keeps only the elements after the name, because the attribute loop of add_model is modelled separately as written (see Findings).

Two consequences of the grammar as written:

- A document needs at least one recipe or compartment before the model (`OneOrMore` at `yparser/bnf.py:299`), not zero or more.
- A coefficient is any digit string, `0` included (`Word(nums)` at `yparser/bnf.py:222`), not a positive integer. See `DraftProperties.ZeroCoefficientAccepted`.

## Findings

| source | as written | input that shows it | evidently intended | confidence | as-written member | corrected member |
|---|---|---|---|---|---|---|
| yparser/bnf.py:100-104 | every token after the model's name that is not an element is indexed as a pair, so the closing `end` sets attribute `e` to `n` | `model m has A a; end` | a model element with only the `name` child and its statements, and no attributes from keywords | high (not executed) | Actions.ModelEndBecomesAttribute | DocumentModel.DocumentBuilder.AddModel |
