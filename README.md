# mathtex in Dafny

mathtex turns TeX-like math notation into a tree of positioned boxes that
are written out as nested HTML elements. This project models its core and
proves properties of that model.

The parser (`mathtex/parser.py`, with `mathtex/util.py` and `mathtex/astree.py`)
is a stack machine:

- It scans each line into tokens: whitespace, `%` comments, `\begin{name}`,
  `\end{name}`, commands, and single characters.
- It keeps one stack that mixes integer markers (BEGIN_CELL, BEGIN_LINE,
  BEGIN_BLOCK, BEGIN_ENV), environment names and AST nodes.
- The closing tokens `}`, `&`, `\\` and `\end` each scan down for the nearest
  marker of their kind. They fold everything above it into one Block, Cell,
  Line or Env node, via `process_sequence`.
- `process_sequence` drops markers and names and glues adjacent Text nodes
  together. It also hands each command node the next `arg_number` raw items.

The symbol table (`mathtex/texcharset.py`) maps command names such as
`alpha` to Greek characters.

The layout part:

- `mathtex/htmlrender.py` lays Text, Block and Cell nodes out left to right:
  - glyph boxes inside a text box;
  - child boxes inside a block box, aligned on a common baseline.
- `mathtex/htmlelement.py` builds the box object itself, and the bracket,
  brace and rule shapes.

Modules:

- `Util`: the reverse scan `last_index`, as a function (`LastMatch`) and as
  the Python loop (`LastIndex`).
- `Astree`: the node record, its six factories and its string form.
- `Tokenizer`: the five regular expressions of `parse_line`, written as
  character tests, and the token each position yields.
- `Reduction`: `process_sequence` as a specification:
  - `Units` splits the items into nodes and hands commands their arguments;
  - `MergeFrom` glues texts.
- `TexCharset`: the `TexCharSet` class with `add`, the 60 entries the module
  body adds, and the lookup the parser calls.
- `Grouping`: every parser transition as a function from the old stack to the
  new one. It also holds the stack invariants and the theorems about whole
  parses.
- `Parser`: the class `MathTexParser`. Each method changes its `stack` field
  as the Python method does and is proved to produce what the matching
  `Grouping` function prescribes.
- `Nesting`: a traced parse showing where the root-shape theorem stops.
- `FontMetric`: the font metrics the layout reads. mathtex/fontmetric.py is
  not part of this model. The metrics are a parameter: a glyph-width
  function and two constants, `height` and `baseline`.
- `HtmlRendering`:
  - the box record of htmlrender.py, modelled as a value;
  - the text and block layouts, as functions, with their properties;
  - the class `HtmlRender`, whose loops are proved equal to those functions.
- `HtmlElements`:
  - the class `HtmlElement` of htmlelement.py, with `update_baseline`,
    `create_brace` and `create_horizontal_line`;
  - Python's substring test `in`;
  - the shape functions of braces and brackets.

Where the code and the design description of the system differ, this model
follows the code:

- A block's height is the largest child height. The design text describes a
  baseline-adjusted height.
- Text width has no kerning, because the code reads only glyph widths.
- Plain top-level text parses to `Env(ROOT_ENV)`, then Line, then Cell, then
  Text. It is not wrapped in a Block.
- Layout exists only for Text, Block and Cell nodes. There is none for
  fractions, grids, scripts or delimiters.

## Model

| member | source | states |
|---|---|---|
| Util.LastMatch | mathtex/util.py:1-5 | the reverse scan's result always lies in -1 .. len-1 |
| Util.LastIndex | mathtex/util.py:1-5 | the counting-down loop with early return yields exactly the last index whose element satisfies the predicate, or -1 |
| Util.LastMatchSpec | mathtex/util.py:2-4 | a non-negative result satisfies the predicate, and no later index does |
| Util.LastMatchIs | mathtex/util.py:1-5 | conversely, an index that satisfies the predicate with no satisfying index after it is the result, so the result is unique |
| Util.LastMatchNone | mathtex/util.py:5 | -1 is returned exactly when no element satisfies the predicate |
| Util.LastMatchSnoc | mathtex/util.py:1-5 | appending one element moves the result to it exactly when it satisfies the predicate |
| Util.LastMatchAfter | mathtex/util.py:1-5 | appending elements that fail the predicate leaves the result unchanged |
| Astree.MarkerCode | mathtex/parser.py:15-18 | the four markers are the integers 1 to 4 |
| Astree.NewNode | mathtex/astree.py:9-15 | a new node has the given tag, no children, empty text, name and command, and arity 0 |
| Astree.BlockNode | mathtex/astree.py:17-21 | a Block node holding exactly the given children, every other field at its default |
| Astree.CellNode | mathtex/astree.py:23-27 | a Cell node holding exactly the given children, every other field at its default |
| Astree.LineNode | mathtex/astree.py:29-33 | a Line node holding exactly the given children, every other field at its default |
| Astree.TextNode | mathtex/astree.py:35-39 | a Text node with the given text and no children |
| Astree.EnvNode | mathtex/astree.py:41-46 | an Env node with the given name and exactly the given children |
| Astree.CommandNode | mathtex/astree.py:48-54 | a Cmd node with the given command and arity and no children |
| Astree.RebuildCanonical | mathtex/astree.py:9-54 | a node is one the factories can build (unused fields at their defaults) exactly when rebuilding it from its own fields gives it back |
| Astree.ShowBrackets | mathtex/astree.py:56-71 | when no text or name holds an angle bracket, `str(node)` holds exactly one `<` and one `>` per node of the tree |
| Astree.JoinBrackets | mathtex/astree.py:57 | the comma-joined children contribute one `<` and one `>` per node they contain |
| Astree.ItemBrackets | mathtex/astree.py:57 | a raw marker or name prints no angle bracket; a node prints one pair per node of its tree |
| Tokenizer.RunEnd | mathtex/parser.py:10-11 | the run found is the longest one starting at the position: every character in it passes the test, the next one does not |
| Tokenizer.EnvMatch | mathtex/parser.py:8-9 | a match is the keyword, a non-empty run of letters (the name) and a closing `}`, ending within the line |
| Tokenizer.NextToken | mathtex/parser.py:37-61 | each token consumes at least one character, and a literal character exactly one |
| Tokenizer.CommandTokenShape | mathtex/parser.py:48-58 | a command is a backslash and then either the longest run of letters or exactly one non-letter, taken only where neither environment pattern matches |
| Tokenizer.CharTokenShape | mathtex/parser.py:56-61 | a literal is never whitespace or `%`, and is a backslash only as the last character of the line |
| Tokenizer.SkippedTokenShape | mathtex/parser.py:10-47 | whitespace and comment tokens start exactly at whitespace and `%`, and a comment stops just before the next newline |
| Tokenizer.TokenCount | mathtex/parser.py:37-61 | a line yields no more tokens than it has characters, so the scan terminates |
| Reduction.ProcessSeqShape | mathtex/parser.py:139-159 | the result holds only nodes, no two of them adjacent Text nodes; the text reads as before gluing; every other node is kept, in order; and each run of text between two non-text nodes stays between those same two nodes, so text is glued only onto the node just before it |
| Reduction.MergeFromRuns | mathtex/parser.py:146-151 | gluing leaves the runs of text between consecutive non-text nodes exactly as plain appending would: text never moves across a command or container node |
| Reduction.UnitsShape | mathtex/parser.py:143-158 | markers and names are dropped: only nodes remain, and no more of them than there were items |
| Reduction.UnitsArity | mathtex/parser.py:152-154 | a command takes at most `arg_number` children, and fewer only at the end of the sequence |
| Reduction.UnitsRoundTrip | mathtex/parser.py:143-158 | for any items, markers and names included, putting each command's children back after it gives exactly what one pass keeps: every item in a command's next `arg_number` slots as it is, markers and names outside those slots dropped, every other node in place. A command's children are thus the raw items right after it, in order. On nodes whose commands have no children yet, this is the input itself |
| Reduction.KeptOwed | mathtex/parser.py:152-154 | the open argument slots take the next items unchanged, as many as are open and as there are left |
| Reduction.KeptNodes | mathtex/parser.py:143-158 | on nodes whose commands have no children yet, the pass drops nothing |
| Reduction.MergeFromText | mathtex/parser.py:146-151 | gluing keeps the concatenated text of the Text nodes |
| Reduction.MergeFromNonTexts | mathtex/parser.py:152-157 | gluing keeps every node that is not a Text node, in order |
| Reduction.MergeFromShape | mathtex/parser.py:146-157 | gluing onto a result of nodes with no adjacent texts keeps it so, and never lengthens it by more than the input |
| Reduction.ProcessSeqPlain | mathtex/parser.py:143-158 | a sequence of Block, Line, Cell and Env nodes passes through unchanged |
| TexCharset.TexCharSet.constructor | mathtex/texcharset.py:9-10 | the dictionary starts empty |
| TexCharset.TexCharSet.Add | mathtex/texcharset.py:12-13 | `add` stores exactly `TexChar(cmd, char, unicode)` under `cmd`, replacing any earlier entry, and leaves every other key as it was |
| TexCharset.BuildTable | mathtex/texcharset.py:16-82 | a fresh set followed by one `add` per entry, in order, leaves the dictionary the entries describe |
| TexCharset.TableOfEntries | mathtex/texcharset.py:12-13 | for entries with distinct names, the keys are exactly those names, each maps to its own entry, and there are as many keys as entries |
| TexCharset.AllLettersDistinct | mathtex/texcharset.py:19-82 | the 60 entries have pairwise distinct command names |
| TexCharset.TexCharsetSize | mathtex/texcharset.py:19-82 | the table has 60 keys: 24 small letters, 24 capitals and 12 variants |
| TexCharset.TexCharsetEntries | mathtex/texcharset.py:19-82 | every entry is stored under its own command name, and its character's code point equals its `unicode` field |
| TexCharset.EntryLookup | mathtex/texcharset.py:19-82 | looking up any of the 60 commands gives that entry's character |
| TexCharset.GetChar | mathtex/parser.py:113-114 | the lookup gives a character exactly when the command is a key, and then that entry's character |
| TexCharset.TexCharsetLookups | mathtex/texcharset.py:19-82 | `alpha` gives α, `lamda` gives λ, `Omega` gives Ω |
| TexCharset.LambdaIsNotAKey | mathtex/texcharset.py:29 | `lambda` is not a key, because the table spells it `lamda` |
| Grouping.BeginEnvStep | mathtex/parser.py:63-65 | `begin_env` pushes the name and then BEGIN_ENV on top of the old stack, and keeps every environment named |
| Grouping.BeginParseStep | mathtex/parser.py:77-78 | the root frame `[ROOT_ENV, BEGIN_ENV]` satisfies both stack invariants |
| Grouping.CellKeep | mathtex/parser.py:97-102 | `end_cell` keeps the stack below the nearest cell, line or environment marker, dropping that marker only when it is BEGIN_CELL |
| Grouping.CellTail | mathtex/parser.py:98-105 | what `end_cell` pushes starts with the Cell node of the reduced items and holds no BEGIN_ENV |
| Grouping.EndCellShape | mathtex/parser.py:96-105 | `end_cell` leaves the kept stack, one Cell node, and a fresh BEGIN_CELL only when asked |
| Grouping.LineKeep | mathtex/parser.py:86-91 | closing a line keeps the stack below the nearest line or environment marker, dropping that marker only when it is BEGIN_LINE |
| Grouping.LineTail | mathtex/parser.py:87-94 | what closing a line pushes starts with the Line node and holds no BEGIN_ENV |
| Grouping.CloseLineShape | mathtex/parser.py:86-94 | closing a line leaves the kept stack, one Line node, and a fresh BEGIN_LINE only when asked |
| Grouping.CloseEnv | mathtex/parser.py:69-75 | closing an environment keeps every remaining BEGIN_ENV named |
| Grouping.EndEnvStep | mathtex/parser.py:67-75 | after `end_env` the stack is non-empty, keeps every environment named, and ends with an Env node, or with a Line node when no environment was open |
| Grouping.FeedToken | mathtex/parser.py:37-61 | no token breaks the invariant that a name lies right below every BEGIN_ENV |
| Grouping.FeedTokenCases | mathtex/parser.py:42-61 | whitespace and comments leave the stack alone, and each other kind of token performs its own transition |
| Grouping.FeedAll | mathtex/parser.py:37-61 | feeding tokens keeps every environment named |
| Grouping.Feed | mathtex/parser.py:33-61 | `parse_line` keeps every environment named |
| Grouping.FeedLines | mathtex/parser.py:33-61 | feeding any number of lines keeps every environment named |
| Grouping.FeedAllAppend | mathtex/parser.py:33-61 | feeding two token runs one after the other is feeding their concatenation |
| Grouping.ParseResult | mathtex/parser.py:80-82 | `end_parse` returns an Env node, or a Line node when no environment was left open |
| Grouping.ParseDocument | mathtex/parser.py:77-82 | any document parses to an Env or a Line node |
| Grouping.EndCellEnvNamed | mathtex/parser.py:96-105 | `end_cell` keeps every environment named |
| Grouping.EndLineEnvNamed | mathtex/parser.py:84-94 | `end_line` keeps every environment named |
| Grouping.DoCharEnvNamed | mathtex/parser.py:122-137 | `do_char` keeps every environment named |
| Grouping.DoCommandEnvNamed | mathtex/parser.py:107-117 | `do_command` keeps every environment named |
| Grouping.CellsAboveLine | mathtex/parser.py:96-105 | after `end_cell(False)` only Cell nodes lie above the nearest line or environment marker |
| Grouping.NewLineOfCells | mathtex/parser.py:87-88 | the Line node built over closed cells is made of Cell nodes |
| Grouping.LinesAboveEnv | mathtex/parser.py:84-94 | after closing a line over closed cells, only Lines made of Cells lie above the nearest BEGIN_ENV |
| Grouping.EndCellFramed | mathtex/parser.py:96-105 | `end_cell` keeps the stack framed: only closed cells below each BEGIN_CELL, only lines of cells below each BEGIN_LINE |
| Grouping.CloseLineFramed | mathtex/parser.py:86-94 | closing a line over closed cells keeps the stack framed |
| Grouping.EndLineFramed | mathtex/parser.py:84-94 | `end_line` keeps the stack framed |
| Grouping.CloseEnvFramed | mathtex/parser.py:69-75 | closing an environment keeps the stack framed |
| Grouping.EndEnvFramed | mathtex/parser.py:67-75 | `end_env` keeps the stack framed |
| Grouping.DoCharFramed | mathtex/parser.py:122-137 | `do_char` keeps the stack framed |
| Grouping.DoCommandFramed | mathtex/parser.py:107-117 | `do_command` keeps the stack framed |
| Grouping.BeginEnvFramed | mathtex/parser.py:63-65 | `begin_env` keeps the stack framed |
| Grouping.FeedTokenFramed | mathtex/parser.py:37-61 | every token keeps the stack framed |
| Grouping.FeedAllFramed | mathtex/parser.py:37-61 | any run of tokens keeps the stack framed |
| Grouping.FeedAllInEnv | mathtex/parser.py:37-61 | inside an open environment, tokens that open and close no environment leave the environment open and the stack below it untouched |
| Grouping.CloseEnvInEnv | mathtex/parser.py:69-75 | closing an environment whose lines are closed replaces it by one Env node, named by its `\begin`, whose children are Lines of Cells |
| Grouping.EnvClose | mathtex/parser.py:67-105 | `end_env` inside an open environment leaves the stack below it and one Env node of Lines of Cells on top |
| Grouping.EnvOpen | mathtex/parser.py:63-65 | `begin_env` on a framed stack opens an environment on top of it |
| Grouping.EnvGroupSplit | mathtex/parser.py:48-55 | a group is fed as `begin_env`, then the inner tokens, then `end_env` |
| Grouping.EnvGroup | mathtex/parser.py:63-75 | `\begin{name}` … `\end{other}` with no environment inside becomes one Env node of Lines of Cells named `name`, on top of the old stack; `other` plays no part |
| Grouping.FeedLinesInvariants | mathtex/parser.py:33-61 | lines without environments keep the root environment open and the stack framed |
| Grouping.RootShape | mathtex/parser.py:67-105 | a document whose lines open and close no environment parses to the Env node `ROOT_ENV` whose children are all Lines whose children are all Cells, whatever its braces, `&` and `\\` |
| Grouping.CloseBrace | mathtex/parser.py:123-131 | `}` changes nothing exactly when there is no open BEGIN_BLOCK; otherwise the marker and everything above it become one Block node |
| Grouping.BracedText | mathtex/parser.py:122-151 | `{`, plain characters, `}` push exactly one Block holding one Text node with those characters |
| Grouping.ProcessTextItems | mathtex/parser.py:146-151 | single-character Text nodes reduce to one Text node holding all the characters in order |
| Grouping.MergeTextItems | mathtex/parser.py:146-151 | gluing single-character texts onto a text appends their characters |
| Grouping.FeedPlainChars | mathtex/parser.py:136-137 | plain characters each push a one-character Text node |
| Grouping.CommandArity | mathtex/parser.py:107-133 | `frac` takes 2 arguments, `sqrt`, `boldsymbol`, `left`, `right` and a bare `_` or `^` take 1, a table command becomes its character as a Text node, and any other command takes 0 |
| Grouping.LambdaCommand | mathtex/parser.py:113-117 | `\lambda` becomes a command node without arguments, and `\lamda` the Text node λ |
| Grouping.DoCommandAsWritten | mathtex/parser.py:107-117 | as written, `do_command` succeeds exactly for `\\` and the arity table, and then agrees with the intended transition |
| Grouping.GreekLetterFails | mathtex/parser.py:113 | `\alpha` fails as written, where the intended lookup pushes the Text node α |
| Nesting.UnframedResult | mathtex/parser.py:80-105 | when no marker is left on the stack, `end_parse` returns a Line node |
| Nesting.SeparateCells | mathtex/parser.py:96-135 | `&` inside a brace inside an environment folds the brace's BEGIN_BLOCK marker into the new cell |
| Nesting.CloseOuterBrace | mathtex/parser.py:125-131 | the next `}` then closes the outer brace, taking the environment's BEGIN_ENV with it |
| Nesting.PlainCharToken | mathtex/parser.py:42-61 | a character that is not whitespace, `%` or a backslash is scanned as a literal token of its own |
| Nesting.DocBegin | mathtex/parser.py:48-51 | in `{\begin{x}{a&b}\end{x}}`, the scanner reads `\begin{x}` at position 1 and resumes at position 10 |
| Nesting.DocEnd | mathtex/parser.py:48-55 | in the same line, the `\begin` pattern fails at position 15 and `\end{x}` is read there, resuming at position 22 |
| Nesting.FeedFrom | mathtex/parser.py:37-61 | feeding the tokens from a position on is applying the token there and then feeding from where that token ends |
| Nesting.EnvInBraceEscapes | mathtex/parser.py:67-131 | the one-line document `{\begin{x}{a&b}\end{x}}` balances its braces and its environments, yet `begin_parse`, `parse_line` and `end_parse` yield a Line node rather than the root Env node |
| Parser.MathTexParser.constructor | mathtex/parser.py:30-31 | the stack starts empty |
| Parser.MathTexParser.ParseLine | mathtex/parser.py:33-61 | the scanning loop leaves the stack that feeding the line's tokens in order prescribes |
| Parser.MathTexParser.BeginEnv | mathtex/parser.py:63-65 | the stack becomes `begin_env`'s transition of the old one |
| Parser.MathTexParser.EndEnv | mathtex/parser.py:67-75 | the stack becomes `end_env`'s transition of the old one |
| Parser.MathTexParser.EnvClosed | mathtex/parser.py:69-75 | the folding half of `end_env` computes exactly the closed-environment stack |
| Parser.MathTexParser.BeginParse | mathtex/parser.py:77-78 | the stack becomes the root frame, whatever it was |
| Parser.MathTexParser.EndParse | mathtex/parser.py:80-82 | the stack becomes `end_env`'s transition, and the node returned is the top of it |
| Parser.MathTexParser.EndLine | mathtex/parser.py:84-94 | the stack becomes `end_line`'s transition of the old one |
| Parser.MathTexParser.LineClosed | mathtex/parser.py:86-94 | the folding half of `end_line` computes exactly the closed-line stack |
| Parser.MathTexParser.EndCell | mathtex/parser.py:96-105 | the stack becomes `end_cell`'s transition of the old one |
| Parser.MathTexParser.CellClosed | mathtex/parser.py:97-105 | the slicing and appending of `end_cell` computes exactly the closed-cell stack |
| Parser.MathTexParser.DoCommand | mathtex/parser.py:107-117 | the stack becomes the intended `do_command` transition of the old one |
| Parser.MathTexParser.PushCommand | mathtex/parser.py:119-120 | exactly one command node with the given arity is pushed |
| Parser.MathTexParser.DoChar | mathtex/parser.py:122-137 | the stack becomes `do_char`'s transition of the old one |
| Parser.MathTexParser.BlockClosed | mathtex/parser.py:125-131 | the `}` branch computes exactly the closed-block stack |
| Parser.MathTexParser.ProcessSequence | mathtex/parser.py:139-159 | the index loop with gluing and argument skipping computes exactly the reduction `ProcessSeq` |
| HtmlRendering.TextChildren | mathtex/htmlrender.py:39-49 | a text box holds one child per character, in order, each carrying its character, the font size, y = 0 and its start position |
| HtmlRendering.TextTiling | mathtex/htmlrender.py:39-49 | neighbouring characters are one glyph width and one margin apart, and the box ends one glyph width after its last character starts |
| HtmlRendering.TextXMonotone | mathtex/htmlrender.py:39-49 | with non-negative glyph widths, margin and font size, character positions never decrease |
| HtmlRendering.GlyphSumMono | mathtex/htmlrender.py:48 | with non-negative glyph widths, the summed width of a prefix grows with the prefix |
| HtmlRendering.TextWidthSplit | mathtex/htmlrender.py:35-48 | the text width is the scaled glyph widths plus one scaled margin between each pair of neighbours |
| HtmlRendering.TextStepWidth | mathtex/htmlrender.py:40-48 | one iteration places the glyph where the width so far (plus a margin after the first) ends, and grows the width by that glyph |
| HtmlRendering.TextStep | mathtex/htmlrender.py:39-49 | one iteration turns the box of a prefix into the box of the prefix one character longer |
| HtmlRendering.BlockTiling | mathtex/htmlrender.py:57-67 | neighbouring children are one width and one margin apart, and the block ends with its last child |
| HtmlRendering.MaxHeightIsMax | mathtex/htmlrender.py:55-64 | a block's height is at least 0 and every child's height, and equals 0 or some child's height |
| HtmlRendering.MaxBaselineIsMax | mathtex/htmlrender.py:56-66 | a block's baseline is at least 0 and every child's baseline, and equals 0 or some child's baseline |
| HtmlRendering.BlockAligned | mathtex/htmlrender.py:57-70 | every child of a block has y + baseline equal to the block's baseline and y ≥ 0, starts at its prefix position and keeps its size |
| HtmlRendering.BlockStepWidth | mathtex/htmlrender.py:58-67 | one iteration places the child where the width so far (plus a margin after the first) ends, and grows the width by the child's |
| HtmlRendering.BlockStepMax | mathtex/htmlrender.py:63-66 | one iteration updates the height and baseline as running maxima |
| HtmlRendering.BlockStep | mathtex/htmlrender.py:57-68 | one iteration turns the block of the first children into the block of one more child |
| HtmlRendering.RenderItem | mathtex/htmlrender.py:25-31 | whatever `render` returns has a width and a height |
| HtmlRendering.BlockResult | mathtex/htmlrender.py:52-71 | whatever `render_block` returns has a width and a height |
| HtmlRendering.RenderAll | mathtex/htmlrender.py:57-68 | rendering a child list gives one sized box per child, or nothing |
| HtmlRendering.RenderAllAt | mathtex/htmlrender.py:60 | each box of a rendered list is the rendering of the child at the same position |
| HtmlRendering.RenderAllPrefixNone | mathtex/htmlrender.py:60-63 | once one child cannot be rendered, no longer list of children can be |
| HtmlRendering.RenderSomeIff | mathtex/htmlrender.py:25-31 | `render` produces a box exactly for Text nodes and for Block and Cell nodes all of whose children can be rendered |
| HtmlRendering.RenderAllSomeIff | mathtex/htmlrender.py:57-68 | a child list renders exactly when every child can be rendered |
| HtmlRendering.HtmlRender.constructor | mathtex/htmlrender.py:19-23 | no element list, no margin between characters, and a line height equal to the font's |
| HtmlRendering.HtmlRender.Render | mathtex/htmlrender.py:25-31 | the dispatch returns exactly the box that `RenderItem` specifies |
| HtmlRendering.HtmlRender.RenderText | mathtex/htmlrender.py:33-50 | the loop builds exactly the specified text box; with the constructor's line height, its baseline is the font's baseline at this size |
| HtmlRendering.HtmlRender.RenderBlock | mathtex/htmlrender.py:52-71 | the two loops build exactly the specified block box, or nothing when a child cannot be rendered |
| HtmlRendering.HtmlRender.Align | mathtex/htmlrender.py:69-70 | the second loop sets every child's y to the block's baseline less the child's own |
| HtmlElements.ContainsIff | mathtex/htmlelement.py:46-58 | Python's `a in b` on strings holds exactly when `a` occurs at some index of `b` |
| HtmlElements.ContainsWitness | mathtex/htmlelement.py:46-58 | a successful substring test has found an occurrence |
| HtmlElements.ContainsFinds | mathtex/htmlelement.py:46-58 | every occurrence makes the substring test succeed |
| HtmlElements.ContainsChar | mathtex/htmlelement.py:46-58 | for one character, the substring test is plain membership |
| HtmlElements.ContainsEmpty | mathtex/htmlelement.py:46-58 | the empty string passes every substring test |
| HtmlElements.LeftIffOpening | mathtex/htmlelement.py:46-47 | a one-character brace is drawn on the left exactly when it is `(`, `[` or `{` |
| HtmlElements.BraceKinds | mathtex/htmlelement.py:48-58 | the bracket branch is taken exactly for `(`, `[`, `]`, `)`, the curly one exactly for `{`, `}`, and rounding exactly for `(`, `)` |
| HtmlElements.BracketClassOf | mathtex/htmlelement.py:46-53 | a bracket's class is its side, then `-bracket`, then `-rounded` for parentheses only |
| HtmlElements.ClassSide | mathtex/htmlelement.py:47-64 | every part's class starts with `left` for a left brace and `right` otherwise |
| HtmlElements.PartsTile | mathtex/htmlelement.py:65-67 | the four parts of a curly brace, each a quarter of its height, stack from 0 to the full height without gap or overlap |
| HtmlElements.PartsMirror | mathtex/htmlelement.py:60-66 | left and right offsets sum to a quarter em at each part, and each side is symmetric top to bottom |
| HtmlElements.EmptyBrace | mathtex/htmlelement.py:46-50 | the empty string passes every test, so it is drawn as a left, rounded bracket |
| HtmlElements.HtmlElement.constructor | mathtex/htmlelement.py:6-16 | the box is a `div` with the given position, size, font size, text and class, baseline 0 and no children |
| HtmlElements.HtmlElement.UpdateBaseline | mathtex/htmlelement.py:39-42 | the baseline becomes (h − font height × size) / 2 + font baseline × size, where h is `pseudo_height` or else the box's height; nothing else changes |
| HtmlElements.HtmlElement.CreateBrace | mathtex/htmlelement.py:44-70 | nothing exactly when the brace occurs in neither `([])` nor `{}`. Otherwise a new box at the origin, with its baseline centred. A bracket is 0.25 wide with one part as tall as the box, carrying the bracket class. A curly brace is 0.5 wide with four distinct new parts `<side>-brace0` … `<side>-brace3`, each a quarter of the height, at their offsets |
| HtmlElements.HtmlElement.NewBracket | mathtex/htmlelement.py:50-57 | the bracket branch builds a new 0.25-wide box with one new part of the given class and the box's height |
| HtmlElements.HtmlElement.NewCurly | mathtex/htmlelement.py:58-70 | the curly loop builds a new 0.5-wide box with four distinct new parts, part i of class `<side>-brace<i>` at its offsets |
| HtmlElements.HtmlElement.NewPart | mathtex/htmlelement.py:62-67 | part i has its class, y = i/4 × height, x from the left or right offsets × 0.25, and a quarter of the height |
| HtmlElements.HtmlElement.CreateHorizontalLine | mathtex/htmlelement.py:72-74 | a new leaf with the given x, y and width, class `hline`, and no height or text |

## Left out

- Python object identity is not modelled:
  - AST nodes are values. `process_sequence` mutates nodes in place
    (`last_node.text +=`, `node.children =`). Each node on the stack is
    created once and referenced once, so this equals building a new node.
  - The render boxes of htmlrender.py are values, so the model does not
    capture the aliasing of the `child.x`/`child.y` updates. Each child box
    is fresh and owned by one parent.
- The regular expressions are written as character tests. `\s` is the set
  `str.isspace` accepts. No regular-expression engine is modelled.
- Widths, heights and baselines are exact reals. IEEE-754 rounding is not
  modelled.
- `FONT_METRICS`: mathtex/fontmetric.py is not part of this model. The
  metrics are a parameter, and `get_glyph(c).width` is the function
  `glyphWidth`.
- `HtmlElement.to_html` (htmlelement.py) is left out. It is string
  serialisation through Python's float formatting.
- `HtmlRender.html_elements` is left out: no method reads it.
- HtmlRendering.HtmlRender: `char_margin` and `line_height` are `const`
  fields set by the constructor. Python lets callers reassign them, and the
  class does not model that. The layout functions take any margin and line
  height through their `Settings` argument, so they cover those values.
- The box record's `name` field (always `"div"`) is left out of htmlrender's
  boxes, because only `to_html` reads it.
- mathtex/markdown.py, mathtex/mdextension.py, demo/demo.py and
  tools/FontMetrics are left out. They are Markdown glue, CSS and file I/O.
- Parser.MathTexParser.ParseLine, EndEnv, EndParse: these require that a
  name lies right below every BEGIN_ENV marker (`EnvNamed`). Every stack the
  parser builds satisfies this, because `BeginParseStep` and `FeedToken`
  prove it is kept. The model therefore leaves out `end_env` on a
  hand-built stack whose BEGIN_ENV has no name below it.
- HtmlRendering.RenderItem: Python fails with AttributeError in two cases:
  - `render` is given a raw marker or name;
  - `render_block` meets a child that rendered to None.

  Both cases return None here, so the model does not tell that exception
  apart from `render`'s own None result.
- HtmlElements.HtmlElement.UpdateBaseline: this requires a height. With
  neither `pseudo_height` nor `self.height`, Python raises TypeError, and
  that path is not modelled.
- HtmlElements.HtmlElement.CreateBrace: a `brace` that is not a string is
  not modelled. The empty string is modelled, and is drawn as a left,
  rounded bracket (`EmptyBrace`).
- Grouping.RootShape: this is proved for documents whose lines contain no
  `\begin` or `\end`, with any braces, `&` and `\\`. It is weaker than
  "balanced braces and environments yield the root Env node", because that
  claim is false. `Nesting.EnvInBraceEscapes` proves that
  `{\begin{x}{a&b}\end{x}}` parses to a Line node.
- Layout for commands, environments, lines, fractions, scripts and
  delimiters is left out, because mathtex/htmlrender.py has none. `render`
  returns no box for those nodes (`RenderSomeIff`).

## Findings

| source | as written | input that shows it | evidently intended | confidence | as-written member | corrected member |
|---|---|---|---|---|---|---|
| mathtex/parser.py:113 | `do_command` calls `TEX_CHARSET.get_char(cmd)`, but `TexCharSet` (mathtex/texcharset.py:8-13) defines no `get_char`. Every command outside `\\` and the arity table raises AttributeError. | `\alpha` | look the command up and push its character as a Text node when it is a key, else a command node without arguments | not executed | Grouping.DoCommandAsWritten, Grouping.GreekLetterFails | TexCharset.GetChar, Grouping.DoCommandStep |
