# Turing-machine simulator core, modelled in Dafny

This project models the core of a browser-based Turing-machine simulator:

- the **parser** (`src/utils/turingMachineParser.ts`) reads the structured program text. That text has `input:`, `blank:` and `start state:` directives, a `table:` marker, state headers `name:` and rule lines `sym: {write: w, L: next}` / `[a,b]: {R: next}`. The parser collects the rules into a map from state to a symbol-keyed object. It then flattens that map into an ordered list of transitions, with an initial tape and a start state;
- the **engine** (`initialize` and `step` in `src/pages/Simulator.tsx`) loads a parsed table and then moves the head one step at a time. Each step finds the first matching transition, writes, moves left (clamped at cell 0), moves right (growing the tape with a blank) or stays, and halts on `N` or on entering the state `done`;
- the **state graph** (`src/components/simulator/StateGraph.tsx`) collects the distinct states in order of first appearance. It groups transitions by their (source, target) pair into labelled edges, marks the edges leaving the current state as active, and picks out the final states;
- the **tape window** (`src/components/simulator/TuringMachine.tsx`) shows nine cells around the head, padded with blanks, and points at the head inside them.

Modules:

| file | module | what it holds |
|---|---|---|
| `wrappers.dfy` | `Wrappers` | `Option` |
| `text.dfy` | `Text` | JavaScript string helpers: `trim`, `split`, `join`, `startsWith`/`endsWith`, and the character classes used by the regular expressions (`\s`, `\w`) |
| `ordered.dfy` | `Ordered` | JavaScript insertion-ordered dictionaries: a `Map` keyed by state, and a plain object keyed by symbol. Includes the object's own-key order (array-index keys first, ascending; then the other keys in insertion order) and the inert `__proto__` assignment |
| `parser.dfy` | `Parser` | `parseStructuredSyntax`, `processTransition` and `parseStateTable`, each as a specification function plus a method that mirrors the source's loops |
| `engine.dfy` | `Engine` | the simulator state as a class `Simulator` whose methods `Initialize`, `Step` and `Reset` are proved against the pure transition functions `Initialized` and `Stepped`, and whose `ToggleRun` flips only the running flag |
| `default_program.dfy` | `DefaultProgram` | the built-in binary-increment program traced step by step: `1011` becomes `1100` |
| `state_graph.dfy` | `Graph` | the graph derivation: `Set` insertion order, grouping by edge, labels, active edges, final states |
| `tape_view.dfy` | `TapeView` | the nine-cell tape window |

Integers are unbounded; the source only counts steps and tape positions, which never approach a JavaScript number's precision limit in this program, so no wrap-around is modelled.

## Model

| member | source | states |
|---|---|---|
| Text.Trim | src/utils/turingMachineParser.ts:65 | `String.prototype.trim`: the result is no longer than the input |
| Text.TrimTrims | src/utils/turingMachineParser.ts:65 | a trimmed line neither starts nor ends with white space |
| Text.TrimIsInfix | src/utils/turingMachineParser.ts:65 | trimming removes only white space, and only at the two ends: the input is some all-space prefix, the result, and some all-space suffix |
| Text.TrimmedAway | src/utils/turingMachineParser.ts:65 | names the all-space prefix and suffix that trimming removes |
| Text.TrimOfTrimmed | src/utils/turingMachineParser.ts:65 | trimming is idempotent: an already trimmed line is returned unchanged |
| Text.TrimSpacePrefix | src/utils/turingMachineParser.ts:34-38 | white space in front of a text does not survive `trim` |
| Text.StartsWith | src/utils/turingMachineParser.ts:68 | `startsWith`: the text begins with the prefix; the line kinds it selects are stated by `Parser.Classify` |
| Text.EndsWith | src/utils/turingMachineParser.ts:95 | `endsWith`: the text ends with the suffix; the state-header test it serves is stated by `Parser.Classify` |
| Text.IndexFrom | src/utils/turingMachineParser.ts:37 | the first position at or after `i` holding the separator, or the end |
| Text.SpanEnd | src/utils/turingMachineParser.ts:34 | the end of the longest run of characters of one class from `i`, the way a greedy regular-expression repetition stops |
| Text.SpanEndExact | src/utils/turingMachineParser.ts:34 | any position that ends such a run is the one `SpanEnd` returns |
| Text.SkipSpaces | src/utils/turingMachineParser.ts:72 | `\s*`: everything skipped is white space and the next character is not |
| Text.SplitOn | src/utils/turingMachineParser.ts:24 | `String.prototype.split` on one character: at least one part, no part contains the separator |
| Text.SplitFrom | src/utils/turingMachineParser.ts:24 | the same for the text from position `i` |
| Text.SplitJoin | src/utils/turingMachineParser.ts:24 | splitting loses nothing: joining the parts with the separator gives the text back |
| Text.SplitFromJoin | src/utils/turingMachineParser.ts:24 | the same round trip from position `i` |
| Text.SplitPair | src/utils/turingMachineParser.ts:37 | two comma-free pieces around one comma split into exactly those two pieces |
| Text.Join | src/components/simulator/StateGraph.tsx:55 | `Array.prototype.join`; its shape is stated by `JoinCons`, `JoinSnoc` and the round trip `SplitJoin` |
| Text.JoinCons | src/components/simulator/StateGraph.tsx:53-55 | `Array.prototype.join` puts the separator between the first part and the rest |
| Text.JoinSnoc | src/components/simulator/StateGraph.tsx:53-55 | joining one more part appends the separator and then that part |
| Text.SliceAround | src/utils/turingMachineParser.ts:24 | a suffix splits around any position inside it, the step by which split pieces are joined back |
| Text.Chars | src/utils/turingMachineParser.ts:166 | `Array.from` on the input string: one single-character cell per character, in order |
| Ordered.KeyIndexFrom | src/utils/turingMachineParser.ts:49 | the first entry at or after `i` with the key, or the end |
| Ordered.KeyIndex | src/utils/turingMachineParser.ts:49 | the first entry with the key, or the length when no entry has it |
| Ordered.KeyIndexExact | src/utils/turingMachineParser.ts:49 | any position that is the first with the key is the one `KeyIndex` returns |
| Ordered.SameKeysSameIndex | src/utils/turingMachineParser.ts:55 | replacing values without changing keys keeps every key's position |
| Ordered.Find | src/utils/turingMachineParser.ts:49 | `Map.has`/`get`: a value is found exactly when some entry has the key, and the found pair is an entry |
| Ordered.FindListed | src/utils/turingMachineParser.ts:55 | with distinct keys, an entry's value is what lookup returns |
| Ordered.Put | src/utils/turingMachineParser.ts:50 | `Map.set`: a new key is appended at the end; an existing key keeps its position and every key stays where it was |
| Ordered.PutFind | src/utils/turingMachineParser.ts:50 | after `set`, the key reads back the new value and every other key reads what it did before |
| Ordered.PutKeepsKeysUnique | src/utils/turingMachineParser.ts:50 | `set` never creates a second entry for a key |
| Ordered.Assign | src/utils/turingMachineParser.ts:55 | `obj[k] = v` on a plain object, inert for `__proto__`; its outcome is stated by `AssignFind` |
| Ordered.AssignFind | src/utils/turingMachineParser.ts:55 | assigning a property: the key then reads the rule, except that assigning `__proto__` stores no own property; other keys are unchanged |
| Ordered.IsArrayIndex | src/utils/turingMachineParser.ts:139 | the keys `Object.entries` lists first: canonical decimal integers below 2^32 - 1; their order is stated by `IndexEntries` and `OwnEntriesOrder` |
| Ordered.InsertByIndex | src/utils/turingMachineParser.ts:139 | inserting an array-index key keeps the index keys in ascending numeric order and adds exactly that entry |
| Ordered.InsertedAfterHead | src/utils/turingMachineParser.ts:139 | the insertion step behind a key larger than the first stays sorted and a permutation |
| Ordered.IndexEntries | src/utils/turingMachineParser.ts:139 | the array-index keys of an object, ascending, are exactly its entries with such keys |
| Ordered.NamedEntries | src/utils/turingMachineParser.ts:139 | the other keys: exactly the entries without an array-index key, none listed more often than in the object |
| Ordered.NamedEntriesSnoc | src/utils/turingMachineParser.ts:139 | the non-index keys keep insertion order: an entry added last is listed last, or not at all when its key is an array index |
| Ordered.OwnEntries | src/utils/turingMachineParser.ts:139 | `Object.entries`: index entries then named entries; its outcomes are `OwnEntriesSamePairs`, `OwnEntriesMember`, `OwnEntriesOrder` and `OwnEntriesPermutation` |
| Ordered.OwnEntriesSamePairs | src/utils/turingMachineParser.ts:139 | `Object.entries` lists every own property exactly once: the same multiset of pairs |
| Ordered.OwnEntriesMember | src/utils/turingMachineParser.ts:139 | a pair is listed by `Object.entries` exactly when it is a property |
| Ordered.OwnEntriesOrder | src/utils/turingMachineParser.ts:139 | `Object.entries` lists the ascending array-index keys first, then only non-index keys |
| Ordered.OwnEntriesPermutation | src/utils/turingMachineParser.ts:139 | index entries and named entries together are a permutation of the object |
| Parser.QuotedAt | src/utils/turingMachineParser.ts:72 | a match of `key\s*['"]([^'"]*)['"]` at position `i` has exactly that shape, and the value is the text between the quotes |
| Parser.QuotedAtComplete | src/utils/turingMachineParser.ts:72 | every text of that shape at `i` is matched, with that value |
| Parser.SearchQuoted | src/utils/turingMachineParser.ts:72 | the regular-expression search: a result is the match at the leftmost matching position from `i`, no earlier position matching; no result means no position matches |
| Parser.QuotedValue | src/utils/turingMachineParser.ts:72-73 | a quoted value contains no quote character |
| Parser.QuotedDirective | src/utils/turingMachineParser.ts:71-82 | `input: "v"` and `blank: 'v'` (any spaces, either quote, any trailing text) yield exactly `v` |
| Parser.StartStateAt | src/utils/turingMachineParser.ts:86 | a match of `start state:\s*(\w+)` at `i` has that shape, with the longest run of word characters |
| Parser.SearchStartState | src/utils/turingMachineParser.ts:86 | the search: a result is the match at the leftmost matching position, no earlier position matching; no result means no position matches |
| Parser.StartStateValue | src/utils/turingMachineParser.ts:86-87 | a start state found is a non-empty run of word characters |
| Parser.StartStateDirective | src/utils/turingMachineParser.ts:85-87 | `start state: name` followed by a non-word character or the end yields exactly `name` |
| Parser.TokenAfterSpaces | src/utils/turingMachineParser.ts:41-42 | `\s*([^,}\s]+)`: a token found is the whole run of characters other than comma, `}` and white space right after the spaces; none exactly when no such character follows them |
| Parser.TokenAfterSpacesComplete | src/utils/turingMachineParser.ts:41-42 | wherever spaces and such a run stand, the pattern captures exactly that run |
| Parser.TokenUntrimmed | src/utils/turingMachineParser.ts:46-47 | a captured token is already trimmed, so `.trim()` leaves it as it is |
| Parser.WriteAt | src/utils/turingMachineParser.ts:41 | `write:\s*([^,}\s]+)` at `i`: a match starts with `write:` and captures a token |
| Parser.WriteAtShape | src/utils/turingMachineParser.ts:41 | the value captured is the whole token after `write:` and its spaces |
| Parser.WriteAtComplete | src/utils/turingMachineParser.ts:41 | every `write:` followed by spaces and a token is matched, with that token |
| Parser.FirstWrite | src/utils/turingMachineParser.ts:41 | the search: the leftmost position from `i` where `write:` matches, with no match before it, or a position past the end when none matches |
| Parser.FirstWriteAt | src/utils/turingMachineParser.ts:41 | a match with no match before it is the one the search finds |
| Parser.WriteClause | src/utils/turingMachineParser.ts:41-47 | the write option, when present, is such a token, and it is present exactly when some position matches |
| Parser.MoveOf | src/utils/turingMachineParser.ts:45 | `moveMatch[1] as 'L' \| 'R' \| 'N'`: each letter names its own move, and no two letters the same one |
| Parser.MoveAt | src/utils/turingMachineParser.ts:42-45 | `([LRN]):\s*([^,}\s]+)` at `i`: the letter there is `L`, `R` or `N` and a colon follows; the move is that letter's and the next state is a token |
| Parser.MoveAtShape | src/utils/turingMachineParser.ts:42 | the next state captured is the whole token after the colon and its spaces |
| Parser.MoveAtComplete | src/utils/turingMachineParser.ts:42-45 | every letter, colon, spaces and token is matched, with that letter's move and that token |
| Parser.FirstMove | src/utils/turingMachineParser.ts:42 | the search: the leftmost position from `i` where the move pattern matches, with no match before it, or a position past the end when none matches |
| Parser.FirstMoveAt | src/utils/turingMachineParser.ts:42 | a match with no match before it is the one the search finds |
| Parser.MoveClause | src/utils/turingMachineParser.ts:42-46 | the move option, when present, names a token next state, and it is present exactly when some position matches |
| Parser.TrimAll | src/utils/turingMachineParser.ts:37 | `map(s => s.trim())`: one trimmed symbol per listed symbol |
| Parser.BracketClose | src/utils/turingMachineParser.ts:34 | `\[([^\]]+)\]:`: a result is the first `]`, enclosing at least one character and followed by `:`; no result exactly when no such bracket group starts the line |
| Parser.OptionsAfter | src/utils/turingMachineParser.ts:34-38 | `:\s*(.*)` then `trim`: a trimmed text; with no line break after the colon, the trimmed rest of the line |
| Parser.OptionsReachEnd | src/utils/turingMachineParser.ts:34-38 | without a line break `(.*)` reaches the end of the line, and the spaces skipped before it do not survive `trim` |
| Parser.SkippedSpaces | src/utils/turingMachineParser.ts:34-38 | white space skipped after the colon does not change the trimmed options |
| Parser.RuleHeadOf | src/utils/turingMachineParser.ts:34-38 | a bracket group yields its comma-separated pieces, trimmed, and the options after `]:`; otherwise the trimmed text before the first colon is the one symbol and the options follow that colon; no head exactly when there is neither a bracket group nor a colon after the first character |
| Parser.RuleFor | src/utils/turingMachineParser.ts:44-59 | the stored rule has the matched move, the trimmed next state (the token itself), and exactly the write value the options carry |
| Parser.AssignEach | src/utils/turingMachineParser.ts:54-60 | assigning the rule symbol by symbol keeps the state's object present |
| Parser.WithState | src/utils/turingMachineParser.ts:49-51 | after the `has`/`set` guard the state has an object, and an existing object is kept as it was |
| Parser.WithStateKeeps | src/utils/turingMachineParser.ts:49-51 | the guard leaves every other state untouched |
| Parser.AssignEachKeepsOtherStates | src/utils/turingMachineParser.ts:54-60 | assigning symbols of one state leaves every other state untouched |
| Parser.ListsSnoc | src/utils/turingMachineParser.ts:54 | a symbol is listed by a longer list exactly when it is listed earlier or is the last one |
| Parser.AssignEachSymbol | src/utils/turingMachineParser.ts:54-60 | after the loop, every listed symbol except `__proto__` maps to the rule and every other symbol keeps its old rule |
| Parser.RuleLineOutcome | src/utils/turingMachineParser.ts:49-60 | the same, for the guard followed by the loop |
| Parser.RuleLineKeepsOtherStates | src/utils/turingMachineParser.ts:31-62 | a rule line changes only the current state's object |
| Parser.TransitionLineEffect | src/utils/turingMachineParser.ts:31-62 | the effect of `processTransition` on the map; its outcomes are the `…RuleLine…` lemmas |
| Parser.HeadEffect | src/utils/turingMachineParser.ts:44-60 | the effect once the rule head is known: nothing without a move option, else the guard and the loop |
| Parser.RuleLineWithoutMove | src/utils/turingMachineParser.ts:35-44 | a line that does not match the rule pattern, or has no move option, changes nothing |
| Parser.MoveClauseAfter | src/utils/turingMachineParser.ts:42-45 | a move clause after text that holds none is the one found, with its letter's move and its token |
| Parser.WriteClauseFirst | src/utils/turingMachineParser.ts:41 | options opening with `{write: w` and a token `w` yield the write value `w` |
| Parser.NoWriteClause | src/utils/turingMachineParser.ts:41 | options with no colon from the sixth character on have no write value |
| Parser.WriteMoveOptions | src/utils/turingMachineParser.ts:41-47 | `{write: w, M: next}` yields write `w`, the move of `M` and next state `next` |
| Parser.MoveOptions | src/utils/turingMachineParser.ts:41-47 | `{M: next}` yields no write, the move of `M` and next state `next` |
| Parser.PlainRuleHead | src/utils/turingMachineParser.ts:34-38 | `sym: options` yields the one symbol `sym`, trimmed, and the options text |
| Parser.BracketRuleHead | src/utils/turingMachineParser.ts:34-38 | `[list]: options` yields the comma-separated pieces of the list, trimmed, and the options text |
| Parser.WriteRuleLine | src/utils/turingMachineParser.ts:31-60 | `sym: {write: w, M: next}` in a state assigns the rule (write `w`, move `M`, next `next`) to `sym` in that state's object, created if missing |
| Parser.MoveRuleLine | src/utils/turingMachineParser.ts:31-60 | `sym: {M: next}` assigns the rule with no write, move `M` and next `next` to `sym` |
| Parser.BracketRuleLine | src/utils/turingMachineParser.ts:31-60 | `[list]: {write: w, M: next}` assigns the same rule to every trimmed piece of the list |
| Parser.PairRuleLine | src/utils/turingMachineParser.ts:31-60 | `[a, b]: {write: w, M: next}` assigns the rule to `a` and to `b` |
| Parser.AssignSymbols | src/utils/turingMachineParser.ts:54-60 | the `for … of` loop computes `AssignEach` |
| Parser.ProcessTransition | src/utils/turingMachineParser.ts:31-62 | `processTransition` computes the line's effect on the map |
| Parser.Classify | src/utils/turingMachineParser.ts:68-103 | the loop's tests in order: exactly comments and empty lines are skipped; a line is a state header exactly when it is no earlier kind, ends with `:` and has no `{`, and it names the trimmed text before the colon; a rule line is exactly a line of neither kind that holds `{` or `[` |
| Parser.InitialScan | src/utils/turingMachineParser.ts:25-29 | the loop's starting values `right`, `_`, `""`, an empty map and no current state; what survives of them is stated by `DefaultsWithoutDirectives` |
| Parser.Run | src/utils/turingMachineParser.ts:64-104 | the line loop as a left fold; stated by `RunAppend`, `RunSnoc` and `RunWithoutInertLine` |
| Parser.ScanFrom | src/utils/turingMachineParser.ts:64-104 | the line loop with `LineEffect` as its body; stated by `ScanAppend`, `InertLineIgnored` and `SettingsOnlyFromDirectives` |
| Parser.RunAppend | src/utils/turingMachineParser.ts:64-104 | scanning two blocks of lines is scanning the first, then the second from where it left off |
| Parser.ScanAppend | src/utils/turingMachineParser.ts:64-104 | the same for the parser's own line step |
| Parser.RunWithoutInertLine | src/utils/turingMachineParser.ts:64-104 | a line that leaves the scan state as it is can be dropped from the program |
| Parser.InertLine | src/utils/turingMachineParser.ts:68-103 | comments, blank lines, `table:` and unrecognised lines change nothing |
| Parser.InertLineIgnored | src/utils/turingMachineParser.ts:64-104 | removing such a line anywhere in the program does not change the parse |
| Parser.HeaderSetsState | src/utils/turingMachineParser.ts:95-98 | a state header changes only the current state, to the trimmed name before the colon |
| Parser.TransitionsChangeOnlyOnRuleLines | src/utils/turingMachineParser.ts:101-103 | the map changes only on a rule line under a state header that matches the rule pattern and has a move option |
| Parser.LineEffect | src/utils/turingMachineParser.ts:64-66 | one loop iteration on the raw line: trim, then classify |
| Parser.TrimmedLineEffect | src/utils/turingMachineParser.ts:68-103 | one loop iteration on the trimmed line, by its kind |
| Parser.StructuredSyntax | src/utils/turingMachineParser.ts:23-112 | `parseStructuredSyntax` as the fold of the line step over the lines; its outcomes are the scan lemmas above |
| Parser.SettingsOnlyFromDirectives | src/utils/turingMachineParser.ts:70-89 | lines that are not directives never change the start state, blank or input |
| Parser.DefaultsWithoutDirectives | src/utils/turingMachineParser.ts:25-27 | a program without directives starts in `right`, with blank `_` and empty input |
| Parser.RunSnoc | src/utils/turingMachineParser.ts:64 | scanning one more line is one more loop iteration |
| Parser.ParseLine | src/utils/turingMachineParser.ts:65-103 | one loop iteration computes the line's effect |
| Parser.ParseStructuredSyntax | src/utils/turingMachineParser.ts:23-112 | `parseStructuredSyntax` computes the fold of the line step over the split lines |
| Parser.KeyParts | src/utils/turingMachineParser.ts:141 | a key without a comma is its own single read symbol; a key with commas gives one trimmed read symbol per comma-separated piece |
| Parser.MakeTransition | src/utils/turingMachineParser.ts:144-158 | an empty read symbol becomes the blank; the write defaults to the read symbol; state, next state and move come from the rule |
| Parser.ConcatSnoc | src/utils/turingMachineParser.ts:137 | flattening one more entry appends that entry's transitions |
| Parser.ConcatMember | src/utils/turingMachineParser.ts:137-163 | a transition is in the flattened list exactly when some entry produced it |
| Parser.StatesTransitions | src/utils/turingMachineParser.ts:137-163 | the flattened list, state by state in map order; its membership is `RuleFlattened` and `TransitionFromRule` |
| Parser.StateTableOf | src/utils/turingMachineParser.ts:117-176 | `parseStateTable` as a function of the program text |
| Parser.InitialTape | src/utils/turingMachineParser.ts:166-167 | the tape is the input's characters, or `1011` when the input is empty; never empty |
| Parser.PartsTransitionsMember | src/utils/turingMachineParser.ts:143-161 | one transition per read symbol, and exactly the ones built from the symbols |
| Parser.PartsTransitionsAt | src/utils/turingMachineParser.ts:143-158 | the transition pushed at position `k` is the one built from the `k`-th read symbol |
| Parser.CommaKeyTransitions | src/utils/turingMachineParser.ts:141-158 | a comma-joined key gives one transition per piece, at least two, each built from the trimmed piece, all with the rule's state, next state and move |
| Parser.RuleFlattened | src/utils/turingMachineParser.ts:137-163 | every rule of every state yields a transition for each of its read symbols |
| Parser.TransitionFromRule | src/utils/turingMachineParser.ts:137-163 | every transition comes from some rule of some state and one of its read symbols |
| Parser.PushRule | src/utils/turingMachineParser.ts:141-161 | the inner loop appends exactly the rule's transitions |
| Parser.PushState | src/utils/turingMachineParser.ts:139-162 | the `Object.entries` loop appends exactly the state's transitions |
| Parser.ParseStateTable | src/utils/turingMachineParser.ts:117-176 | `parseStateTable` computes the flattened table of the parsed program |
| Engine.SymbolAt | src/pages/Simulator.tsx:91 | `tape[head] \|\| '_'`: the cell under the head, or the blank when it is missing or empty; never empty |
| Engine.Matches | src/pages/Simulator.tsx:94 | the `find` callback: same state and same read symbol; the search it drives is stated by `FirstMatchFrom` and `StepUsesFirstRule` |
| Engine.FirstMatchFrom | src/pages/Simulator.tsx:94 | the first transition at or after `i` for the state and symbol, or none matching at all |
| Engine.FirstMatch | src/pages/Simulator.tsx:94 | `Array.prototype.find`: the first matching transition, with no earlier match; none when nothing matches |
| Engine.Initialized | src/pages/Simulator.tsx:50-70 | what `initialize` makes of the machine; its outcomes are `InitializeStarts` and `InitializeWithoutTransitions` |
| Engine.Writes | src/pages/Simulator.tsx:107 | a rule writes unless its write symbol is empty or `R` |
| Engine.Halts | src/pages/Simulator.tsx:134 | a rule halts on an `N` move or on entering `done` |
| Engine.TapeAfter | src/pages/Simulator.tsx:105-126 | the tape after a step: as long as before or one cell longer, that cell being a blank, and every cell but the head's unchanged |
| Engine.HeadAfter | src/pages/Simulator.tsx:116-130 | the head after a step moves at most one cell |
| Engine.Applied | src/pages/Simulator.tsx:105-138 | the machine after running a found rule; its outcomes are the `StepWritesOneCell`, `LeftMoveClamps`, `RightMoveGrows`, `StayKeepsPlace` and `StepHalts` lemmas |
| Engine.Stepped | src/pages/Simulator.tsx:82-139 | what `step` makes of the machine; its outcomes are the `Step…` and `HaltedStaysPut` lemmas |
| Engine.InitializeStarts | src/pages/Simulator.tsx:50-70 | with transitions, the machine loads them, the initial tape, head 0, the start state, step 0, not halted, no error |
| Engine.InitializeWithoutTransitions | src/pages/Simulator.tsx:51-65 | without transitions only the error, step counter and halt flag are reset; tape, head and state are kept |
| Engine.InitializeKeepsHeadOnTape | src/pages/Simulator.tsx:50-70 | after loading a parsed program the head is on the tape |
| Engine.InitializeIdempotent | src/pages/Simulator.tsx:50-76 | initializing twice is initializing once |
| Engine.StepKeepsHeadOnTape | src/pages/Simulator.tsx:82-139 | a step keeps the head on the tape |
| Engine.HaltedStaysPut | src/pages/Simulator.tsx:87-90 | a halted machine does not change |
| Engine.NoMatchOnlyReports | src/pages/Simulator.tsx:95-100 | with no matching transition only the error is set and running stops |
| Engine.StepUsesFirstRule | src/pages/Simulator.tsx:94-138 | the step applies the first transition that matches the state and the symbol read |
| Engine.StepAdvances | src/pages/Simulator.tsx:114-131 | a step enters the transition's next state and counts one more step |
| Engine.StepWritesOneCell | src/pages/Simulator.tsx:105-126 | a step writes at most the head's cell (not for an empty or `R` write symbol), keeps every other cell, and may only append a blank |
| Engine.LeftMoveClamps | src/pages/Simulator.tsx:117-119 | a left move goes one cell left but never past cell 0, and keeps the tape length |
| Engine.RightMoveGrows | src/pages/Simulator.tsx:120-126 | a right move goes one cell right; the tape grows by one blank exactly when the head was on its last cell |
| Engine.StepHalts | src/pages/Simulator.tsx:127-138 | the machine halts exactly on an `N` move or on entering `done`, and then stops running |
| Engine.StayKeepsPlace | src/pages/Simulator.tsx:127-130 | an `N` move neither moves the head nor grows the tape, and halts the machine |
| Engine.Steps | src/pages/Simulator.tsx:142-149 | any number of steps keeps the head on the tape |
| Engine.HaltedRunStaysPut | src/pages/Simulator.tsx:87-90 | once halted, any number of further steps change nothing |
| Engine.RunCountsSteps | src/pages/Simulator.tsx:131 | `n` steps advance the step counter by at most `n` |
| Engine.Simulator.constructor | src/pages/Simulator.tsx:37-47 | the initial component state: the default program and an empty, unloaded machine |
| Engine.Simulator.SetStateTable | src/pages/Simulator.tsx:176-177 | editing the program changes only the program text |
| Engine.Simulator.Initialize | src/pages/Simulator.tsx:50-76 | `initialize` moves the machine to `Initialized` of the parsed program |
| Engine.Simulator.Start | src/pages/Simulator.tsx:62-69 | loading a parsed table moves the machine to `Initialized` of that table |
| Engine.Simulator.Step | src/pages/Simulator.tsx:82-139 | `step` moves the machine to `Stepped` and keeps the head on the tape |
| Engine.Simulator.Apply | src/pages/Simulator.tsx:105-138 | applying a transition moves the machine to `Applied` |
| Engine.Simulator.Reset | src/pages/Simulator.tsx:222-224 | reset initializes and stops running |
| Engine.Simulator.ToggleRun | src/pages/Simulator.tsx:228 | the run button flips only the running flag, and is disabled once halted |
| DefaultProgram.Started | src/pages/Simulator.tsx:13-35 | loading the default program: tape `1011`, head 0, state `right` |
| DefaultProgram.ScansRight | src/pages/Simulator.tsx:19-22 | the first three steps move right over the digits, keeping the tape |
| DefaultProgram.GrowsTape | src/pages/Simulator.tsx:120-126 | the fourth step moves past the last digit and appends a blank |
| DefaultProgram.TurnsAtBlank | src/pages/Simulator.tsx:22 | on the blank it turns left into `carry` |
| DefaultProgram.Carries | src/pages/Simulator.tsx:26 | `carry` turns the trailing ones into zeros, moving left |
| DefaultProgram.TakesCarry | src/pages/Simulator.tsx:27 | `carry` on a zero writes one and enters `done`, which halts the machine |
| DefaultProgram.IncrementsBinary | src/pages/Simulator.tsx:12-35 | the default program adds one to binary `1011`: after eight steps the tape reads `1100_`, halted in `done` without error |
| DefaultProgram.StaysHalted | src/pages/Simulator.tsx:87-90 | after it halts, further steps change nothing |
| Graph.FirstIndex | src/components/simulator/StateGraph.tsx:27-31 | the first position of an element present in the list |
| Graph.Dedup | src/components/simulator/StateGraph.tsx:27-31 | a `Set` built by `add` in order; its outcome is stated by `DedupSpec` |
| Graph.DedupSpec | src/components/simulator/StateGraph.tsx:27-31 | a `Set` built by `add` holds each element once, exactly the elements added, ordered by first insertion |
| Graph.DedupMembers | src/components/simulator/StateGraph.tsx:27-31 | the set holds exactly the elements added |
| Graph.DedupDistinct | src/components/simulator/StateGraph.tsx:27-31 | the set holds no element twice |
| Graph.DedupOrder | src/components/simulator/StateGraph.tsx:27-31 | consecutive elements of the set are in the order of their first insertion |
| Graph.FirstIndexAppend | src/components/simulator/StateGraph.tsx:29-30 | adding a later element does not change where an earlier one first appears |
| Graph.OrderAppend | src/components/simulator/StateGraph.tsx:29-30 | one more `add` keeps the set ordered by first insertion |
| Graph.FirstIndexExact | src/components/simulator/StateGraph.tsx:27-31 | any position that is an element's first occurrence is the one `FirstIndex` returns |
| Graph.Endpoints | src/components/simulator/StateGraph.tsx:28-31 | the states visited by the loop: each transition's source, then its target |
| Graph.StatesOf | src/components/simulator/StateGraph.tsx:27-31 | the drawn states; `StatesOfSpec` states what they are |
| Graph.StatesOfSpec | src/components/simulator/StateGraph.tsx:27-31 | the graph's states are distinct, are exactly the sources and targets of the transitions, and are ordered by first appearance |
| Graph.StatesOfSnoc | src/components/simulator/StateGraph.tsx:28-31 | one more transition adds its source and then its target |
| Graph.Pairs | src/components/simulator/StateGraph.tsx:37 | each transition's (source, target) pair, in order |
| Graph.Keys | src/components/simulator/StateGraph.tsx:46-47 | each group's (source, target) pair, in order |
| Graph.GroupIndex | src/components/simulator/StateGraph.tsx:38 | the position of the group for a pair, or the end when there is none |
| Graph.AddToGroup | src/components/simulator/StateGraph.tsx:38-41 | one iteration of the grouping loop; `AddToGroupKeys` and `AddToGroupMembers` state its effect |
| Graph.GroupsOf | src/components/simulator/StateGraph.tsx:34-42 | the edge map after the loop; `GroupsOfSpec` states what it holds |
| Graph.Between | src/components/simulator/StateGraph.tsx:36-42 | the transitions from one state to another, exactly |
| Graph.GroupsOfSpec | src/components/simulator/StateGraph.tsx:34-42 | the edge map has one group per distinct pair, in order of first appearance, and each holds exactly that pair's transitions in order |
| Graph.TransitionOnOneEdge | src/components/simulator/StateGraph.tsx:34-42 | every transition is on exactly one edge, the one for its own pair |
| Graph.AddToGroupKeys | src/components/simulator/StateGraph.tsx:38-41 | pushing a transition adds its pair as a new key only if it was absent |
| Graph.PairsSnoc | src/components/simulator/StateGraph.tsx:36-37 | one more transition adds its pair |
| Graph.GroupsKeys | src/components/simulator/StateGraph.tsx:34-42 | the map's keys are the distinct pairs in order of first appearance |
| Graph.BetweenSnoc | src/components/simulator/StateGraph.tsx:41 | one more transition is appended to its own pair's group only |
| Graph.BetweenNone | src/components/simulator/StateGraph.tsx:38-40 | a pair no transition has has no transitions |
| Graph.AddToGroupMembers | src/components/simulator/StateGraph.tsx:38-41 | pushing a transition keeps every group equal to its pair's transitions |
| Graph.NewGroupMembers | src/components/simulator/StateGraph.tsx:38-41 | the same when the pair is new |
| Graph.OldGroupMembers | src/components/simulator/StateGraph.tsx:41 | the same when the pair already has a group |
| Graph.GroupsMembers | src/components/simulator/StateGraph.tsx:34-42 | every group holds exactly its pair's transitions |
| Graph.EdgesOf | src/components/simulator/StateGraph.tsx:45-57 | one edge per group, in the map's order |
| Graph.EdgeLabelSpec | src/components/simulator/StateGraph.tsx:53-55 | an edge's label is the labels of its transitions joined by `, `: empty for none, a lone transition's own label, and each further transition adds `, ` and its label |
| Graph.MoveNameOf | src/components/simulator/StateGraph.tsx:54 | a move read from the letter `L`, `R` or `N` is drawn as that same letter |
| Graph.RuleLabel | src/components/simulator/StateGraph.tsx:53-54 | one transition's label `read→write,move` |
| Graph.EdgeLabel | src/components/simulator/StateGraph.tsx:53-55 | an edge's label; `EdgeLabelSpec` states it |
| Graph.EdgeOf | src/components/simulator/StateGraph.tsx:46-56 | the edge drawn for a group; `EdgeOfSpec` states it |
| Graph.IsActive | src/components/simulator/StateGraph.tsx:52 | an edge is highlighted when it leaves the current state |
| Graph.EdgeOfSpec | src/components/simulator/StateGraph.tsx:47-56 | an edge keeps its group's pair and transitions, is active exactly when it leaves the current state, and a single rule is labelled `read→write,move` |
| Graph.HasNoMovingRule | src/components/simulator/StateGraph.tsx:79-81 | the negated `some`: every transition out of the state has move `N`; the filter it drives is stated by `FinalStates` and `NoRulesFinal` |
| Graph.IsStartState | src/components/simulator/StateGraph.tsx:168 | the start marker is drawn exactly on the state named `q0`; `DefaultStartUnmarked` states what that means for the default start state |
| Graph.DefaultStartUnmarked | src/components/simulator/StateGraph.tsx:168 | a program without a `start state:` directive starts in `right`, and that node does not get the start marker |
| Graph.FinalStates | src/components/simulator/StateGraph.tsx:78-81 | a state is final exactly when it is a state and has no transition out of it that moves |
| Graph.NoRulesFinal | src/components/simulator/StateGraph.tsx:78-81 | a state with no outgoing transitions is final |
| Graph.StateGraph.constructor | src/components/simulator/StateGraph.tsx:18-19 | the graph starts with no states and no edges |
| Graph.StateGraph.Refresh | src/components/simulator/StateGraph.tsx:23-58 | the effect keeps the graph when there are no transitions; otherwise it sets the states and the grouped, labelled edges |
| Graph.StateGraph.Finals | src/components/simulator/StateGraph.tsx:78-81 | the final states among the graph's states |
| Graph.CollectStates | src/components/simulator/StateGraph.tsx:27-31 | the `Set` loop computes the ordered distinct states |
| Graph.GroupAll | src/components/simulator/StateGraph.tsx:35-42 | the `Map` loop computes the groups |
| Graph.MakeEdges | src/components/simulator/StateGraph.tsx:45-57 | the `forEach` loop computes the edges |
| TapeView.Slice | src/components/simulator/TuringMachine.tsx:16 | `slice` with clamped ends: the cells from `from`, stopping at `to` or at the tape's end |
| TapeView.StartIndex | src/components/simulator/TuringMachine.tsx:13-15 | the first cell shown is at most four cells left of the head and never before cell 0 |
| TapeView.CellAt | src/components/simulator/TuringMachine.tsx:16-21 | a window cell: the tape cell there, or a blank past the end |
| TapeView.VisibleTape | src/components/simulator/TuringMachine.tsx:12-21 | exactly nine cells: the tape cells from the start index, then blanks past the end |
| TapeView.AdjustedHead | src/components/simulator/TuringMachine.tsx:24 | the head's offset in the window is the head itself near the start, else 4; always inside the window |
| TapeView.HeadCellShown | src/components/simulator/TuringMachine.tsx:15-35 | the highlighted cell is the one under the head |
| TapeView.WindowFollowsHead | src/components/simulator/TuringMachine.tsx:13-15 | the window starts at cell 0 while the head is on the first five cells, then moves with the head, keeping it in the middle cell |
| TapeView.DisplayCell | src/components/simulator/TuringMachine.tsx:42 | a blank is drawn empty, any other cell as itself |

## Left out

- Logging: the debug log (`addToDebugLog`, `Simulator.tsx:77-79` and its calls) and the parser's `console.log` calls only write text.
- Error text: the engine keeps the kind of failure (`NoTransitions`, `NoMatch(state, symbol)`) instead of the formatted message.
- The unreachable `catch` (`Simulator.tsx:72-75`): the parser cannot throw on any string, so no error path is modelled for it.
- The `Array.isArray(t.readSymbol)` branch (`Simulator.tsx:94`): the parser only produces string read symbols, so a transition matches on string equality.
- Timing: the run timer (`Simulator.tsx:142-149`), the speed slider and first-load initialization are left out. A run is modelled as repeated calls of the pure step function, `Engine.Steps`.
- React: the hooks' batched, deferred updates and stale closures are left out. Every handler is one atomic update of the `Simulator` object. For example, `Step` writes the tape once, with the blank appended, where the source calls `setTape` twice and the second call wins.
- `Engine.Simulator.ToggleRun`: models the button, which is disabled once halted, so it requires a machine that has not halted.
- JavaScript arrays with holes: `Engine.Simulator.Valid` keeps the head on the tape whenever transitions are loaded, so no hole is created. Reading beyond the tape's end, which the source handles with `|| '_'`, is still modelled by `Engine.SymbolAt`.
- Strings are sequences of Unicode characters. `Array.from` (`turingMachineParser.ts:166`) splits by code point, and surrogate pairs are not modelled separately.
- Regular expressions are modelled by the hand-written matchers in `Parser`. `\s` is the set of white-space characters listed in `Text.IsSpace`, and `\w` is ASCII letters, digits and `_`.
- `DefaultProgram`: the parse of the default program text is stated as the literal table it produces, not derived from `Engine.DefaultExample` by `Parser.StateTableOf`. The trace lemmas start from that table.
- Graph layout: the circular layout, the Bézier paths and the SVG drawing (`StateGraph.tsx:60-74`, `84-120`, `122-205`) compute floating-point positions only.
- Edge keys: the source keys the edge map by the string `source->target` and splits it back on `->`. The model keys groups by the (source, target) pair, so a state name that itself contains `->` is not modelled.
- `Graph.StatesOfSpec`, `Graph.DedupOrder`: state the first-insertion order of the set for each pair of consecutive elements. The order of any two elements follows by transitivity but is not stated as its own lemma.
- Start-state marking: `IsStartState` (`StateGraph.tsx:168`) is a comparison with the constant `q0`; its only lemma is `DefaultStartUnmarked`.
- The landing page, tutorial and chatbot are not part of this model.
