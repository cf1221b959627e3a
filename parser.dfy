/** The rule-table parser of src/utils/turingMachineParser.ts.

    `ParseStructuredSyntax` scans the text line by line: the directives `input:`, `blank:` and
    `start state:`, the `table:` marker, state headers ending in `:`, and rule lines
    `sym: {write: x, L|R|N: next}` or `[a, b]: {...}`. It builds a `Map` from state to a plain
    object from symbol to rule. `ParseStateTable` flattens that map into the transition list the
    simulator runs, filling in the defaults. Every regular expression of the source is written
    out as explicit scanning with the same captures and the same leftmost-match rule. */
module Parser {
  import opened Wrappers
  import opened Text
  import opened Ordered

  datatype Move = L | R | N

  /** `TransitionRule`: `write` is absent when the rule line has no `write:` clause. */
  datatype Rule = Rule(write: Option<string>, move: Move, nextState: string)

  /** `StateTransitions`: a plain object from symbol to rule. */
  type StateTransitions = Dict<Rule>

  /** The `Map<string, StateTransitions>` of `TuringMachineConfig`. */
  type TransitionMap = Dict<StateTransitions>

  /** `TuringMachineConfig`. */
  datatype Config = Config(initialState: string, blank: string, input: string, transitions: TransitionMap)

  /** One entry of the flattened transition list. */
  datatype Transition = Transition(
    currentState: string, readSymbol: string, nextState: string, writeSymbol: string, moveDirection: Move)

  /** What `parseStateTable` returns. */
  datatype StateTable = StateTable(transitions: seq<Transition>, initialTape: seq<string>, initialState: string)

  // ---------------------------------------------------------------------------------------
  // The directive patterns  /input:\s*['"]([^'"]*)['"]/,  /blank:\s*['"]([^'"]*)['"]/
  // and  /start state:\s*(\w+)/
  // ---------------------------------------------------------------------------------------

  predicate NoQuote(v: string)
  {
    forall k :: 0 <= k < |v| ==> !IsQuote(v[k])
  }

  /** From position `i`, `line` holds `key`, white space up to `j`, a quote, the quote-free
      `v` and another quote. */
  predicate QuotedShapeAt(line: string, key: string, i: nat, j: nat, v: string)
  {
    && i + |key| <= j && j + |v| + 1 < |line|
    && line[i..i + |key|] == key
    && AllSpace(line[i + |key|..j])
    && IsQuote(line[j])
    && line[j + 1..j + 1 + |v|] == v
    && IsQuote(line[j + 1 + |v|])
    && NoQuote(v)
  }

  /** The pattern `key\s*['"]([^'"]*)['"]` tried at position `i`; the capture on success. */
  function QuotedAt(line: string, key: string, i: nat): (r: Option<string>)
    ensures r.Some? ==> i + |key| <= |line| && QuotedShapeAt(line, key, i, SkipSpaces(line, i + |key|), r.value)
  {
    if i + |key| <= |line| && line[i..i + |key|] == key then
      var j := SkipSpaces(line, i + |key|);
      if j < |line| && IsQuote(line[j]) then
        var k := SpanEnd(line, j + 1, NotQuote);
        if k < |line| then Some(line[j + 1..k]) else None
      else None
    else None
  }

  /** A match of the quoted pattern is found wherever its shape occurs: the capture is unique. */
  lemma QuotedAtComplete(line: string, key: string, i: nat, j: nat, v: string)
    requires QuotedShapeAt(line, key, i, j, v)
    ensures QuotedAt(line, key, i) == Some(v)
  {
    assert !IsSpace(line[j]);
    SpanEndExact(line, i + |key|, j, Space);
    assert forall k :: j + 1 <= k < j + 1 + |v| ==> line[k] == v[k - (j + 1)];
    SpanEndExact(line, j + 1, j + 1 + |v|, NotQuote);
  }

  /** `String.prototype.match` of the quoted pattern: the leftmost position from `i` on where it
      matches. */
  function SearchQuoted(line: string, key: string, i: nat): (r: Option<string>)
    ensures r.Some? ==>
      exists p :: i <= p <= |line| && QuotedAt(line, key, p) == r && forall q :: i <= q < p ==> QuotedAt(line, key, q).None?
    ensures r.None? ==> forall p :: i <= p <= |line| ==> QuotedAt(line, key, p).None?
    decreases |line| + 1 - i
  {
    if i > |line| then None
    else
      var m := QuotedAt(line, key, i);
      if m.Some? then m else SearchQuoted(line, key, i + 1)
  }

  /** The value of an `input:` or `blank:` directive, when the line carries one. */
  function QuotedValue(line: string, key: string): (r: Option<string>)
    ensures r.Some? ==> NoQuote(r.value)
  {
    SearchQuoted(line, key, 0)
  }

  /** A directive written as `key`, white space, a quote, a quote-free value, a quote and
      anything after yields exactly that value; either quote character may open or close it. */
  lemma {:induction false} QuotedDirective(key: string, space: string, open: char, v: string, close: char, rest: string)
    requires AllSpace(space) && IsQuote(open) && IsQuote(close) && NoQuote(v)
    ensures QuotedValue(key + space + [open] + v + [close] + rest, key) == Some(v)
  {
    var line := key + space + [open] + v + [close] + rest;
    var j := |key| + |space|;
    assert line[..|key|] == key;
    assert line[|key|..j] == space;
    assert line[j + 1..j + 1 + |v|] == v;
    QuotedAtComplete(line, key, 0, j, v);
  }

  predicate AllWordChars(v: string)
  {
    forall k :: 0 <= k < |v| ==> IsWordChar(v[k])
  }

  const StartStateKey: string := "start state:"

  /** From position `i`, `line` holds `start state:`, white space up to `j`, then the longest
      non-empty run `v` of word characters. */
  predicate WordShapeAt(line: string, i: nat, j: nat, v: string)
  {
    && i + |StartStateKey| <= j && j + |v| <= |line|
    && line[i..i + |StartStateKey|] == StartStateKey
    && AllSpace(line[i + |StartStateKey|..j])
    && v != [] && AllWordChars(v)
    && line[j..j + |v|] == v
    && (j + |v| == |line| || !IsWordChar(line[j + |v|]))
  }

  /** The pattern `start state:\s*(\w+)` tried at position `i`. */
  function StartStateAt(line: string, i: nat): (r: Option<string>)
    ensures r.Some? ==> i + |StartStateKey| <= |line| && WordShapeAt(line, i, SkipSpaces(line, i + |StartStateKey|), r.value)
  {
    if i + |StartStateKey| <= |line| && line[i..i + |StartStateKey|] == StartStateKey then
      var j := SkipSpaces(line, i + |StartStateKey|);
      var k := SpanEnd(line, j, Word);
      if k > j then Some(line[j..k]) else None
    else None
  }

  /** The search for `start state:\s*(\w+)`: the leftmost position from `i` where it matches. */
  function SearchStartState(line: string, i: nat): (r: Option<string>)
    ensures r.Some? ==>
      exists p :: i <= p <= |line| && StartStateAt(line, p) == r && forall q :: i <= q < p ==> StartStateAt(line, q).None?
    ensures r.None? ==> forall p :: i <= p <= |line| ==> StartStateAt(line, p).None?
    decreases |line| + 1 - i
  {
    if i > |line| then None
    else
      var m := StartStateAt(line, i);
      if m.Some? then m else SearchStartState(line, i + 1)
  }

  /** The value of a `start state:` directive: only the leading run of word characters. */
  function StartStateValue(line: string): (r: Option<string>)
    ensures r.Some? ==> r.value != [] && AllWordChars(r.value)
  {
    SearchStartState(line, 0)
  }

  /** `start state:`, white space, a run of word characters and then anything that does not
      continue the run yields exactly that run. */
  lemma {:induction false} StartStateDirective(space: string, v: string, rest: string)
    requires AllSpace(space) && v != [] && AllWordChars(v)
    requires rest == [] || !IsWordChar(rest[0])
    ensures StartStateValue(StartStateKey + space + v + rest) == Some(v)
  {
    var line := StartStateKey + space + v + rest;
    var j := |StartStateKey| + |space|;
    assert line[..|StartStateKey|] == StartStateKey;
    assert line[|StartStateKey|..j] == space;
    assert line[j..j + |v|] == v;
    assert !IsSpace(line[j]) by {
      assert line[j] == v[0];
    }
    SpanEndExact(line, |StartStateKey|, j, Space);
    assert forall k :: j <= k < j + |v| ==> line[k] == v[k - j];
    assert j + |v| < |line| ==> line[j + |v|] == rest[0];
    SpanEndExact(line, j, j + |v|, Word);
  }

  // ---------------------------------------------------------------------------------------
  // The option patterns  /write:\s*([^,}\s]+)/  and  /([LRN]):\s*([^,}\s]+)/
  // ---------------------------------------------------------------------------------------

  predicate IsToken(v: string)
  {
    v != [] && forall k :: 0 <= k < |v| ==> IsTokenChar(v[k])
  }

  /** A token has no white space, so `trim` leaves it as it is. */
  lemma TokenUntrimmed(v: string)
    ensures IsToken(v) ==> Trim(v) == v
  {
    if IsToken(v) {
      TrimOfTrimmed(v);
    }
  }

  /** From `i`, `s` holds white space up to `j` and then the longest non-empty run `v` of
      `[^,}\s]` characters. */
  predicate TokenShapeAt(s: string, i: nat, j: nat, v: string)
  {
    && i <= j && j + |v| <= |s|
    && AllSpace(s[i..j])
    && IsToken(v)
    && s[j..j + |v|] == v
    && (j + |v| == |s| || !IsTokenChar(s[j + |v|]))
  }

  /** `\s*([^,}\s]+)` at `i`: the spaces are skipped, then the whole run of token characters is
      captured; there is no match when no token character follows the spaces. */
  function TokenAfterSpaces(s: string, i: nat): (r: Option<string>)
    requires i <= |s|
    ensures r.Some? ==> IsToken(r.value)
    ensures r.Some? ==> TokenShapeAt(s, i, SkipSpaces(s, i), r.value)
    ensures r.None? <==> SkipSpaces(s, i) == |s| || !IsTokenChar(s[SkipSpaces(s, i)])
  {
    var j := SkipSpaces(s, i);
    var k := SpanEnd(s, j, Token);
    if k > j then Some(s[j..k]) else None
  }

  /** Wherever the shape occurs, it is what the pattern captures. */
  lemma TokenAfterSpacesComplete(s: string, i: nat, j: nat, v: string)
    requires TokenShapeAt(s, i, j, v)
    ensures TokenAfterSpaces(s, i) == Some(v)
  {
    assert s[j] == v[0];
    SpanEndExact(s, i, j, Space);
    assert forall k :: j <= k < j + |v| ==> s[k] == v[k - j];
    SpanEndExact(s, j, j + |v|, Token);
  }

  const WriteKey: string := "write:"

  /** The pattern `write:\s*([^,}\s]+)` tried at position `i`. */
  function WriteAt(options: string, i: nat): (r: Option<string>)
    ensures r.Some? ==> i + |WriteKey| <= |options| && options[i..i + |WriteKey|] == WriteKey
    ensures r.Some? ==> IsToken(r.value)
  {
    if i + |WriteKey| <= |options| && options[i..i + |WriteKey|] == WriteKey
    then TokenAfterSpaces(options, i + |WriteKey|)
    else None
  }

  /** A match captures the whole token after `write:` and its spaces. */
  lemma WriteAtShape(options: string, i: nat)
    requires WriteAt(options, i).Some?
    ensures TokenShapeAt(options, i + |WriteKey|, SkipSpaces(options, i + |WriteKey|), WriteAt(options, i).value)
  {
  }

  lemma WriteAtComplete(options: string, i: nat, j: nat, v: string)
    requires i + |WriteKey| <= |options| && options[i..i + |WriteKey|] == WriteKey
    requires TokenShapeAt(options, i + |WriteKey|, j, v)
    ensures WriteAt(options, i) == Some(v)
  {
    TokenAfterSpacesComplete(options, i + |WriteKey|, j, v);
  }

  /** The search for `write:\s*([^,}\s]+)`: the leftmost position from `i` where it matches,
      or a position past the end when there is none. */
  function FirstWrite(options: string, i: nat): (p: nat)
    ensures i <= p
    ensures p <= |options| ==> WriteAt(options, p).Some?
    ensures forall q :: i <= q < p && q <= |options| ==> WriteAt(options, q).None?
    decreases |options| + 1 - i
  {
    if i > |options| || WriteAt(options, i).Some? then i else FirstWrite(options, i + 1)
  }

  /** A match with no match before it is the one the search finds. */
  lemma FirstWriteAt(options: string, i: nat, p: nat)
    requires i <= p <= |options| && WriteAt(options, p).Some?
    requires forall q :: i <= q < p ==> WriteAt(options, q).None?
    ensures FirstWrite(options, i) == p
  {
  }

  /** The capture of `write:\s*([^,}\s]+)`, leftmost; none when no position matches. */
  function WriteClause(options: string): (r: Option<string>)
    ensures r.Some? ==> IsToken(r.value)
    ensures r.Some? <==> exists p :: 0 <= p <= |options| && WriteAt(options, p).Some?
  {
    var p := FirstWrite(options, 0);
    if p <= |options| then WriteAt(options, p) else None
  }

  /** The class `[LRN]`. */
  predicate IsMoveLetter(c: char)
  {
    c == 'L' || c == 'R' || c == 'N'
  }

  /** The move a letter names: each of `L`, `R`, `N` its own. */
  function MoveOf(c: char): (r: Move)
    requires IsMoveLetter(c)
    ensures (r == L <==> c == 'L') && (r == R <==> c == 'R') && (r == N <==> c == 'N')
  {
    if c == 'L' then L else if c == 'R' then R else N
  }

  datatype MoveMatch = MoveMatch(move: Move, nextState: string)

  /** The pattern `([LRN]):\s*([^,}\s]+)` tried at position `i`: the move is the letter there, the
      next state the token after the colon. */
  function MoveAt(options: string, i: nat): (r: Option<MoveMatch>)
    ensures r.Some? ==> IsToken(r.value.nextState)
    ensures r.Some? ==>
      && i + 2 <= |options| && IsMoveLetter(options[i]) && options[i + 1] == ':'
      && r.value.move == MoveOf(options[i])
  {
    if i + 2 <= |options| && IsMoveLetter(options[i]) && options[i + 1] == ':' then
      var next := TokenAfterSpaces(options, i + 2);
      if next.Some? then Some(MoveMatch(MoveOf(options[i]), next.value)) else None
    else None
  }

  /** A match captures, as the next state, the whole token after the colon and its spaces. */
  lemma MoveAtShape(options: string, i: nat)
    requires MoveAt(options, i).Some?
    ensures TokenShapeAt(options, i + 2, SkipSpaces(options, i + 2), MoveAt(options, i).value.nextState)
  {
  }

  lemma MoveAtComplete(options: string, i: nat, j: nat, v: string)
    requires i + 2 <= |options| && IsMoveLetter(options[i]) && options[i + 1] == ':'
    requires TokenShapeAt(options, i + 2, j, v)
    ensures MoveAt(options, i) == Some(MoveMatch(MoveOf(options[i]), v))
  {
    TokenAfterSpacesComplete(options, i + 2, j, v);
  }

  /** The search for `([LRN]):\s*([^,}\s]+)`: the leftmost position from `i` where it matches,
      or a position past the end when there is none. */
  function FirstMove(options: string, i: nat): (p: nat)
    ensures i <= p
    ensures p <= |options| ==> MoveAt(options, p).Some?
    ensures forall q :: i <= q < p && q <= |options| ==> MoveAt(options, q).None?
    decreases |options| + 1 - i
  {
    if i > |options| || MoveAt(options, i).Some? then i else FirstMove(options, i + 1)
  }

  /** A match with no match before it is the one the search finds. */
  lemma FirstMoveAt(options: string, i: nat, p: nat)
    requires i <= p <= |options| && MoveAt(options, p).Some?
    requires forall q :: i <= q < p ==> MoveAt(options, q).None?
    ensures FirstMove(options, i) == p
  {
  }

  /** The captures of `([LRN]):\s*([^,}\s]+)`, leftmost; none when no position matches. */
  function MoveClause(options: string): (r: Option<MoveMatch>)
    ensures r.Some? ==> IsToken(r.value.nextState)
    ensures r.Some? <==> exists p :: 0 <= p <= |options| && MoveAt(options, p).Some?
  {
    var p := FirstMove(options, 0);
    if p <= |options| then MoveAt(options, p) else None
  }

  // ---------------------------------------------------------------------------------------
  // The rule-line pattern  /^\s*(?:\[([^\]]+)\]|([^:]+)):\s*(.*)/  on a trimmed line
  // ---------------------------------------------------------------------------------------

  datatype RuleHead = RuleHead(symbols: seq<string>, options: string)

  function TrimAll(xs: seq<string>): (r: seq<string>)
    ensures |r| == |xs| && forall k :: 0 <= k < |xs| ==> r[k] == Trim(xs[k])
  {
    seq(|xs|, k requires 0 <= k < |xs| => Trim(xs[k]))
  }

  /** The first alternative `\[([^\]]+)\]:` at the start of the line, with its `]` at `c`. */
  predicate BracketShape(line: string, c: nat)
  {
    && 1 < c && c + 1 < |line| && line[0] == '['
    && line[c] == ']' && line[c + 1] == ':'
    && forall k :: 1 <= k < c ==> line[k] != ']'
  }

  /** The position of the `]` closing a non-empty bracket group that starts the line and is
      followed by `:`, when there is one. */
  function BracketClose(line: string): (r: Option<nat>)
    ensures r.Some? ==> BracketShape(line, r.value)
    ensures r.None? ==> forall c: nat :: !BracketShape(line, c)
  {
    if |line| >= 1 && line[0] == '[' then
      var c := IndexFrom(line, ']', 1);
      if 1 < c && c + 1 < |line| && line[c + 1] == ':' then Some(c) else None
    else None
  }

  /** `:\s*(.*)` then `.trim()`: the rest of the line after the colon at `colon`, up to a line
      terminator, without surrounding white space. When no line terminator follows the colon
      it is simply the trimmed rest of the line. */
  function OptionsAfter(line: string, colon: nat): (r: string)
    requires colon < |line|
    ensures IsTrimmed(r)
    ensures (forall k :: colon < k < |line| ==> !IsLineTerminator(line[k])) ==> r == Trim(line[colon + 1..])
  {
    var j := SkipSpaces(line, colon + 1);
    var k := SpanEnd(line, j, NotLineTerminator);
    TrimTrims(line[j..k]);
    OptionsReachEnd(line, colon);
    Trim(line[j..k])
  }

  /** Without a line terminator, `(.*)` takes the rest of the line, and the white space skipped
      before it does not survive `trim`. */
  lemma OptionsReachEnd(line: string, colon: nat)
    requires colon < |line|
    ensures var j := SkipSpaces(line, colon + 1); var k := SpanEnd(line, j, NotLineTerminator);
      (forall p :: colon < p < |line| ==> !IsLineTerminator(line[p])) ==> Trim(line[j..k]) == Trim(line[colon + 1..])
  {
    var i := colon + 1;
    var j := SkipSpaces(line, i);
    var k := SpanEnd(line, j, NotLineTerminator);
    if forall p :: colon < p < |line| ==> !IsLineTerminator(line[p]) {
      assert k == |line|;
      assert line[j..k] == line[j..];
      SkippedSpaces(line, i, j);
    }
  }

  /** The white space skipped after a colon does not survive `trim`. */
  lemma SkippedSpaces(line: string, i: nat, j: nat)
    requires i <= j <= |line| && AllSpace(line[i..j])
    ensures Trim(line[i..]) == Trim(line[j..])
  {
    assert line[i..] == line[i..j] + line[j..];
    TrimSpacePrefix(line[i..j], line[j..]);
  }


  /** The symbols and the options text of a rule line. The line is trimmed, so the leading
      `\s*` of the pattern matches nothing. A bracket group gives its comma-separated pieces,
      trimmed; otherwise the text before the first colon, trimmed, is the one symbol. */
  function RuleHeadOf(line: string): (r: Option<RuleHead>)
    requires IsTrimmed(line)
    ensures r.Some? ==> |r.value.symbols| >= 1
    ensures r.Some? && BracketClose(line).None? ==> ':' in line && |r.value.symbols| == 1
    ensures r.None? <==> BracketClose(line).None? && (':' !in line || line[0] == ':')
    ensures BracketClose(line).Some? ==>
      var c := BracketClose(line).value;
      r == Some(RuleHead(TrimAll(SplitOn(line[1..c], ',')), OptionsAfter(line, c + 1)))
    ensures r.Some? && BracketClose(line).None? ==>
      exists c :: 0 < c < |line| && line[c] == ':' && (forall k :: 0 <= k < c ==> line[k] != ':')
        && r.value == RuleHead([Trim(line[..c])], OptionsAfter(line, c))
  {
    match BracketClose(line)
    case Some(c) => Some(RuleHead(TrimAll(SplitOn(line[1..c], ',')), OptionsAfter(line, c + 1)))
    case None =>
      var c := IndexFrom(line, ':', 0);
      if 0 < c < |line| then Some(RuleHead([Trim(line[..c])], OptionsAfter(line, c)))
      else None
  }

  // ---------------------------------------------------------------------------------------
  // processTransition
  // ---------------------------------------------------------------------------------------

  /** The rule a rule line describes: `write` from the `write:` clause if there is one, the
      move and the next state from the `L|R|N:` clause. */
  function RuleFor(options: string, m: MoveMatch): (r: Rule)
    ensures r.move == m.move && r.nextState == Trim(m.nextState)
    ensures r.write.Some? <==> WriteClause(options).Some?
    ensures r.write == WriteClause(options)
    ensures IsToken(m.nextState) ==> r.nextState == m.nextState
  {
    var write := match WriteClause(options)
      case Some(w) => Some(Trim(w))
      case None => None;
    TokenUntrimmed(if WriteClause(options).Some? then WriteClause(options).value else "");
    TokenUntrimmed(m.nextState);
    Rule(write, m.move, Trim(m.nextState))
  }

  /** The loop of `processTransition` after `symbols`: each symbol, trimmed, is assigned `rule`
      in the object of `state`. */
  function AssignEach(tm: TransitionMap, state: string, symbols: seq<string>, rule: Rule): (r: TransitionMap)
    requires Find(tm, state).Some?
    ensures Find(r, state).Some?
    decreases |symbols|
  {
    if symbols == [] then tm
    else
      var t := AssignEach(tm, state, symbols[..|symbols| - 1], rule);
      var obj := Assign(Find(t, state).value, Trim(symbols[|symbols| - 1]), rule);
      PutFind(t, state, obj, state);
      Put(t, state, obj)
  }

  /** The map with an (empty) object for `state` added if it had none. */
  function WithState(tm: TransitionMap, state: string): (r: TransitionMap)
    ensures Find(r, state).Some?
    ensures ObjectOf(r, state) == ObjectOf(tm, state)
  {
    PutFind(tm, state, [], state);
    if Find(tm, state).Some? then tm else Put(tm, state, [])
  }

  /** Adding the object of `state` leaves the other states alone. */
  lemma WithStateKeeps(tm: TransitionMap, state: string, st: string)
    requires st != state
    ensures Find(WithState(tm, state), st) == Find(tm, st)
  {
    PutFind(tm, state, [], st);
  }

  /** The effect of `processTransition(line, state)` on the map. */
  function TransitionLineEffect(tm: TransitionMap, line: string, state: string): TransitionMap
    requires IsTrimmed(line)
  {
    match RuleHeadOf(line)
    case None => tm
    case Some(h) => HeadEffect(tm, h, state)
  }

  /** The effect of a rule line whose head has been recognised: nothing without an `L|R|N:`
      clause, otherwise each symbol is assigned the rule. */
  function HeadEffect(tm: TransitionMap, h: RuleHead, state: string): TransitionMap
  {
    match MoveClause(h.options)
    case None => tm
    case Some(m) => AssignEach(WithState(tm, state), state, h.symbols, RuleFor(h.options, m))
  }

  /** The symbols of `state`, or no symbols when the map has no entry for it. */
  function ObjectOf(tm: TransitionMap, state: string): StateTransitions
  {
    match Find(tm, state)
    case Some(obj) => obj
    case None => []
  }

  /** Some symbol of `symbols`, once trimmed, is `k`. */
  predicate Lists(symbols: seq<string>, k: string)
  {
    exists i :: 0 <= i < |symbols| && Trim(symbols[i]) == k
  }

  /** Assigning the symbols of `state` leaves every other state as it was. */
  lemma {:induction false} AssignEachKeepsOtherStates(tm: TransitionMap, state: string, symbols: seq<string>, rule: Rule, st: string)
    requires Find(tm, state).Some? && st != state
    ensures Find(AssignEach(tm, state, symbols, rule), st) == Find(tm, st)
    decreases |symbols|
  {
    if symbols != [] {
      var init := symbols[..|symbols| - 1];
      AssignEachKeepsOtherStates(tm, state, init, rule, st);
      var t := AssignEach(tm, state, init, rule);
      PutFind(t, state, Assign(Find(t, state).value, Trim(symbols[|symbols| - 1]), rule), st);
    }
  }

  /** A symbol is listed in `symbols` if it is listed before the last one or is the last one. */
  lemma ListsSnoc(symbols: seq<string>, k: string)
    requires symbols != []
    ensures Lists(symbols, k) <==> Lists(symbols[..|symbols| - 1], k) || Trim(symbols[|symbols| - 1]) == k
  {
    var init := symbols[..|symbols| - 1];
    if Lists(symbols, k) && Trim(symbols[|symbols| - 1]) != k {
      var i :| 0 <= i < |symbols| && Trim(symbols[i]) == k;
      assert init[i] == symbols[i];
    }
    if Lists(init, k) {
      var i :| 0 <= i < |init| && Trim(init[i]) == k;
      assert symbols[i] == init[i];
    }
  }

  /** After the symbols are assigned, each of them (trimmed, and unless it is `__proto__`) maps
      to the rule; every other symbol of the state keeps its rule. */
  lemma {:induction false} AssignEachSymbol(tm: TransitionMap, state: string, symbols: seq<string>, rule: Rule, k: string)
    requires Find(tm, state).Some?
    ensures Find(ObjectOf(AssignEach(tm, state, symbols, rule), state), k) ==
      if k != ProtoKey && Lists(symbols, k) then Some(rule) else Find(ObjectOf(tm, state), k)
    decreases |symbols|
  {
    if symbols != [] {
      var init := symbols[..|symbols| - 1];
      var last := Trim(symbols[|symbols| - 1]);
      AssignEachSymbol(tm, state, init, rule, k);
      ListsSnoc(symbols, k);
      var t := AssignEach(tm, state, init, rule);
      var obj := Find(t, state).value;
      PutFind(t, state, Assign(obj, last, rule), state);
      AssignFind(obj, last, rule, k);
    }
  }

  /** A rule line with an `L|R|N:` clause (whose effect is `HeadEffect` with these symbols and
      this rule) gives every listed symbol, trimmed and `__proto__` aside, the same rule in the
      state's object, replacing whatever an earlier line gave it, and creates the object if the
      state had none; the other symbols of the state keep their rules. */
  lemma RuleLineOutcome(tm: TransitionMap, state: string, symbols: seq<string>, rule: Rule, k: string)
    ensures Find(ObjectOf(AssignEach(WithState(tm, state), state, symbols, rule), state), k) ==
      if k != ProtoKey && Lists(symbols, k) then Some(rule) else Find(ObjectOf(tm, state), k)
  {
    AssignEachSymbol(WithState(tm, state), state, symbols, rule, k);
  }

  /** ... and leaves the other states alone. */
  lemma RuleLineKeepsOtherStates(tm: TransitionMap, line: string, state: string, st: string)
    requires IsTrimmed(line) && st != state
    ensures Find(TransitionLineEffect(tm, line, state), st) == Find(tm, st)
  {
    match RuleHeadOf(line)
    case None =>
    case Some(h) =>
      match MoveClause(h.options)
      case None =>
      case Some(m) =>
        WithStateKeeps(tm, state, st);
        AssignEachKeepsOtherStates(WithState(tm, state), state, h.symbols, RuleFor(h.options, m), st);
  }

  /** A line without a rule head or without an `L|R|N:` clause adds nothing. */
  lemma RuleLineWithoutMove(tm: TransitionMap, line: string, state: string)
    requires IsTrimmed(line)
    requires RuleHeadOf(line).None? || MoveClause(RuleHeadOf(line).value.options).None?
    ensures TransitionLineEffect(tm, line, state) == tm
  {
  }

  // ---------------------------------------------------------------------------------------
  // What the common rule-line forms yield
  // ---------------------------------------------------------------------------------------

  /** Options text free of line terminators, so `(.*)` reaches the end of the line. */
  predicate OneLine(s: string)
  {
    forall k :: 0 <= k < |s| ==> !IsLineTerminator(s[k])
  }

  /** No `[LRN]:` occurs in `pre`. */
  predicate NoMoveClause(pre: string)
  {
    forall q :: 0 <= q && q + 1 < |pre| ==> !(IsMoveLetter(pre[q]) && pre[q + 1] == ':')
  }

  /** A move clause `M: next` after text holding none is the one the search finds. */
  lemma MoveClauseAfter(pre: string, mv: char, next: string, post: string)
    requires NoMoveClause(pre) && IsMoveLetter(mv) && IsToken(next)
    requires post == [] || !IsTokenChar(post[0])
    ensures MoveClause(pre + ([mv] + ": " + next + post)) == Some(MoveMatch(MoveOf(mv), next))
  {
    var t := [mv] + ": " + next + post;
    var options := pre + t;
    var p := |pre|;
    assert forall k :: 0 <= k < |t| ==> options[p + k] == t[k];
    assert forall k :: 0 <= k < p ==> options[k] == pre[k];
    assert t[3..3 + |next|] == next;
    assert options[p + 3..p + 3 + |next|] == next;
    assert p + 3 + |next| < |options| ==> options[p + 3 + |next|] == post[0];
    MoveAtComplete(options, p, p + 3, next);
    forall q | 0 <= q < p
      ensures MoveAt(options, q).None?
    {
    }
    FirstMoveAt(options, 0, p);
  }

  /** A `write: w` right after the opening brace is the `write:` clause the search finds. */
  lemma WriteClauseFirst(w: string, rest: string)
    requires IsToken(w) && rest != [] && !IsTokenChar(rest[0])
    ensures WriteClause("{write: " + (w + rest)) == Some(w)
  {
    var options := "{write: " + (w + rest);
    WriteTokenAt(w, rest);
    WriteAtComplete(options, 1, 8, w);
    assert options[0..6][0] == '{';
    FirstWriteAt(options, 0, 1);
  }

  /** Where `write:` and the token stand in `{write: w...`. */
  lemma WriteTokenAt(w: string, rest: string)
    requires IsToken(w) && rest != [] && !IsTokenChar(rest[0])
    ensures var options := "{write: " + (w + rest);
      options[1..7] == WriteKey && TokenShapeAt(options, 7, 8, w)
  {
    var t := w + rest;
    var options := "{write: " + t;
    assert |options| == 8 + |w| + |rest|;
    assert forall k :: 0 <= k < |t| ==> options[8 + k] == t[k];
    assert options[7..8] == " ";
    assert AllSpace(options[7..8]);
    assert options[8..8 + |w|] == w;
    assert options[8 + |w|] == rest[0];
  }

  /** Text with no colon from position 5 on holds no `write:`. */
  lemma NoWriteClause(options: string)
    requires forall k :: 5 <= k < |options| ==> options[k] != ':'
    ensures WriteClause(options) == None
  {
    forall q | 0 <= q <= |options|
      ensures WriteAt(options, q).None?
    {
      if q + |WriteKey| <= |options| {
        assert options[q..q + |WriteKey|][5] == options[q + 5];
      }
    }
  }

  /** The text before the move clause of `{write: w, M: next}` holds no move clause. */
  lemma WritePrefixNoMove(w: string)
    requires ':' !in w
    ensures NoMoveClause("{write: " + w + ", ")
  {
    var pre := "{write: " + w + ", ";
    forall q | 0 <= q && q + 1 < |pre|
      ensures !(IsMoveLetter(pre[q]) && pre[q + 1] == ':')
    {
      if 8 <= q + 1 < 8 + |w| {
        assert pre[q + 1] == w[q + 1 - 8];
      }
    }
  }

  /** A token holds no white space, so no line break. */
  lemma TokenOneLine(v: string)
    requires IsToken(v)
    ensures OneLine(v)
  {
    forall k | 0 <= k < |v|
      ensures !IsLineTerminator(v[k])
    {
      assert IsTokenChar(v[k]);
    }
  }

  lemma OneLineJoined(a: string, b: string)
    requires OneLine(a) && OneLine(b)
    ensures OneLine(a + b)
  {
    forall k | 0 <= k < |a + b|
      ensures !IsLineTerminator((a + b)[k])
    {
      if k >= |a| {
        assert (a + b)[k] == b[k - |a|];
      }
    }
  }

  /** The fixed pieces of the rule-line forms hold no line break. */
  lemma PiecesOneLine(mv: char)
    requires IsMoveLetter(mv)
    ensures OneLine("{write: ") && OneLine(", ") && OneLine(": ") && OneLine("{") && OneLine("}")
    ensures OneLine([mv])
  {
  }

  /** `{write: w, M: next}`: the `write:` clause captures `w`, and the move clause captures the
      letter `M` and `next`. A `w` without a colon cannot hide a move clause of its own. */
  lemma WriteMoveOptions(w: string, mv: char, next: string)
    requires IsToken(w) && ':' !in w && IsToken(next) && IsMoveLetter(mv)
    ensures var options := "{write: " + w + ", " + [mv] + ": " + next + "}";
      && IsTrimmed(options) && OneLine(options)
      && WriteClause(options) == Some(w)
      && MoveClause(options) == Some(MoveMatch(MoveOf(mv), next))
  {
    var options := "{write: " + w + ", " + [mv] + ": " + next + "}";
    WriteMoveWrite(w, mv, next);
    WriteMoveMove(w, mv, next);
    WriteMoveOneLine(w, mv, next);
    assert options[0] == '{' && options[|options| - 1] == '}';
  }

  lemma WriteMoveWrite(w: string, mv: char, next: string)
    requires IsToken(w)
    ensures WriteClause("{write: " + w + ", " + [mv] + ": " + next + "}") == Some(w)
  {
    var rest := ", " + [mv] + ": " + next + "}";
    assert "{write: " + w + ", " + [mv] + ": " + next + "}" == "{write: " + (w + rest);
    WriteClauseFirst(w, rest);
  }

  lemma WriteMoveMove(w: string, mv: char, next: string)
    requires ':' !in w && IsToken(next) && IsMoveLetter(mv)
    ensures MoveClause("{write: " + w + ", " + [mv] + ": " + next + "}") == Some(MoveMatch(MoveOf(mv), next))
  {
    var pre := "{write: " + w + ", ";
    assert "{write: " + w + ", " + [mv] + ": " + next + "}" == pre + ([mv] + ": " + next + "}");
    WritePrefixNoMove(w);
    MoveClauseAfter(pre, mv, next, "}");
  }

  lemma WriteMoveOneLine(w: string, mv: char, next: string)
    requires IsToken(w) && IsToken(next) && IsMoveLetter(mv)
    ensures OneLine("{write: " + w + ", " + [mv] + ": " + next + "}")
  {
    TokenOneLine(w);
    TokenOneLine(next);
    PiecesOneLine(mv);
    OneLineJoined("{write: ", w);
    OneLineJoined("{write: " + w, ", ");
    OneLineJoined("{write: " + w + ", ", [mv]);
    OneLineJoined("{write: " + w + ", " + [mv], ": ");
    OneLineJoined("{write: " + w + ", " + [mv] + ": ", next);
    OneLineJoined("{write: " + w + ", " + [mv] + ": " + next, "}");
  }

  /** `{M: next}`: no `write:` clause, and the move clause captures `M` and `next`. */
  lemma MoveOptions(mv: char, next: string)
    requires IsToken(next) && ':' !in next && IsMoveLetter(mv)
    ensures var options := "{" + [mv] + ": " + next + "}";
      && IsTrimmed(options) && OneLine(options)
      && WriteClause(options) == None
      && MoveClause(options) == Some(MoveMatch(MoveOf(mv), next))
  {
    var options := "{" + [mv] + ": " + next + "}";
    assert options == "{" + ([mv] + ": " + next + "}");
    forall k | 5 <= k < |options|
      ensures options[k] != ':'
    {
      if k < 4 + |next| {
        assert options[k] == next[k - 4];
      }
    }
    NoWriteClause(options);
    MoveClauseAfter("{", mv, next, "}");
    assert options[0] == '{' && options[|options| - 1] == '}';
    TokenOneLine(next);
    PiecesOneLine(mv);
    OneLineJoined("{", [mv]);
    OneLineJoined("{" + [mv], ": ");
    OneLineJoined("{" + [mv] + ": ", next);
    OneLineJoined("{" + [mv] + ": " + next, "}");
  }

  /** After a colon followed by one space, a trimmed one-line options text is taken whole. */
  lemma OptionsAfterSpace(line: string, colon: nat, options: string)
    requires colon < |line| && line[colon + 1..] == " " + options
    requires IsTrimmed(options) && OneLine(options)
    ensures OptionsAfter(line, colon) == options
  {
    var rest := line[colon + 1..];
    forall k | colon < k < |line|
      ensures !IsLineTerminator(line[k])
    {
      assert line[k] == rest[k - colon - 1];
      if k > colon + 1 {
        assert rest[k - colon - 1] == options[k - colon - 2];
      }
    }
    TrimSpacePrefix(" ", options);
    TrimOfTrimmed(options);
  }

  /** `sym: options`, with a symbol that holds no colon and does not open a bracket: one
      symbol, `sym` trimmed, and the options text. */
  lemma PlainRuleHead(sym: string, options: string)
    requires sym != [] && !IsSpace(sym[0]) && sym[0] != '[' && ':' !in sym
    requires options != [] && IsTrimmed(options) && OneLine(options)
    ensures var line := sym + ": " + options;
      IsTrimmed(line) && RuleHeadOf(line) == Some(RuleHead([Trim(sym)], options))
  {
    var line := sym + ": " + options;
    PlainLineShape(sym, options);
    assert BracketClose(line).None?;
    OptionsAfterSpace(line, |sym|, options);
  }

  /** Where the colon and the options stand in `sym: options`. */
  lemma PlainLineShape(sym: string, options: string)
    requires sym != [] && !IsSpace(sym[0]) && ':' !in sym
    requires options != [] && IsTrimmed(options)
    ensures var line := sym + ": " + options;
      && IsTrimmed(line) && line[0] == sym[0]
      && IndexFrom(line, ':', 0) == |sym| && line[..|sym|] == sym && line[|sym| + 1..] == " " + options
  {
    var line := sym + ": " + options;
    var c := |sym|;
    assert forall k :: 0 <= k < c ==> line[k] == sym[k];
    assert line[c] == ':' && line[c + 1] == ' ';
    assert forall k :: 0 <= k < |options| ==> line[c + 2 + k] == options[k];
    assert line[|line| - 1] == options[|options| - 1];
    assert line[..c] == sym;
    assert line[c + 1..] == " " + options;
  }

  /** `[list]: options`, with a list that holds no `]`: its comma-separated pieces, trimmed,
      and the options text. */
  lemma BracketRuleHead(list: string, options: string)
    requires list != [] && ']' !in list
    requires options != [] && IsTrimmed(options) && OneLine(options)
    ensures var line := "[" + list + "]: " + options;
      IsTrimmed(line) && RuleHeadOf(line) == Some(RuleHead(TrimAll(SplitOn(list, ',')), options))
  {
    var line := "[" + list + "]: " + options;
    var c := |list| + 1;
    BracketLineShape(list, options);
    assert BracketClose(line) == Some(c);
    OptionsAfterSpace(line, c + 1, options);
  }

  /** Where the bracket, the colon and the options stand in `[list]: options`. */
  lemma BracketLineShape(list: string, options: string)
    requires list != [] && ']' !in list
    requires options != [] && IsTrimmed(options)
    ensures var line := "[" + list + "]: " + options; var c := |list| + 1;
      && IsTrimmed(line) && line[0] == '[' && c + 1 < |line| && line[c + 1] == ':'
      && IndexFrom(line, ']', 1) == c && line[1..c] == list && line[c + 2..] == " " + options
  {
    var line := "[" + list + "]: " + options;
    var c := |list| + 1;
    assert forall k :: 1 <= k < c ==> line[k] == list[k - 1];
    assert line[c] == ']' && line[c + 1] == ':' && line[c + 2] == ' ';
    assert forall k :: 0 <= k < |options| ==> line[c + 3 + k] == options[k];
    assert line[|line| - 1] == options[|options| - 1];
    assert line[1..c] == list;
    assert line[c + 2..] == " " + options;
  }

  /** A symbol of a plain rule line: non-empty, starting with neither white space nor `[`,
      and free of colons. */
  predicate PlainSymbol(sym: string)
  {
    sym != [] && !IsSpace(sym[0]) && sym[0] != '[' && ':' !in sym
  }

  /** `sym: {write: w, M: next}` in state `state` stores `Rule(w, M, next)` under `sym`,
      trimmed, creating the object of `state` if need be. */
  lemma WriteRuleLine(tm: TransitionMap, state: string, sym: string, w: string, mv: char, next: string)
    requires PlainSymbol(sym) && IsToken(w) && ':' !in w && IsToken(next) && IsMoveLetter(mv)
    ensures var line := sym + ": " + ("{write: " + w + ", " + [mv] + ": " + next + "}");
      && IsTrimmed(line)
      && TransitionLineEffect(tm, line, state) ==
        AssignEach(WithState(tm, state), state, [Trim(sym)], Rule(Some(w), MoveOf(mv), next))
  {
    var options := "{write: " + w + ", " + [mv] + ": " + next + "}";
    WriteMoveOptions(w, mv, next);
    PlainRuleHead(sym, options);
  }

  /** `sym: {M: next}` stores `Rule(none, M, next)`: the symbol is kept as it is. */
  lemma MoveRuleLine(tm: TransitionMap, state: string, sym: string, mv: char, next: string)
    requires PlainSymbol(sym) && IsToken(next) && ':' !in next && IsMoveLetter(mv)
    ensures var line := sym + ": " + ("{" + [mv] + ": " + next + "}");
      && IsTrimmed(line)
      && TransitionLineEffect(tm, line, state) ==
        AssignEach(WithState(tm, state), state, [Trim(sym)], Rule(None, MoveOf(mv), next))
  {
    var options := "{" + [mv] + ": " + next + "}";
    MoveOptions(mv, next);
    PlainRuleHead(sym, options);
  }

  /** `[list]: {write: w, M: next}` stores the same rule under every comma-separated piece of
      the list. */
  lemma BracketRuleLine(tm: TransitionMap, state: string, list: string, w: string, mv: char, next: string)
    requires list != [] && ']' !in list && IsToken(w) && ':' !in w && IsToken(next) && IsMoveLetter(mv)
    ensures var line := "[" + list + "]: " + ("{write: " + w + ", " + [mv] + ": " + next + "}");
      && IsTrimmed(line)
      && TransitionLineEffect(tm, line, state) ==
        AssignEach(WithState(tm, state), state, TrimAll(SplitOn(list, ',')), Rule(Some(w), MoveOf(mv), next))
  {
    var options := "{write: " + w + ", " + [mv] + ": " + next + "}";
    WriteMoveOptions(w, mv, next);
    BracketRuleHead(list, options);
  }

  /** `[a, b]: {write: w, M: next}` with two tokens stores the rule under `a` and under `b`. */
  lemma PairRuleLine(tm: TransitionMap, state: string, a: string, b: string, w: string, mv: char, next: string)
    requires IsToken(a) && IsToken(b) && ']' !in a && ']' !in b
    requires IsToken(w) && ':' !in w && IsToken(next) && IsMoveLetter(mv)
    ensures var line := "[" + (a + ", " + b) + "]: " + ("{write: " + w + ", " + [mv] + ": " + next + "}");
      TransitionLineEffect(tm, line, state) == AssignEach(WithState(tm, state), state, [a, b], Rule(Some(w), MoveOf(mv), next))
  {
    var list := a + ", " + b;
    assert ',' !in a && ',' !in b by {
      assert forall k :: 0 <= k < |a| ==> IsTokenChar(a[k]);
      assert forall k :: 0 <= k < |b| ==> IsTokenChar(b[k]);
    }
    assert ',' !in " " + b;
    assert list == a + [','] + (" " + b);
    SplitPair(a, " " + b, ',');
    TrimSpacePrefix(" ", b);
    TokenUntrimmed(a);
    TokenUntrimmed(b);
    assert TrimAll(SplitOn(list, ',')) == [a, b];
    BracketRuleLine(tm, state, list, w, mv, next);
  }

  /** The `for` loop of `processTransition`: `rule` is stored under each symbol, trimmed, in
      the object of `state`, which the map already holds. */
  method AssignSymbols(transitions: TransitionMap, state: string, symbols: seq<string>, rule: Rule)
    returns (r: TransitionMap)
    requires Find(transitions, state).Some?
    ensures r == AssignEach(transitions, state, symbols, rule)
  {
    r := transitions;
    var k := 0;
    while k < |symbols|
      invariant 0 <= k <= |symbols|
      invariant r == AssignEach(transitions, state, symbols[..k], rule)
    {
      var prefix := symbols[..k + 1];
      assert prefix[..k] == symbols[..k] && prefix[k] == symbols[k];
      var obj := Find(r, state).value;
      r := Put(r, state, Assign(obj, Trim(symbols[k]), rule));
      k := k + 1;
    }
    assert symbols[..k] == symbols;
  }

  /** `processTransition`: the map is updated in place. */
  method ProcessTransition(transitions: TransitionMap, line: string, state: string) returns (r: TransitionMap)
    requires IsTrimmed(line)
    ensures r == TransitionLineEffect(transitions, line, state)
  {
    r := transitions;
    var m := RuleHeadOf(line);
    if m.None? {
      return;
    }
    var symbols := m.value.symbols;
    var options := m.value.options;
    var moveMatch := MoveClause(options);
    if moveMatch.Some? {
      var rule := RuleFor(options, moveMatch.value);
      if Find(r, state).None? {
        r := Put(r, state, []);
      }
      assert r == WithState(transitions, state);
      r := AssignSymbols(r, state, symbols, rule);
    }
  }

  // ---------------------------------------------------------------------------------------
  // parseStructuredSyntax
  // ---------------------------------------------------------------------------------------

  /** How the loop of `parseStructuredSyntax` treats a trimmed line, in the order its tests are
      made. */
  datatype LineKind = Skip | InputLine | BlankLine | StartStateLine | TableMarker | StateHeader(name: string) | RuleLine | Other

  const InputKey: string := "input:"
  const BlankKey: string := "blank:"

  /** The lines the loop settles before it looks for state headers and rules: comments, empty
      lines, the three directives and the `table:` marker. */
  predicate SettledEarly(line: string)
  {
    || StartsWith(line, "#") || line == ""
    || StartsWith(line, InputKey) || StartsWith(line, BlankKey) || StartsWith(line, StartStateKey)
    || line == "table:"
  }

  /** A line is a state header exactly when it is none of the earlier kinds, ends with `:` and
      has no `{`; it is a rule line exactly when it is neither of those and holds `{` or `[`. */
  function Classify(line: string): (k: LineKind)
    ensures k.StateHeader? ==> EndsWith(line, ":") && '{' !in line && k.name == Trim(line[..|line| - 1])
    ensures k.RuleLine? ==> '{' in line || '[' in line
    ensures k == Skip <==> StartsWith(line, "#") || line == ""
    ensures k.StateHeader? <==> !SettledEarly(line) && EndsWith(line, ":") && '{' !in line
    ensures k == RuleLine <==>
      !SettledEarly(line) && !(EndsWith(line, ":") && '{' !in line) && ('{' in line || '[' in line)
  {
    if StartsWith(line, "#") || line == "" then Skip
    else if StartsWith(line, InputKey) then InputLine
    else if StartsWith(line, BlankKey) then BlankLine
    else if StartsWith(line, StartStateKey) then StartStateLine
    else if line == "table:" then TableMarker
    else if EndsWith(line, ":") && '{' !in line then StateHeader(Trim(line[..|line| - 1]))
    else if '{' in line || '[' in line then RuleLine
    else Other
  }

  /** The loop variables of `parseStructuredSyntax`. */
  datatype Scan = Scan(initialState: string, blank: string, input: string, transitions: TransitionMap, currentState: string)

  /** Their values before the first line: start state `right`, blank `_`, no input. */
  const InitialScan: Scan := Scan("right", "_", "", [], "")

  /** One iteration of the loop. A rule line counts only once a (non-empty) state header has
      been seen. */
  function LineEffect(sc: Scan, raw: string): Scan
  {
    TrimTrims(raw);
    TrimmedLineEffect(sc, Trim(raw))
  }

  /** The same iteration, once the line is trimmed. */
  function TrimmedLineEffect(sc: Scan, line: string): Scan
    requires IsTrimmed(line)
  {
    match Classify(line)
    case Skip => sc
    case InputLine =>
      (match QuotedValue(line, InputKey)
       case Some(v) => sc.(input := v)
       case None => sc)
    case BlankLine =>
      (match QuotedValue(line, BlankKey)
       case Some(v) => sc.(blank := v)
       case None => sc)
    case StartStateLine =>
      (match StartStateValue(line)
       case Some(v) => sc.(initialState := Trim(v))
       case None => sc)
    case TableMarker => sc
    case StateHeader(name) => sc.(currentState := name)
    case RuleLine =>
      if sc.currentState != "" then sc.(transitions := TransitionLineEffect(sc.transitions, line, sc.currentState))
      else sc
    case Other => sc
  }

  /** A loop over `lines` from `sc`, applying `step` to each line in turn. */
  function Run(step: (Scan, string) -> Scan, sc: Scan, lines: seq<string>): Scan
    decreases |lines|
  {
    if lines == [] then sc else step(Run(step, sc, lines[..|lines| - 1]), lines[|lines| - 1])
  }

  /** Running over two pieces is running over the first, then over the second from there. */
  lemma {:induction false} RunAppend(step: (Scan, string) -> Scan, sc: Scan, a: seq<string>, b: seq<string>)
    ensures Run(step, sc, a + b) == Run(step, Run(step, sc, a), b)
    decreases |b|
  {
    if b == [] {
      assert a + b == a;
    } else {
      RunAppend(step, sc, a, b[..|b| - 1]);
      assert (a + b)[..|a + b| - 1] == a + b[..|b| - 1];
      assert (a + b)[|a + b| - 1] == b[|b| - 1];
    }
  }

  /** The loop of `parseStructuredSyntax` over `lines` from `sc`. */
  function ScanFrom(sc: Scan, lines: seq<string>): Scan
  {
    Run(LineEffect, sc, lines)
  }

  /** What `parseStructuredSyntax` returns for `code`. */
  function StructuredSyntax(code: string): Config
  {
    var sc := ScanFrom(InitialScan, SplitOn(code, '\n'));
    Config(sc.initialState, sc.blank, sc.input, sc.transitions)
  }

  /** Scanning a text in two pieces is scanning the first, then the second from there. */
  lemma ScanAppend(sc: Scan, a: seq<string>, b: seq<string>)
    ensures ScanFrom(sc, a + b) == ScanFrom(ScanFrom(sc, a), b)
  {
    RunAppend(LineEffect, sc, a, b);
  }

  /** A line that `step` leaves every state alone on can be dropped from the run. */
  lemma RunWithoutInertLine(step: (Scan, string) -> Scan, sc: Scan, a: seq<string>, c: string, b: seq<string>)
    requires step(Run(step, sc, a), c) == Run(step, sc, a)
    ensures Run(step, sc, a + [c] + b) == Run(step, sc, a + b)
  {
    RunAppend(step, sc, a + [c], b);
    RunAppend(step, sc, a, b);
    assert (a + [c])[..|a + [c]| - 1] == a;
  }

  /** Blank lines, comments, the `table:` marker and unrecognised lines change nothing. */
  lemma InertLine(sc: Scan, c: string)
    requires Classify(Trim(c)) in {Skip, TableMarker, Other}
    ensures LineEffect(sc, c) == sc
  {
  }

  /** ... wherever they stand. */
  lemma InertLineIgnored(sc: Scan, a: seq<string>, c: string, b: seq<string>)
    requires Classify(Trim(c)) in {Skip, TableMarker, Other}
    ensures ScanFrom(sc, a + [c] + b) == ScanFrom(sc, a + b)
  {
    InertLine(Run(LineEffect, sc, a), c);
    RunWithoutInertLine(LineEffect, sc, a, c, b);
  }

  /** A state header makes its name the state of the rule lines that follow. */
  lemma HeaderSetsState(sc: Scan, raw: string, name: string)
    requires Classify(Trim(raw)) == StateHeader(name)
    ensures LineEffect(sc, raw) == sc.(currentState := name)
    ensures var line := Trim(raw); name == Trim(line[..|line| - 1]) && '{' !in line
  {
  }

  /** The map changes only on a rule line seen under a named state whose text matches the rule
      pattern and has an `L|R|N:` clause. */
  lemma TransitionsChangeOnlyOnRuleLines(sc: Scan, raw: string)
    ensures IsTrimmed(Trim(raw))
    ensures var line := Trim(raw);
      LineEffect(sc, raw).transitions != sc.transitions ==>
        && Classify(line) == RuleLine && sc.currentState != ""
        && RuleHeadOf(line).Some? && MoveClause(RuleHeadOf(line).value.options).Some?
  {
    TrimTrims(raw);
  }

  /** Without `input:`, `blank:` or `start state:` lines the three settings keep their values. */
  lemma {:induction false} SettingsOnlyFromDirectives(sc: Scan, lines: seq<string>)
    requires forall k :: 0 <= k < |lines| ==> Classify(Trim(lines[k])) !in {InputLine, BlankLine, StartStateLine}
    ensures var r := ScanFrom(sc, lines);
      r.initialState == sc.initialState && r.blank == sc.blank && r.input == sc.input
    decreases |lines|
  {
    if lines != [] {
      SettingsOnlyFromDirectives(sc, lines[..|lines| - 1]);
    }
  }

  /** Text without directives parses to start state `right`, blank `_` and empty input. */
  lemma DefaultsWithoutDirectives(code: string)
    requires forall k :: 0 <= k < |SplitOn(code, '\n')| ==>
      Classify(Trim(SplitOn(code, '\n')[k])) !in {InputLine, BlankLine, StartStateLine}
    ensures StructuredSyntax(code).initialState == "right"
    ensures StructuredSyntax(code).blank == "_"
    ensures StructuredSyntax(code).input == ""
  {
    SettingsOnlyFromDirectives(InitialScan, SplitOn(code, '\n'));
  }

  /** One more line is one more step. */
  lemma RunSnoc(step: (Scan, string) -> Scan, sc: Scan, lines: seq<string>, i: nat)
    requires i < |lines|
    ensures Run(step, sc, lines[..i + 1]) == step(Run(step, sc, lines[..i]), lines[i])
  {
    assert lines[..i + 1][..i] == lines[..i];
  }

  /** The body of the loop of `parseStructuredSyntax`: a rule line under a named state goes to
      `processTransition`, which updates the map in place. */
  method ParseLine(sc: Scan, raw: string) returns (r: Scan)
    ensures r == LineEffect(sc, raw)
  {
    var line := Trim(raw);
    TrimTrims(raw);
    if Classify(line) == RuleLine && sc.currentState != "" {
      var transitions := ProcessTransition(sc.transitions, line, sc.currentState);
      r := sc.(transitions := transitions);
    } else {
      r := TrimmedLineEffect(sc, line);
    }
  }

  /** `parseStructuredSyntax`: a loop over the lines updating the settings, the current state
      and the map. */
  method ParseStructuredSyntax(code: string) returns (config: Config)
    ensures config == StructuredSyntax(code)
  {
    var lines := SplitOn(code, '\n');
    var sc := InitialScan;
    var i := 0;
    while i < |lines|
      invariant 0 <= i <= |lines|
      invariant sc == Run(LineEffect, InitialScan, lines[..i])
    {
      RunSnoc(LineEffect, InitialScan, lines, i);
      sc := ParseLine(sc, lines[i]);
      i := i + 1;
    }
    assert lines[..i] == lines;
    config := Config(sc.initialState, sc.blank, sc.input, sc.transitions);
  }

  // ---------------------------------------------------------------------------------------
  // parseStateTable
  // ---------------------------------------------------------------------------------------

  /** The read symbols of an object key: a key holding a comma is split on commas, each piece
      trimmed. */
  function KeyParts(symbol: string): (parts: seq<string>)
    ensures |parts| >= 1
    ensures ',' !in symbol ==> parts == [symbol]
    ensures ',' in symbol ==>
      |parts| == |SplitOn(symbol, ',')| && forall k :: 0 <= k < |parts| ==> parts[k] == Trim(SplitOn(symbol, ',')[k])
  {
    if ',' in symbol then TrimAll(SplitOn(symbol, ',')) else [symbol]
  }

  /** The transition pushed for one read symbol: the empty symbol stands for the blank, and
      without a `write` the machine writes back what it read. */
  function MakeTransition(state: string, part: string, rule: Rule, blank: string): (t: Transition)
    ensures t.currentState == state && t.nextState == rule.nextState && t.moveDirection == rule.move
    ensures t.readSymbol == (if part == "" then blank else part)
    ensures t.writeSymbol == (if rule.write.Some? then rule.write.value else t.readSymbol)
  {
    var read := if part == "" then blank else part;
    Transition(state, read, rule.nextState, if rule.write.Some? then rule.write.value else read, rule.move)
  }

  /** The innermost loop: one transition per read symbol, in order. */
  function PartsTransitions(state: string, parts: seq<string>, rule: Rule, blank: string): (r: seq<Transition>)
    decreases |parts|
  {
    if parts == [] then []
    else PartsTransitions(state, parts[..|parts| - 1], rule, blank) + [MakeTransition(state, parts[|parts| - 1], rule, blank)]
  }

  /** The `k`-th transition belongs to the `k`-th read symbol. */
  lemma {:induction false} PartsTransitionsAt(state: string, parts: seq<string>, rule: Rule, blank: string)
    ensures var ts := PartsTransitions(state, parts, rule, blank);
      |ts| == |parts| && forall k :: 0 <= k < |ts| ==> ts[k] == MakeTransition(state, parts[k], rule, blank)
    decreases |parts|
  {
    if parts != [] {
      PartsTransitionsAt(state, parts[..|parts| - 1], rule, blank);
    }
  }

  /** A key holding commas, such as the `a, b` of a rule line `[a, b]: {...}`, becomes one
      transition per piece, in order: at least two of them, each reading its trimmed piece, all
      from the same state with the rule's next state and move. */
  lemma CommaKeyTransitions(state: string, symbol: string, rule: Rule, blank: string)
    requires ',' in symbol
    ensures var ts := RuleTransitions(state, blank, (symbol, rule)); var pieces := SplitOn(symbol, ',');
      && |ts| == |pieces| >= 2
      && forall k :: 0 <= k < |ts| ==>
        && ts[k] == MakeTransition(state, Trim(pieces[k]), rule, blank)
        && ts[k].currentState == state && ts[k].nextState == rule.nextState && ts[k].moveDirection == rule.move
  {
    var pieces := SplitOn(symbol, ',');
    SplitJoin(symbol, ',');
    PartsTransitionsAt(state, KeyParts(symbol), rule, blank);
  }

  /** The transitions of one entry `[symbol, rule]` of a state's object. */
  function RuleTransitions(state: string, blank: string, e: (string, Rule)): seq<Transition>
  {
    PartsTransitions(state, KeyParts(e.0), e.1, blank)
  }

  /** The loop over the entries of a state's object. */
  function EntriesTransitions(state: string, entries: Dict<Rule>, blank: string): seq<Transition>
  {
    Concat(entries, (e: (string, Rule)) => RuleTransitions(state, blank, e))
  }

  /** The transitions of one entry `[state, object]` of the map. */
  function StateTransitionsOf(blank: string, e: (string, StateTransitions)): seq<Transition>
  {
    EntriesTransitions(e.0, OwnEntries(e.1), blank)
  }

  /** The loop over the map, in insertion order. */
  function StatesTransitions(tm: TransitionMap, blank: string): seq<Transition>
  {
    Concat(tm, (e: (string, StateTransitions)) => StateTransitionsOf(blank, e))
  }

  /** A `forEach` that pushes `f(x)` for each `x` of `xs` in turn. */
  function Concat<T>(xs: seq<T>, f: T -> seq<Transition>): seq<Transition>
    decreases |xs|
  {
    if xs == [] then [] else Concat(xs[..|xs| - 1], f) + f(xs[|xs| - 1])
  }

  /** One more element pushes its transitions after the others. */
  lemma ConcatSnoc<T>(xs: seq<T>, f: T -> seq<Transition>, i: nat)
    requires i < |xs|
    ensures Concat(xs[..i + 1], f) == Concat(xs[..i], f) + f(xs[i])
  {
    assert xs[..i + 1][..i] == xs[..i];
  }

  /** A transition pushed by the loop is pushed by one of its iterations. */
  lemma {:induction false} ConcatMember<T>(xs: seq<T>, f: T -> seq<Transition>, t: Transition)
    ensures t in Concat(xs, f) <==> exists i :: 0 <= i < |xs| && t in f(xs[i])
    decreases |xs|
  {
    if xs != [] {
      var init := xs[..|xs| - 1];
      ConcatMember(init, f, t);
      if t in Concat(init, f) {
        var i :| 0 <= i < |init| && t in f(init[i]);
        assert xs[i] == init[i];
      }
      if exists i :: 0 <= i < |xs| && t in f(xs[i]) {
        var i :| 0 <= i < |xs| && t in f(xs[i]);
        if i < |init| {
          assert init[i] == xs[i];
        }
      }
    }
  }

  /** `Array.from(input)`, or the tape `1011` when the input is empty. */
  function InitialTape(input: string): (tape: seq<string>)
    ensures |tape| >= 1
    ensures input != "" ==> tape == Chars(input)
    ensures input == "" ==> tape == ["1", "0", "1", "1"]
  {
    if input == "" then ["1", "0", "1", "1"] else Chars(input)
  }

  /** What `parseStateTable` returns for `code`. */
  function StateTableOf(code: string): StateTable
  {
    var config := StructuredSyntax(code);
    StateTable(StatesTransitions(config.transitions, config.blank), InitialTape(config.input), config.initialState)
  }

  /** One transition per read symbol, and nothing else. */
  lemma {:induction false} PartsTransitionsMember(state: string, parts: seq<string>, rule: Rule, blank: string, t: Transition)
    ensures |PartsTransitions(state, parts, rule, blank)| == |parts|
    ensures t in PartsTransitions(state, parts, rule, blank) <==>
      exists k :: 0 <= k < |parts| && t == MakeTransition(state, parts[k], rule, blank)
    decreases |parts|
  {
    if parts != [] {
      var init := parts[..|parts| - 1];
      PartsTransitionsMember(state, init, rule, blank, t);
      if t in PartsTransitions(state, init, rule, blank) {
        var k :| 0 <= k < |init| && t == MakeTransition(state, init[k], rule, blank);
        assert parts[k] == init[k];
      }
      if exists k :: 0 <= k < |parts| && t == MakeTransition(state, parts[k], rule, blank) {
        var k :| 0 <= k < |parts| && t == MakeTransition(state, parts[k], rule, blank);
        if k < |init| {
          assert init[k] == parts[k];
        }
      }
    }
  }

  /** Every rule of every state yields a transition for each of its read symbols. */
  lemma RuleFlattened(tm: TransitionMap, blank: string, state: string, obj: StateTransitions, symbol: string, rule: Rule, k: nat)
    requires (state, obj) in tm && (symbol, rule) in obj && k < |KeyParts(symbol)|
    ensures MakeTransition(state, KeyParts(symbol)[k], rule, blank) in StatesTransitions(tm, blank)
  {
    var t := MakeTransition(state, KeyParts(symbol)[k], rule, blank);
    var entries := OwnEntries(obj);
    OwnEntriesMember(obj, (symbol, rule));
    var j :| 0 <= j < |entries| && entries[j] == (symbol, rule);
    PartsTransitionsMember(state, KeyParts(symbol), rule, blank, t);
    assert t in RuleTransitions(state, blank, entries[j]);
    ConcatMember(entries, (e: (string, Rule)) => RuleTransitions(state, blank, e), t);
    var i :| 0 <= i < |tm| && tm[i] == (state, obj);
    assert t in StateTransitionsOf(blank, tm[i]);
    ConcatMember(tm, (e: (string, StateTransitions)) => StateTransitionsOf(blank, e), t);
  }

  /** Every transition comes from a rule of some state: its state, next state and move are the
      rule's, its read symbol is a piece of the rule's key (the blank for an empty piece), and
      it writes the rule's `write`, or what it read when the rule has none. */
  lemma TransitionFromRule(tm: TransitionMap, blank: string, t: Transition)
    requires t in StatesTransitions(tm, blank)
    ensures exists state, obj, symbol, rule, k ::
      && (state, obj) in tm && (symbol, rule) in obj && 0 <= k < |KeyParts(symbol)|
      && t == MakeTransition(state, KeyParts(symbol)[k], rule, blank)
  {
    ConcatMember(tm, (e: (string, StateTransitions)) => StateTransitionsOf(blank, e), t);
    var i :| 0 <= i < |tm| && t in StateTransitionsOf(blank, tm[i]);
    var entries := OwnEntries(tm[i].1);
    var state := tm[i].0;
    ConcatMember(entries, (e: (string, Rule)) => RuleTransitions(state, blank, e), t);
    var j :| 0 <= j < |entries| && t in RuleTransitions(tm[i].0, blank, entries[j]);
    OwnEntriesMember(tm[i].1, entries[j]);
    PartsTransitionsMember(tm[i].0, KeyParts(entries[j].0), entries[j].1, blank, t);
    var k :| 0 <= k < |KeyParts(entries[j].0)| && t == MakeTransition(tm[i].0, KeyParts(entries[j].0)[k], entries[j].1, blank);
    assert (tm[i].0, tm[i].1) in tm;
  }

  /** The loop `for (const readSymbol of symbols)`: one transition pushed per read symbol. */
  method PushRule(transitions: seq<Transition>, state: string, symbol: string, rule: Rule, blank: string)
    returns (r: seq<Transition>)
    ensures r == transitions + RuleTransitions(state, blank, (symbol, rule))
  {
    var symbols := KeyParts(symbol);
    r := transitions;
    var k := 0;
    while k < |symbols|
      invariant 0 <= k <= |symbols|
      invariant r == transitions + PartsTransitions(state, symbols[..k], rule, blank)
    {
      var readSymbol := symbols[k];
      var actualReadSymbol := if readSymbol == "" then blank else readSymbol;
      var writeSymbol := actualReadSymbol;
      if rule.write.Some? {
        writeSymbol := rule.write.value;
      }
      assert symbols[..k + 1][..k] == symbols[..k];
      r := r + [Transition(state, actualReadSymbol, rule.nextState, writeSymbol, rule.move)];
      k := k + 1;
    }
    assert symbols[..k] == symbols;
  }

  /** The `forEach` over `Object.entries` of one state's object. */
  method PushState(transitions: seq<Transition>, state: string, entries: Dict<Rule>, blank: string)
    returns (r: seq<Transition>)
    ensures r == transitions + EntriesTransitions(state, entries, blank)
  {
    r := transitions;
    var j := 0;
    while j < |entries|
      invariant 0 <= j <= |entries|
      invariant r == transitions + EntriesTransitions(state, entries[..j], blank)
    {
      ConcatSnoc(entries, (e: (string, Rule)) => RuleTransitions(state, blank, e), j);
      assert entries[j] == (entries[j].0, entries[j].1);
      ghost var pushed := RuleTransitions(state, blank, entries[j]);
      r := PushRule(r, state, entries[j].0, entries[j].1, blank);
      assert r == transitions + (EntriesTransitions(state, entries[..j], blank) + pushed);
      j := j + 1;
    }
    assert entries[..j] == entries;
  }

  /** `parseStateTable`: the map flattened into a list of transitions, state by state in
      insertion order, and the initial tape. */
  method ParseStateTable(code: string) returns (table: StateTable)
    ensures table == StateTableOf(code)
  {
    var config := ParseStructuredSyntax(code);
    var transitions: seq<Transition> := [];
    var i := 0;
    while i < |config.transitions|
      invariant 0 <= i <= |config.transitions|
      invariant transitions == StatesTransitions(config.transitions[..i], config.blank)
    {
      ConcatSnoc(config.transitions, (e: (string, StateTransitions)) => StateTransitionsOf(config.blank, e), i);
      var state, stateTransitions := config.transitions[i].0, config.transitions[i].1;
      transitions := PushState(transitions, state, OwnEntries(stateTransitions), config.blank);
      i := i + 1;
    }
    assert config.transitions[..i] == config.transitions;
    var initialTape := if config.input != "" then Chars(config.input) else [];
    if |initialTape| == 0 {
      initialTape := ["1", "0", "1", "1"];
    }
    table := StateTable(transitions, initialTape, config.initialState);
  }
}
