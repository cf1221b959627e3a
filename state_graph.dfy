/** The combinatorial part of the state graph of src/components/simulator/StateGraph.tsx: the
    set of states, one edge per (source, target) pair with its label, the active edges, the
    final states and the start-state marker. The circular layout and the curves drawn between
    states are not modelled. */
module Graph {
  import opened Parser
  import opened Text

  // ---------------------------------------------------------------------------------------
  // A JavaScript Set of strings: insertion order, each element once
  // ---------------------------------------------------------------------------------------

  predicate Distinct<T(==)>(xs: seq<T>)
  {
    forall i, j :: 0 <= i < j < |xs| ==> xs[i] != xs[j]
  }

  /** The position of the first occurrence of `x`. */
  function FirstIndex<T(==)>(xs: seq<T>, x: T, i: nat): (k: nat)
    requires i <= |xs| && x in xs[i..]
    ensures i <= k < |xs| && xs[k] == x
    ensures forall p :: i <= p < k ==> xs[p] != x
    decreases |xs| - i
  {
    if xs[i] == x then i
    else
      assert x in xs[i + 1..] by {
        var p :| i <= p < |xs| && xs[p] == x;
        assert xs[i + 1..][p - i - 1] == x;
      }
      FirstIndex(xs, x, i + 1)
  }

  /** `set.add(x)`. */
  function Add<T(==)>(elems: seq<T>, x: T): seq<T>
  {
    if x in elems then elems else elems + [x]
  }

  /** A Set built by adding the elements of `xs` in turn. */
  function Dedup<T(==)>(xs: seq<T>): seq<T>
    decreases |xs|
  {
    if xs == [] then [] else Add(Dedup(xs[..|xs| - 1]), xs[|xs| - 1])
  }

  /** The Set holds each element of `xs` exactly once and nothing else, in the order of first
      occurrence in `xs`. */
  lemma DedupSpec<T>(xs: seq<T>)
    ensures var d := Dedup(xs);
      && Distinct(d)
      && (forall x :: x in d <==> x in xs)
      && (forall i :: 0 <= i < |d| - 1 ==> FirstIndex(xs, d[i], 0) < FirstIndex(xs, d[i + 1], 0))
  {
    DedupMembers(xs);
    DedupDistinct(xs);
    DedupOrder(xs);
  }

  lemma {:induction false} DedupMembers<T>(xs: seq<T>)
    ensures forall x :: x in Dedup(xs) <==> x in xs
    decreases |xs|
  {
    if xs != [] {
      DedupMembers(xs[..|xs| - 1]);
      assert xs == xs[..|xs| - 1] + [xs[|xs| - 1]];
    }
  }

  lemma {:induction false} DedupDistinct<T>(xs: seq<T>)
    ensures Distinct(Dedup(xs))
    decreases |xs|
  {
    if xs != [] {
      DedupDistinct(xs[..|xs| - 1]);
    }
  }

  lemma {:induction false} DedupOrder<T>(xs: seq<T>)
    ensures forall x :: x in Dedup(xs) ==> x in xs
    ensures forall i :: 0 <= i < |Dedup(xs)| - 1 ==> FirstIndex(xs, Dedup(xs)[i], 0) < FirstIndex(xs, Dedup(xs)[i + 1], 0)
    decreases |xs|
  {
    DedupMembers(xs);
    if xs != [] {
      var init, last := xs[..|xs| - 1], xs[|xs| - 1];
      assert xs == init + [last];
      DedupOrder(init);
      DedupMembers(init);
      FirstIndexAppend(init, last);
      if last !in Dedup(init) {
        FirstIndexExact(xs, last, 0, |init|);
      }
      OrderAppend(init, last, Dedup(init));
    }
  }

  /** Appending leaves the first occurrence of what was already there where it was. */
  lemma FirstIndexAppend<T>(init: seq<T>, last: T)
    ensures forall x :: x in init ==> x in init + [last] && FirstIndex(init + [last], x, 0) == FirstIndex(init, x, 0)
  {
    forall x | x in init
      ensures x in init + [last] && FirstIndex(init + [last], x, 0) == FirstIndex(init, x, 0)
    {
      FirstIndexExact(init + [last], x, 0, FirstIndex(init, x, 0));
    }
  }

  lemma OrderAppend<T>(init: seq<T>, last: T, d0: seq<T>)
    requires forall x :: x in d0 ==> x in init
    requires forall i :: 0 <= i < |d0| - 1 ==> FirstIndex(init, d0[i], 0) < FirstIndex(init, d0[i + 1], 0)
    requires forall x :: x in init ==> x in init + [last] && FirstIndex(init + [last], x, 0) == FirstIndex(init, x, 0)
    requires last !in d0 ==> FirstIndex(init + [last], last, 0) == |init|
    ensures var d := Add(d0, last);
      forall i :: 0 <= i < |d| - 1 ==> FirstIndex(init + [last], d[i], 0) < FirstIndex(init + [last], d[i + 1], 0)
  {
    var xs, d := init + [last], Add(d0, last);
    forall i | 0 <= i < |d| - 1
      ensures FirstIndex(xs, d[i], 0) < FirstIndex(xs, d[i + 1], 0)
    {
      assert d[i] == d0[i] && d[i] in init;
      if i + 1 < |d0| {
        assert d[i + 1] == d0[i + 1] && d[i + 1] in init;
      }
    }
  }

  /** The first occurrence is any position holding `x` with no `x` before it. */
  lemma FirstIndexExact<T>(xs: seq<T>, x: T, i: nat, k: nat)
    requires i <= k < |xs| && xs[k] == x
    requires forall p :: i <= p < k ==> xs[p] != x
    ensures x in xs[i..] && FirstIndex(xs, x, i) == k
    decreases k - i
  {
    assert xs[i..][k - i] == x;
    if i < k {
      FirstIndexExact(xs, x, i + 1, k);
    }
  }

  // ---------------------------------------------------------------------------------------
  // States
  // ---------------------------------------------------------------------------------------

  /** The source and target state of each transition, in order. */
  function Endpoints(ts: seq<Transition>): (r: seq<string>)
    ensures |r| == 2 * |ts|
    ensures forall k :: 0 <= k < |ts| ==> r[2 * k] == ts[k].currentState && r[2 * k + 1] == ts[k].nextState
    decreases |ts|
  {
    if ts == [] then []
    else Endpoints(ts[..|ts| - 1]) + [ts[|ts| - 1].currentState, ts[|ts| - 1].nextState]
  }

  /** The states the graph draws: every source and target state, once each. */
  function StatesOf(ts: seq<Transition>): seq<string>
  {
    Dedup(Endpoints(ts))
  }

  /** The graph has each state that some transition leaves or enters, exactly once and nothing
      else; they come in the order in which the transitions first mention them. */
  lemma StatesOfSpec(ts: seq<Transition>)
    ensures forall s :: s in StatesOf(ts) <==> s in Endpoints(ts)
    ensures var states := StatesOf(ts);
      && Distinct(states)
      && (forall s :: s in states <==> exists k :: 0 <= k < |ts| && (ts[k].currentState == s || ts[k].nextState == s))
      && (forall i :: 0 <= i < |states| - 1 ==> FirstIndex(Endpoints(ts), states[i], 0) < FirstIndex(Endpoints(ts), states[i + 1], 0))
  {
    var e := Endpoints(ts);
    DedupSpec(e);
    forall s | s in e
      ensures exists k :: 0 <= k < |ts| && (ts[k].currentState == s || ts[k].nextState == s)
    {
      var p :| 0 <= p < |e| && e[p] == s;
      assert ts[p / 2].currentState == s || ts[p / 2].nextState == s by {
        assert p == 2 * (p / 2) || p == 2 * (p / 2) + 1;
      }
    }
    forall s, k | 0 <= k < |ts| && (ts[k].currentState == s || ts[k].nextState == s)
      ensures s in e
    {
      assert e[2 * k] == ts[k].currentState && e[2 * k + 1] == ts[k].nextState;
    }
  }

  /** The loop of the effect adds the source, then the target of one more transition. */
  lemma StatesOfSnoc(ts: seq<Transition>, i: nat)
    requires i < |ts|
    ensures StatesOf(ts[..i + 1]) == Add(Add(StatesOf(ts[..i]), ts[i].currentState), ts[i].nextState)
  {
    var e := Endpoints(ts[..i]);
    assert ts[..i + 1][..i] == ts[..i];
    var e' := Endpoints(ts[..i + 1]);
    assert e' == e + [ts[i].currentState, ts[i].nextState];
    assert e'[..|e'| - 1] == e + [ts[i].currentState];
    assert (e + [ts[i].currentState])[..|e|] == e;
    assert Dedup(e + [ts[i].currentState]) == Add(Dedup(e), ts[i].currentState);
  }

  // ---------------------------------------------------------------------------------------
  // Edges
  // ---------------------------------------------------------------------------------------

  /** The transitions from `source` to `target`. */
  datatype Group = Group(source: string, target: string, members: seq<Transition>)

  function PairOf(t: Transition): (string, string)
  {
    (t.currentState, t.nextState)
  }

  function Pairs(ts: seq<Transition>): (r: seq<(string, string)>)
    ensures |r| == |ts| && forall k :: 0 <= k < |ts| ==> r[k] == PairOf(ts[k])
  {
    seq(|ts|, k requires 0 <= k < |ts| => PairOf(ts[k]))
  }

  function Keys(groups: seq<Group>): (r: seq<(string, string)>)
    ensures |r| == |groups| && forall k :: 0 <= k < |groups| ==> r[k] == (groups[k].source, groups[k].target)
  {
    seq(|groups|, k requires 0 <= k < |groups| => (groups[k].source, groups[k].target))
  }

  /** `edgeMap.has(key)`: the position of the group for the pair, or `|groups|`. */
  function GroupIndex(groups: seq<Group>, source: string, target: string, i: nat): (k: nat)
    requires i <= |groups|
    ensures i <= k <= |groups|
    ensures k < |groups| ==> groups[k].source == source && groups[k].target == target
    ensures forall p :: i <= p < k ==> (groups[p].source, groups[p].target) != (source, target)
    decreases |groups| - i
  {
    if i == |groups| || (groups[i].source == source && groups[i].target == target) then i
    else GroupIndex(groups, source, target, i + 1)
  }

  /** One iteration of the grouping loop: create the group for the pair if it is missing, then
      push the transition onto it. */
  function AddToGroup(groups: seq<Group>, t: Transition): seq<Group>
  {
    var k := GroupIndex(groups, t.currentState, t.nextState, 0);
    var groups := if k == |groups| then groups + [Group(t.currentState, t.nextState, [])] else groups;
    groups[k := groups[k].(members := groups[k].members + [t])]
  }

  /** `edgeMap` after the grouping loop. */
  function GroupsOf(ts: seq<Transition>): seq<Group>
    decreases |ts|
  {
    if ts == [] then [] else AddToGroup(GroupsOf(ts[..|ts| - 1]), ts[|ts| - 1])
  }

  /** The transitions from `source` to `target`, in input order. */
  function Between(ts: seq<Transition>, source: string, target: string): (r: seq<Transition>)
    ensures forall t :: t in r <==> t in ts && PairOf(t) == (source, target)
    decreases |ts|
  {
    if ts == [] then []
    else
      var t := ts[|ts| - 1];
      Between(ts[..|ts| - 1], source, target) + (if PairOf(t) == (source, target) then [t] else [])
  }

  /** There is one group per distinct (source, target) pair, in the order the pairs first
      occur, and each group holds exactly the transitions with its pair, in input order: every
      transition lands in exactly one edge. */
  lemma GroupsOfSpec(ts: seq<Transition>)
    ensures var groups := GroupsOf(ts);
      && Keys(groups) == Dedup(Pairs(ts))
      && forall k :: 0 <= k < |groups| ==> groups[k].members == Between(ts, groups[k].source, groups[k].target)
  {
    GroupsKeys(ts);
    GroupsMembers(ts);
  }

  /** Every transition is drawn on exactly one edge: the one for its source and target. */
  lemma TransitionOnOneEdge(ts: seq<Transition>, x: Transition)
    requires x in ts
    ensures var groups := GroupsOf(ts);
      exists k :: 0 <= k < |groups| && x in groups[k].members && (groups[k].source, groups[k].target) == PairOf(x)
    ensures var groups := GroupsOf(ts);
      forall k, k' :: 0 <= k < |groups| && 0 <= k' < |groups| && x in groups[k].members && x in groups[k'].members ==> k == k'
  {
    var groups := GroupsOf(ts);
    GroupsOfSpec(ts);
    DedupSpec(Pairs(ts));
    var p :| 0 <= p < |ts| && ts[p] == x;
    assert Pairs(ts)[p] == PairOf(x);
    assert PairOf(x) in Keys(groups);
    var k :| 0 <= k < |groups| && Keys(groups)[k] == PairOf(x);
    assert x in groups[k].members;
    forall k1, k2 | 0 <= k1 < |groups| && 0 <= k2 < |groups| && x in groups[k1].members && x in groups[k2].members
      ensures k1 == k2
    {
      assert Keys(groups)[k1] == PairOf(x) == Keys(groups)[k2];
    }
  }

  /** Pushing a transition adds its pair to the keys when it is new. */
  lemma AddToGroupKeys(groups: seq<Group>, t: Transition)
    ensures Keys(AddToGroup(groups, t)) == Add(Keys(groups), PairOf(t))
  {
    var k := GroupIndex(groups, t.currentState, t.nextState, 0);
    if k == |groups| {
      assert PairOf(t) !in Keys(groups);
      assert Keys(AddToGroup(groups, t)) == Keys(groups) + [PairOf(t)];
    } else {
      assert Keys(groups)[k] == PairOf(t);
    }
  }

  lemma PairsSnoc(init: seq<Transition>, t: Transition)
    ensures Pairs(init + [t]) == Pairs(init) + [PairOf(t)]
  {
  }

  lemma {:induction false} GroupsKeys(ts: seq<Transition>)
    ensures Keys(GroupsOf(ts)) == Dedup(Pairs(ts))
    decreases |ts|
  {
    if ts != [] {
      var init, t := ts[..|ts| - 1], ts[|ts| - 1];
      assert ts == init + [t];
      GroupsKeys(init);
      AddToGroupKeys(GroupsOf(init), t);
      PairsSnoc(init, t);
      assert Pairs(ts)[..|ts| - 1] == Pairs(init);
    }
  }

  lemma BetweenSnoc(init: seq<Transition>, t: Transition, source: string, target: string)
    ensures Between(init + [t], source, target)
      == Between(init, source, target) + (if PairOf(t) == (source, target) then [t] else [])
  {
    assert (init + [t])[..|init|] == init;
  }

  /** No transition has a pair that none of them has. */
  lemma {:induction false} BetweenNone(ts: seq<Transition>, source: string, target: string)
    requires (source, target) !in Pairs(ts)
    ensures Between(ts, source, target) == []
    decreases |ts|
  {
    if ts != [] {
      var init := ts[..|ts| - 1];
      assert forall k :: 0 <= k < |init| ==> Pairs(init)[k] == Pairs(ts)[k];
      assert Pairs(ts)[|ts| - 1] == PairOf(ts[|ts| - 1]);
      BetweenNone(init, source, target);
    }
  }

  /** Pushing a transition onto the groups of `init` gives the groups of `init + [t]`. */
  lemma AddToGroupMembers(groups: seq<Group>, init: seq<Transition>, t: Transition)
    requires Distinct(Keys(groups)) && forall x :: x in Keys(groups) <==> x in Pairs(init)
    requires forall k :: 0 <= k < |groups| ==> groups[k].members == Between(init, groups[k].source, groups[k].target)
    ensures var g := AddToGroup(groups, t);
      forall k :: 0 <= k < |g| ==> g[k].members == Between(init + [t], g[k].source, g[k].target)
  {
    if GroupIndex(groups, t.currentState, t.nextState, 0) == |groups| {
      NewGroupMembers(groups, init, t);
    } else {
      OldGroupMembers(groups, init, t);
    }
  }

  lemma NewGroupMembers(groups: seq<Group>, init: seq<Transition>, t: Transition)
    requires GroupIndex(groups, t.currentState, t.nextState, 0) == |groups|
    requires forall x :: x in Pairs(init) ==> x in Keys(groups)
    requires forall k :: 0 <= k < |groups| ==> groups[k].members == Between(init, groups[k].source, groups[k].target)
    ensures var g := AddToGroup(groups, t);
      forall k :: 0 <= k < |g| ==> g[k].members == Between(init + [t], g[k].source, g[k].target)
  {
    assert PairOf(t) !in Keys(groups);
    var empty: seq<Transition> := [];
    assert empty + [t] == [t];
    var g := groups + [Group(t.currentState, t.nextState, [t])];
    assert AddToGroup(groups, t) == g;
    BetweenNone(init, t.currentState, t.nextState);
    forall k | 0 <= k < |g|
      ensures g[k].members == Between(init + [t], g[k].source, g[k].target)
    {
      BetweenSnoc(init, t, g[k].source, g[k].target);
      if k < |groups| {
        assert Keys(groups)[k] != PairOf(t);
      }
    }
  }

  lemma OldGroupMembers(groups: seq<Group>, init: seq<Transition>, t: Transition)
    requires GroupIndex(groups, t.currentState, t.nextState, 0) < |groups|
    requires Distinct(Keys(groups))
    requires forall k :: 0 <= k < |groups| ==> groups[k].members == Between(init, groups[k].source, groups[k].target)
    ensures var g := AddToGroup(groups, t);
      forall k :: 0 <= k < |g| ==> g[k].members == Between(init + [t], g[k].source, g[k].target)
  {
    var i := GroupIndex(groups, t.currentState, t.nextState, 0);
    var g := groups[i := groups[i].(members := groups[i].members + [t])];
    assert AddToGroup(groups, t) == g;
    forall k | 0 <= k < |g|
      ensures g[k].members == Between(init + [t], g[k].source, g[k].target)
    {
      BetweenSnoc(init, t, g[k].source, g[k].target);
      if k != i {
        assert Keys(groups)[k] != Keys(groups)[i];
      }
    }
  }

  lemma {:induction false} GroupsMembers(ts: seq<Transition>)
    ensures var groups := GroupsOf(ts);
      forall k :: 0 <= k < |groups| ==> groups[k].members == Between(ts, groups[k].source, groups[k].target)
    decreases |ts|
  {
    if ts != [] {
      var init, t := ts[..|ts| - 1], ts[|ts| - 1];
      assert ts == init + [t];
      GroupsKeys(init);
      DedupSpec(Pairs(init));
      GroupsMembers(init);
      AddToGroupMembers(GroupsOf(init), init, t);
    }
  }

  /** A drawn edge; `text` is its label. */
  datatype Edge = Edge(source: string, target: string, transitions: seq<Transition>, isActive: bool, text: string)

  function MoveName(m: Move): string
  {
    match m
    case L => "L"
    case R => "R"
    case N => "N"
  }

  /** The move read from a rule line is drawn with the letter the line wrote. */
  lemma MoveNameOf(c: char)
    requires IsMoveLetter(c)
    ensures MoveName(MoveOf(c)) == [c]
  {
  }

  /** The label of one transition: `read→write,move`. */
  function RuleLabel(t: Transition): string
  {
    t.readSymbol + "→" + t.writeSymbol + "," + MoveName(t.moveDirection)
  }

  /** An edge's label: the labels of its transitions, in order, joined by `, `. */
  function EdgeLabel(members: seq<Transition>): string
  {
    Join(seq(|members|, k requires 0 <= k < |members| => RuleLabel(members[k])), ", ")
  }

  /** The label lists the labels of the edge's transitions in order, separated by `, `: a single
      transition is labelled by itself, and each further one adds `, ` and its own label. */
  lemma EdgeLabelSpec(members: seq<Transition>, t: Transition)
    ensures EdgeLabel([]) == ""
    ensures EdgeLabel([t]) == RuleLabel(t)
    ensures members != [] ==> EdgeLabel(members + [t]) == EdgeLabel(members) + ", " + RuleLabel(t)
  {
    if members != [] {
      var labels := seq(|members|, k requires 0 <= k < |members| => RuleLabel(members[k]));
      var all := members + [t];
      assert seq(|all|, k requires 0 <= k < |all| => RuleLabel(all[k])) == labels + [RuleLabel(t)];
      JoinSnoc(labels, RuleLabel(t), ", ");
    }
  }

  /** The edge drawn for a group, active when it leaves the current state. */
  function EdgeOf(g: Group, currentState: string): Edge
  {
    Edge(g.source, g.target, g.members, g.source == currentState, EdgeLabel(g.members))
  }

  function EdgesOf(groups: seq<Group>, currentState: string): (r: seq<Edge>)
    ensures |r| == |groups| && forall k :: 0 <= k < |groups| ==> r[k] == EdgeOf(groups[k], currentState)
  {
    seq(|groups|, k requires 0 <= k < |groups| => EdgeOf(groups[k], currentState))
  }

  /** An edge is drawn highlighted when it leaves the current state. */
  predicate IsActive(e: Edge, currentState: string)
  {
    e.source == currentState
  }

  /** The edge of a group is active exactly when its source is the current state, and its label
      lists its transitions; a lone transition is labelled with its own label. */
  lemma EdgeOfSpec(g: Group, currentState: string)
    ensures var e := EdgeOf(g, currentState);
      && (e.isActive <==> IsActive(e, currentState))
      && e.source == g.source && e.target == g.target && e.transitions == g.members
      && (|g.members| == 1 ==> e.text == RuleLabel(g.members[0]))
  {
  }

  /** The start marker is drawn on the state literally named `q0`, whatever the start state of
      the table is. */
  predicate IsStartState(state: string)
  {
    state == "q0"
  }

  /** The start marker looks at the name `q0`, not at the program's start state: a program
      without a `start state:` directive starts in `right`, whose node is not marked. */
  lemma DefaultStartUnmarked(code: string)
    requires forall k :: 0 <= k < |SplitOn(code, '\n')| ==>
      Classify(Trim(SplitOn(code, '\n')[k])) !in {InputLine, BlankLine, StartStateLine}
    ensures !IsStartState(StructuredSyntax(code).initialState)
  {
    DefaultsWithoutDirectives(code);
  }

  /** A state from which no transition moves the head. */
  predicate HasNoMovingRule(state: string, ts: seq<Transition>)
  {
    forall k :: 0 <= k < |ts| && ts[k].currentState == state ==> ts[k].moveDirection == N
  }

  /** `finalStates`: the drawn states from which no transition moves the head, in order. */
  function FinalStates(states: seq<string>, ts: seq<Transition>): (r: seq<string>)
    ensures forall s :: s in r <==> s in states && HasNoMovingRule(s, ts)
    decreases |states|
  {
    if states == [] then []
    else
      var s := states[|states| - 1];
      FinalStates(states[..|states| - 1], ts) + (if HasNoMovingRule(s, ts) then [s] else [])
  }

  /** A state that no transition leaves is final. */
  lemma NoRulesFinal(states: seq<string>, ts: seq<Transition>, s: string)
    requires s in states && forall k :: 0 <= k < |ts| ==> ts[k].currentState != s
    ensures s in FinalStates(states, ts)
  {
  }

  // ---------------------------------------------------------------------------------------
  // The component's state and its effect
  // ---------------------------------------------------------------------------------------

  /** The state the component keeps between renders. */
  class StateGraph {
    var states: seq<string>
    var edges: seq<Edge>

    constructor ()
      ensures states == [] && edges == []
    {
      states := [];
      edges := [];
    }

    /** The effect run when the transitions or the current state change. An empty transition
        list leaves the graph as it was. */
    method Refresh(transitions: seq<Transition>, currentState: string)
      modifies this
      ensures transitions == [] ==> states == old(states) && edges == old(edges)
      ensures transitions != [] ==> states == StatesOf(transitions)
      ensures transitions != [] ==> edges == EdgesOf(GroupsOf(transitions), currentState)
    {
      if |transitions| == 0 {
        return;
      }
      var uniqueStates := CollectStates(transitions);
      states := uniqueStates;
      var edgeMap := GroupAll(transitions);
      var edgeList := MakeEdges(edgeMap, currentState);
      edges := edgeList;
    }

    /** `finalStates`, computed from the drawn states and the current transitions. */
    function Finals(transitions: seq<Transition>): (r: seq<string>)
      reads this
      ensures forall s :: s in r <==> s in states && HasNoMovingRule(s, transitions)
    {
      FinalStates(states, transitions)
    }
  }

  /** The loop of the effect that collects the states. */
  method CollectStates(transitions: seq<Transition>) returns (uniqueStates: seq<string>)
    ensures uniqueStates == StatesOf(transitions)
  {
    uniqueStates := [];
    var i := 0;
    while i < |transitions|
      invariant i <= |transitions|
      invariant uniqueStates == StatesOf(transitions[..i])
    {
      StatesOfSnoc(transitions, i);
      uniqueStates := Add(uniqueStates, transitions[i].currentState);
      uniqueStates := Add(uniqueStates, transitions[i].nextState);
      i := i + 1;
    }
    assert transitions[..i] == transitions;
  }

  /** The loop of the effect that turns each group into an edge. */
  method MakeEdges(edgeMap: seq<Group>, currentState: string) returns (edgeList: seq<Edge>)
    ensures edgeList == EdgesOf(edgeMap, currentState)
  {
    edgeList := [];
    var j := 0;
    while j < |edgeMap|
      invariant j <= |edgeMap|
      invariant edgeList == EdgesOf(edgeMap[..j], currentState)
    {
      var g := edgeMap[j];
      edgeList := edgeList + [Edge(g.source, g.target, g.members, g.source == currentState, EdgeLabel(g.members))];
      j := j + 1;
    }
    assert edgeMap[..j] == edgeMap;
  }

  /** The grouping loop of the effect. */
  method GroupAll(transitions: seq<Transition>) returns (edgeMap: seq<Group>)
    ensures edgeMap == GroupsOf(transitions)
  {
    edgeMap := [];
    var i := 0;
    while i < |transitions|
      invariant i <= |transitions|
      invariant edgeMap == GroupsOf(transitions[..i])
    {
      var t := transitions[i];
      assert transitions[..i + 1][..i] == transitions[..i];
      var k := GroupIndex(edgeMap, t.currentState, t.nextState, 0);
      if k == |edgeMap| {
        edgeMap := edgeMap + [Group(t.currentState, t.nextState, [])];
      }
      edgeMap := edgeMap[k := edgeMap[k].(members := edgeMap[k].members + [t])];
      i := i + 1;
    }
    assert transitions[..i] == transitions;
  }
}
