/** What the capped walk amounts to: a prefix of the whole text and a prefix of
    the whole list of elements, with references that can be resolved again. */
module PageProjection {
  import opened Wrappers
  import opened PageText
  import opened PageView

  datatype Projection = Projection(nodes: seq<ProjectedNode>, text: Text, textTruncated: bool, nodesTruncated: bool)

  function StripSpaces(s: Text): Text {
    if EndsWithSpace(s) then StripSpaces(s[..|s| - 1]) else s
  }

  function FromNode(host: Host, limits: Limits, root: Node): Projection {
    var v := Feed(host, limits, EMPTY, Items(root, false, limits.maxNameChars));
    Projection(v.nodes, StripSpaces(v.text), v.textTruncated, v.nodesTruncated)
  }

  method Project(host: Host, limits: Limits, root: Node) returns (p: Projection)
    ensures p == FromNode(host, limits, root)
  {
    var walker := new Walker(host, limits);
    walker.Visit(root, false);
    var text := walker.text;
    while EndsWithSpace(text)
      invariant StripSpaces(text) == StripSpaces(walker.text)
      decreases |text|
    {
      text := text[..|text| - 1];
    }
    p := Projection(walker.nodes, text, walker.textTruncated, walker.nodesTruncated);
  }

  // ------------------------------------------------------- the uncapped page

  function Controls(items: seq<Item>): seq<Control> {
    if items == [] then []
    else
      Controls(items[..|items| - 1]) + (match items[|items| - 1] case Run(_) => [] case Element(c) => [c])
  }

  /** The collapsed text runs that are not empty. */
  function Runs(items: seq<Item>): seq<Text> {
    if items == [] then []
    else
      Runs(items[..|items| - 1])
      + (match items[|items| - 1]
         case Run(raw) => if Collapse(raw) == [] then [] else [Collapse(raw)]
         case Element(_) => [])
  }

  function SpaceJoined(runs: seq<Text>): Text {
    if runs == [] then ""
    else if |runs| == 1 then runs[0]
    else SpaceJoined(runs[..|runs| - 1]) + " " + runs[|runs| - 1]
  }

  function Numbered(host: Host, controls: seq<Control>): (nodes: seq<ProjectedNode>)
    ensures |nodes| == |controls|
    ensures forall i :: 0 <= i < |nodes| ==> nodes[i] == ProjectedNode(MakeReference(host, i, controls[i]), controls[i])
  {
    seq(|controls|, i requires 0 <= i < |controls| => ProjectedNode(MakeReference(host, i, controls[i]), controls[i]))
  }

  ghost predicate NodesRefine(host: Host, limits: Limits, v: View, controls: seq<Control>) {
    && v.nodes == Numbered(host, Truncated(controls, limits.maxNodes))
    && v.interactableIndex == |v.nodes|
    && (v.nodesTruncated <==> |controls| > limits.maxNodes)
  }

  ghost predicate TextRefines(limits: Limits, v: View, whole: Text) {
    && (v.textTruncated <==> |whole| > limits.maxChars)
    && (!v.textTruncated ==> v.text == whole)
    && StripSpaces(v.text) == StripSpaces(Truncated(whole, limits.maxChars))
  }

  lemma {:induction false} RunsAreSolid(items: seq<Item>)
    ensures Solid(Runs(items))
  {
    if items != [] {
      var last := items[|items| - 1];
      RunsAreSolid(items[..|items| - 1]);
      if last.Run? {
        CollapseIsClean(last.raw);
      }
    }
  }

  lemma {:induction false} FeedNodes(host: Host, limits: Limits, items: seq<Item>)
    ensures NodesRefine(host, limits, Feed(host, limits, EMPTY, items), Controls(items))
  {
    if items != [] {
      var rest, last := items[..|items| - 1], items[|items| - 1];
      FeedNodes(host, limits, rest);
      if last.Element? {
        OneMoreNode(host, limits, Feed(host, limits, EMPTY, rest), Controls(rest), last.control);
      }
    }
  }

  lemma OneMoreNode(host: Host, limits: Limits, v: View, controls: seq<Control>, c: Control)
    requires NodesRefine(host, limits, v, controls)
    ensures NodesRefine(host, limits, Record(host, limits, v, c), controls + [c])
  {
  }

  lemma {:induction false} FeedText(host: Host, limits: Limits, items: seq<Item>)
    ensures TextRefines(limits, Feed(host, limits, EMPTY, items), SpaceJoined(Runs(items)))
  {
    hide TextRefines, PushText, SpaceJoined;
    if items == [] {
      EmptyText(limits);
    } else {
      var rest, last := items[..|items| - 1], items[|items| - 1];
      var v := Feed(host, limits, EMPTY, rest);
      FeedText(host, limits, rest);
      match last
      case Run(raw) =>
        RunsAreSolid(rest);
        OneMoreRun(limits, v, Runs(rest), raw);
      case Element(c) =>
        assert Runs(items) == Runs(rest);
        SameText(limits, v, Record(host, limits, v, c), SpaceJoined(Runs(rest)));
    }
  }

  lemma EmptyText(limits: Limits)
    ensures TextRefines(limits, EMPTY, SpaceJoined([]))
  {
  }

  lemma SameText(limits: Limits, v: View, v': View, whole: Text)
    requires TextRefines(limits, v, whole) && v'.text == v.text && v'.textTruncated == v.textTruncated
    ensures TextRefines(limits, v', whole)
  {
  }

  ghost predicate Solid(runs: seq<Text>) {
    forall i :: 0 <= i < |runs| ==> runs[i] != [] && !EndsWithSpace(runs[i])
  }

  lemma JoinIsSolid(runs: seq<Text>)
    requires Solid(runs) && runs != []
    ensures SpaceJoined(runs) != [] && !EndsWithSpace(SpaceJoined(runs))
  {
  }

  lemma OneMoreRun(limits: Limits, v: View, runs: seq<Text>, raw: Text)
    requires TextRefines(limits, v, SpaceJoined(runs)) && Solid(runs)
    ensures TextRefines(limits, PushText(v, raw, limits.maxChars),
                        SpaceJoined(runs + (if Collapse(raw) == [] then [] else [Collapse(raw)])))
  {
    hide Collapse, StripSpaces;
    var c, whole := Collapse(raw), SpaceJoined(runs);
    if c == [] {
      assert runs + [] == runs;
    } else {
      assert (runs + [c])[..|runs|] == runs;
      if runs == [] {
        assert SpaceJoined([c]) == "" + c;
        Appended(limits, v, whole, "", c, PushText(v, raw, limits.maxChars));
      } else {
        JoinIsSolid(runs);
        Appended(limits, v, whole, whole + " ", c, PushText(v, raw, limits.maxChars));
      }
    }
  }

  lemma Appended(limits: Limits, v: View, whole: Text, start: Text, c: Text, v': View)
    requires TextRefines(limits, v, whole) && c != []
    requires start == whole || start == whole + " "
    requires v.textTruncated ==> v' == v
    requires !v.textTruncated ==>
               var room := if |start| < limits.maxChars then limits.maxChars - |start| else 0;
               v' == v.(text := start + Truncated(c, room), textTruncated := room < |c|)
    ensures TextRefines(limits, v', start + c)
  {
    var max, joined := limits.maxChars, start + c;
    if v.textTruncated {
      assert joined[..max] == whole[..max];
    } else if |joined| <= max {
      assert v'.text == joined;
    } else if |start| <= max {
      assert v'.text == joined[..max];
    } else {
      assert v'.text == start == whole + " " && joined[..max] == whole;
      assert v'.text[..|v'.text| - 1] == whole;
    }
  }

  /** Refinement. The text is the first `maxChars` characters of the whole text
      without trailing spaces, and is flagged exactly when there was more; the
      nodes are the first `maxNodes` of the whole list, flagged likewise. */
  lemma CappedWalkIsPrefix(host: Host, limits: Limits, root: Node)
    ensures var items := Items(root, false, limits.maxNameChars);
            var whole, controls := SpaceJoined(Runs(items)), Controls(items);
            FromNode(host, limits, root)
            == Projection(Numbered(host, Truncated(controls, limits.maxNodes)),
                          StripSpaces(Truncated(whole, limits.maxChars)),
                          |whole| > limits.maxChars, |controls| > limits.maxNodes)
  {
    FeedNodes(host, limits, Items(root, false, limits.maxNameChars));
    FeedText(host, limits, Items(root, false, limits.maxNameChars));
  }

  // ------------------------------------------------------------- references

  datatype ResolveError = NotFound | Ambiguous | Stale | NoNode

  function Find(nodes: seq<ProjectedNode>, reference: Text): Option<ProjectedNode> {
    if nodes == [] then None
    else if nodes[0].reference == reference then Some(nodes[0])
    else Find(nodes[1..], reference)
  }

  /** `resolve_reference`, and the refusal of a node the browser gave no id. */
  function ResolveReference(p: Projection, reference: Text): Result<ProjectedNode, ResolveError> {
    match Find(p.nodes, reference)
    case None => Failure(Stale)
    case Some(node) => if node.control.id == 0 then Failure(NoNode) else Success(node)
  }

  /** The position and identity that a reference spells out. */
  lemma ReferenceSpells(host: Host, i: nat, j: nat, c: Control, d: Control)
    ensures MakeReference(host, i, c) == MakeReference(host, j, d)
            <==> i == j && Identity(host, c.tag, c.role, c.name) == Identity(host, d.tag, d.role, d.name)
  {
    hide Identity;
    var a, b := Decimal(i), Decimal(j);
    var x, y := Identity(host, c.tag, c.role, c.name), Identity(host, d.tag, d.role, d.name);
    if MakeReference(host, i, c) == MakeReference(host, j, d) {
      var s := "e" + a + "." + x;
      assert s == "e" + b + "." + y;
      DotsAgree(a, x, b, y);
      DecimalInjective(i, j);
    }
  }

  /** Numerals contain no dot, so the first dot ends them. */
  lemma DotsAgree(a: Text, x: Text, b: Text, y: Text)
    requires "e" + a + "." + x == "e" + b + "." + y
    requires forall i :: 0 <= i < |a| ==> '0' <= a[i] <= '9'
    requires forall i :: 0 <= i < |b| ==> '0' <= b[i] <= '9'
    ensures a == b && x == y
  {
    var s, t := "e" + a + "." + x, "e" + b + "." + y;
    assert s[1 + |a|] == '.' && t[1 + |b|] == '.';
    assert forall i :: 0 <= i < |a| ==> s[1 + i] == a[i];
    assert forall i :: 0 <= i < |b| ==> t[1 + i] == b[i];
    assert a == s[1..1 + |a|] && b == t[1..1 + |b|];
    assert x == s[2 + |a|..] && y == t[2 + |b|..];
  }

  lemma NodeAt(host: Host, limits: Limits, root: Node, i: nat)
    requires i < |FromNode(host, limits, root).nodes|
    ensures var controls := Controls(Items(root, false, limits.maxNameChars));
            && |FromNode(host, limits, root).nodes| == |Truncated(controls, limits.maxNodes)|
            && i < |controls|
            && FromNode(host, limits, root).nodes[i] == ProjectedNode(MakeReference(host, i, controls[i]), controls[i])
  {
    hide Items, MakeReference, Controls;
    CappedWalkIsPrefix(host, limits, root);
  }

  /** References within one projection are pairwise distinct. */
  lemma ReferencesAreDistinct(host: Host, limits: Limits, root: Node, i: nat, j: nat)
    requires i < j < |FromNode(host, limits, root).nodes|
    ensures FromNode(host, limits, root).nodes[i].reference != FromNode(host, limits, root).nodes[j].reference
  {
    hide FromNode, Items, MakeReference, Controls;
    NodeAt(host, limits, root, i);
    NodeAt(host, limits, root, j);
    var controls := Controls(Items(root, false, limits.maxNameChars));
    ReferenceSpells(host, i, j, controls[i], controls[j]);
  }

  /** Asking for less shows a prefix of what asking for more shows. */
  lemma SmallerLimitsShowAPrefix(host: Host, a: Limits, b: Limits, root: Node)
    requires a.maxNodes <= b.maxNodes && a.maxNameChars == b.maxNameChars
    ensures FromNode(host, a, root).nodes <= FromNode(host, b, root).nodes
  {
    hide Items, MakeReference, Controls;
    CappedWalkIsPrefix(host, a, root);
    CappedWalkIsPrefix(host, b, root);
    var controls := Controls(Items(root, false, a.maxNameChars));
    assert forall i :: 0 <= i < |Truncated(controls, a.maxNodes)| ==>
                         Truncated(controls, a.maxNodes)[i] == Truncated(controls, b.maxNodes)[i];
  }

  lemma {:induction false} FindsTheOnlyOne(nodes: seq<ProjectedNode>, k: nat)
    requires k < |nodes| && forall i :: 0 <= i < k ==> nodes[i].reference != nodes[k].reference
    ensures Find(nodes, nodes[k].reference) == Some(nodes[k])
  {
    if k > 0 {
      FindsTheOnlyOne(nodes[1..], k - 1);
    }
  }

  lemma {:induction false} FoundIsThere(nodes: seq<ProjectedNode>, reference: Text)
    requires Find(nodes, reference).Some?
    ensures exists k :: 0 <= k < |nodes| && nodes[k] == Find(nodes, reference).value && nodes[k].reference == reference
  {
    if nodes[0].reference != reference {
      FoundIsThere(nodes[1..], reference);
      var k :| 0 <= k < |nodes| - 1 && nodes[1..][k] == Find(nodes, reference).value
               && nodes[1..][k].reference == reference;
      assert nodes[k + 1] == nodes[1..][k];
    }
  }

  /** Whatever a snapshot shows, its reference resolves to that very node while
      the page stays the same, whatever limits the agent asked for. */
  lemma SnapshotResolves(host: Host, maxNodes: Option<nat>, maxChars: Option<nat>, root: Node, i: nat)
    requires i < |FromNode(host, Clamped(maxNodes, maxChars), root).nodes|
    ensures var shown := FromNode(host, Clamped(maxNodes, maxChars), root).nodes[i];
            ResolveReference(FromNode(host, Clamped(Some(MAX_NODES), None), root), shown.reference)
            == if shown.control.id == 0 then Failure(NoNode) else Success(shown)
  {
    hide FromNode;
    var small, large := Clamped(maxNodes, maxChars), Clamped(Some(MAX_NODES), None);
    SmallerLimitsShowAPrefix(host, small, large, root);
    var nodes := FromNode(host, large, root).nodes;
    assert nodes[i] == FromNode(host, small, root).nodes[i];
    forall j | 0 <= j < i
      ensures nodes[j].reference != nodes[i].reference
    {
      ReferencesAreDistinct(host, large, root, j, i);
    }
    FindsTheOnlyOne(nodes, i);
  }

  /** On any later page, a reference that still resolves names the element at
      the same position with the same identity digest. */
  lemma ResolvedIsTheSame(host: Host, limits: Limits, shown: Node, later: Node, i: nat)
    requires i < |FromNode(host, limits, shown).nodes|
    requires ResolveReference(FromNode(host, limits, later), FromNode(host, limits, shown).nodes[i].reference).Success?
    ensures var before := FromNode(host, limits, shown).nodes[i];
            var now := ResolveReference(FromNode(host, limits, later), before.reference).value;
            && i < |FromNode(host, limits, later).nodes| && now == FromNode(host, limits, later).nodes[i]
            && Identity(host, now.control.tag, now.control.role, now.control.name)
               == Identity(host, before.control.tag, before.control.role, before.control.name)
            && now.control.id != 0
  {
    hide FromNode, Items, MakeReference, Controls, Identity;
    var nodes := FromNode(host, limits, later).nodes;
    var before := FromNode(host, limits, shown).nodes[i];
    FoundIsThere(nodes, before.reference);
    var k :| 0 <= k < |nodes| && nodes[k] == Find(nodes, before.reference).value
             && nodes[k].reference == before.reference;
    NodeAt(host, limits, shown, i);
    NodeAt(host, limits, later, k);
    ReferenceSpells(host, i, k, before.control, nodes[k].control);
  }

  // ---------------------------------------------------- role and text locators

  predicate Matches(host: Host, role: Option<Text>, name: Text, c: Control) {
    && (role.Some? ==> c.role == Lower(Trim(role.value)))
    && NormalizeForMatch(host, c.name) == NormalizeForMatch(host, name)
  }

  ghost predicate MatchesAt(host: Host, role: Option<Text>, name: Text, nodes: seq<ProjectedNode>, i: int) {
    0 <= i < |nodes| && Matches(host, role, name, nodes[i].control)
  }

  /** `resolve_role`, and `resolve_text` when no role is given: never a guess. */
  method ResolveByName(host: Host, p: Projection, role: Option<Text>, name: Text)
    returns (r: Result<ProjectedNode, ResolveError>)
    ensures r.Success? ==> exists i :: MatchesAt(host, role, name, p.nodes, i) && r.value == p.nodes[i]
                                       && forall j :: MatchesAt(host, role, name, p.nodes, j) ==> j == i
    ensures r == Failure(NotFound) <==> forall i :: !MatchesAt(host, role, name, p.nodes, i)
    ensures r == Failure(Ambiguous)
            <==> exists i, j ::
                   i != j && MatchesAt(host, role, name, p.nodes, i) && MatchesAt(host, role, name, p.nodes, j)
    ensures r.Failure? ==> r.error == NotFound || r.error == Ambiguous
  {
    hide Matches;
    var i := 0;
    while i < |p.nodes| && !Matches(host, role, name, p.nodes[i].control)
      invariant 0 <= i <= |p.nodes|
      invariant forall j :: 0 <= j < i ==> !Matches(host, role, name, p.nodes[j].control)
    {
      i := i + 1;
    }
    if i == |p.nodes| {
      return Failure(NotFound);
    }
    assert MatchesAt(host, role, name, p.nodes, i);
    var k := i + 1;
    while k < |p.nodes| && !Matches(host, role, name, p.nodes[k].control)
      invariant i < k <= |p.nodes|
      invariant forall j :: i < j < k ==> !Matches(host, role, name, p.nodes[j].control)
    {
      k := k + 1;
    }
    if k < |p.nodes| {
      assert MatchesAt(host, role, name, p.nodes, k);
      return Failure(Ambiguous);
    }
    return Success(p.nodes[i]);
  }
}
