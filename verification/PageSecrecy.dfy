/** Non-interference of the page projection: what lies at or below a protected
    element, in non-content subtrees or in frames makes no difference to it. */
module PageSecrecy {
  import opened Wrappers
  import opened PageText
  import opened PageView
  import opened PageProjection

  predicate IsLabel(key: Text) {
    key in ["aria-label", "placeholder", "title", "alt", "value"]
  }

  /** The attribute list with every label emptied. */
  function Blanked(list: seq<Option<Text>>): seq<Option<Text>> {
    if |list| < 2 then list
    else
      [list[0], if list[0].Some? && list[1].Some? && IsLabel(Lower(list[0].value)) then Some("") else list[1]]
      + Blanked(list[2..])
  }

  /** The page with text and labels removed at and below protected elements,
      non-content subtrees and comments emptied, frames taken out. */
  function Redacted(node: Node, inherited: bool): Node
    decreases node, 1
  {
    var protected := ChildrenProtected(node, inherited);
    if node.kind == TEXT then Node(TEXT, node.name, if inherited then None else node.value, node.id, [], [], None)
    else if !IsContainer(node) then Node(node.kind, node.name, None, 0, [], [], None)
    else
      Node(node.kind, node.name, None, node.id, if protected then Blanked(node.attributes) else node.attributes,
           AllRedacted(node.children, protected), None)
  }

  function AllRedacted(nodes: seq<Node>, inherited: bool): (r: seq<Node>)
    ensures |r| == |nodes|
    decreases nodes, 0
  {
    if nodes == [] then [] else [Redacted(nodes[0], inherited)] + AllRedacted(nodes[1..], inherited)
  }

  // ------------------------------------------------------------- attributes

  lemma {:induction false} BlankingKeepsOthers(list: seq<Option<Text>>, key: Text)
    requires !IsLabel(key)
    ensures Get(PairsOf(Blanked(list)), key) == Get(PairsOf(list), key)
  {
    if |list| >= 2 {
      var rest := list[2..];
      BlankingKeepsOthers(rest, key);
      assert Blanked(list)[2..] == Blanked(rest);
      var some := list[0].Some? && list[1].Some?;
      if some {
        var v := Blanked(list)[1].value;
        var name := Lower(list[0].value);
        assert PairsOf(list) == [(name, list[1].value)] + PairsOf(rest);
        assert PairsOf(Blanked(list)) == [(name, v)] + PairsOf(Blanked(rest));
      } else {
        assert PairsOf(list) == PairsOf(rest);
        assert PairsOf(Blanked(list)) == PairsOf(Blanked(rest));
      }
    }
  }

  lemma BlankingKeepsProtection(list: seq<Option<Text>>)
    ensures IsProtected(PairsOf(Blanked(list))) == IsProtected(PairsOf(list))
  {
    hide Get, PairsOf, Blanked, ProtectedFragments, ProtectedAutocomplete, AnyIn;
    NotLabels();
    BlankingKeepsOthers(list, "type");
    BlankingKeepsOthers(list, "autocomplete");
    BlankingKeepsOthers(list, "name");
    BlankingKeepsOthers(list, "id");
    BlankingKeepsOthers(list, "data-testid");
  }

  lemma NotLabels()
    ensures !IsLabel("type") && !IsLabel("autocomplete") && !IsLabel("name") && !IsLabel("id")
    ensures !IsLabel("data-testid")
    ensures !IsLabel("role") && !IsLabel("href") && !IsLabel("disabled") && !IsLabel("aria-disabled")
    ensures !IsLabel("hidden") && !IsLabel("aria-hidden") && !IsLabel("style")
  {
  }

  lemma BlankingKeepsRole(tag: Text, list: seq<Option<Text>>)
    ensures DeriveRole(tag, PairsOf(Blanked(list))) == DeriveRole(tag, PairsOf(list))
  {
    hide Get, PairsOf, Blanked, Trim, InputRole, IsInteractable;
    NotLabels();
    BlankingKeepsOthers(list, "role");
    BlankingKeepsOthers(list, "href");
    BlankingKeepsOthers(list, "type");
  }

  lemma BlankingKeepsHidden(tag: Text, list: seq<Option<Text>>)
    ensures IsStructurallyHidden(PairsOf(Blanked(list)), tag) == IsStructurallyHidden(PairsOf(list), tag)
  {
    hide Get, PairsOf, Blanked, Contains;
    NotLabels();
    BlankingKeepsOthers(list, "type");
    BlankingKeepsOthers(list, "hidden");
    BlankingKeepsOthers(list, "aria-hidden");
    BlankingKeepsOthers(list, "style");
  }

  // ------------------------------------------------------------------ names

  lemma {:induction false} NamesIgnoreRedaction(node: Node, depth: nat)
    ensures IsContainer(node) && !IsProtected(PairsOf(node.attributes))
            ==> DescendantText(Redacted(node, false), depth) == DescendantText(node, depth)
    decreases node, 1
  {
    hide IsProtected, IsNonContent, PairsOf;
    if IsContainer(node) && !IsProtected(PairsOf(node.attributes)) && depth <= NAME_DEPTH {
      ChildrenNamesIgnoreRedaction(node.children, depth, "");
    }
  }

  lemma {:induction false} ChildrenNamesIgnoreRedaction(children: seq<Node>, depth: nat, collected: Text)
    ensures ChildrenText(AllRedacted(children, false), depth, collected) == ChildrenText(children, depth, collected)
    decreases children, 0
  {
    hide IsProtected, IsNonContent, PairsOf, Utf8Length;
    if children != [] {
      ChildNameIgnoresRedaction(children[0], depth);
      var rest := AllRedacted(children[1..], false);
      assert AllRedacted(children, false)[1..] == rest;
      ChildrenNamesIgnoreRedaction(children[1..], depth, collected + ChildText(children[0], depth));
    }
  }

  lemma {:induction false} ChildNameIgnoresRedaction(child: Node, depth: nat)
    ensures ChildText(Redacted(child, false), depth) == ChildText(child, depth)
    ensures IsSkipped(Redacted(child, false)) == IsSkipped(child)
    decreases child, 2
  {
    hide IsProtected, IsNonContent, PairsOf, DescendantText, Blanked;
    if child.kind == ELEMENT && IsContainer(child) {
      BlankingKeepsProtection(child.attributes);
      NamesIgnoreRedaction(child, depth + 1);
    }
  }

  // ------------------------------------------------------------------- walk

  lemma BlankedControl(node: Node, tag: Text, list: seq<Option<Text>>, maxNameChars: nat)
    requires list == Blanked(node.attributes)
    ensures forall r: Node :: r.id == node.id ==>
              ControlOf(r, tag, PairsOf(list), true, maxNameChars)
              == ControlOf(node, tag, PairsOf(node.attributes), true, maxNameChars)
  {
    hide Get, PairsOf, Blanked, DeriveRole, IsStructurallyHidden, AccessibleName;
    NotLabels();
    BlankingKeepsRole(tag, node.attributes);
    BlankingKeepsHidden(tag, node.attributes);
    BlankingKeepsOthers(node.attributes, "type");
    BlankingKeepsOthers(node.attributes, "disabled");
    BlankingKeepsOthers(node.attributes, "aria-disabled");
  }

  lemma OpenControl(node: Node, tag: Text, maxNameChars: nat)
    requires IsContainer(node) && !IsProtected(PairsOf(node.attributes))
    ensures var r := Redacted(node, false);
            ControlOf(r, tag, PairsOf(r.attributes), false, maxNameChars)
            == ControlOf(node, tag, PairsOf(node.attributes), false, maxNameChars)
  {
    hide DeriveRole, IsStructurallyHidden, IsProtected, PairsOf, DescendantText, InputName, FirstLabel;
    NamesIgnoreRedaction(node, 0);
  }

  lemma OwnItemsIgnoreRedaction(node: Node, inherited: bool, maxNameChars: nat)
    ensures OwnItems(Redacted(node, inherited), inherited, maxNameChars) == OwnItems(node, inherited, maxNameChars)
    ensures IsContainer(node) ==>
              ChildrenProtected(Redacted(node, inherited), inherited) == ChildrenProtected(node, inherited)
    ensures IsContainer(Redacted(node, inherited)) == IsContainer(node)
  {
    hide DeriveRole, IsProtected, PairsOf, ControlOf, IsInteractable, Blanked;
    if IsContainer(node) {
      var tag := Lower(node.name);
      BlankingKeepsProtection(node.attributes);
      BlankingKeepsRole(tag, node.attributes);
      if ChildrenProtected(node, inherited) {
        BlankedControl(node, tag, Blanked(node.attributes), maxNameChars);
      } else {
        OpenControl(node, tag, maxNameChars);
      }
    }
  }

  lemma {:induction false} ItemsIgnoreRedaction(node: Node, inherited: bool, maxNameChars: nat)
    ensures Items(Redacted(node, inherited), inherited, maxNameChars) == Items(node, inherited, maxNameChars)
    decreases node, 1
  {
    hide OwnItems, ChildrenProtected, IsNonContent, Blanked;
    OwnItemsIgnoreRedaction(node, inherited, maxNameChars);
    if IsContainer(node) {
      AllItemsIgnoreRedaction(node.children, ChildrenProtected(node, inherited), maxNameChars);
    }
  }

  lemma {:induction false} AllItemsIgnoreRedaction(nodes: seq<Node>, inherited: bool, maxNameChars: nat)
    ensures AllItems(AllRedacted(nodes, inherited), inherited, maxNameChars) == AllItems(nodes, inherited, maxNameChars)
    decreases nodes, 0
  {
    hide Items, Redacted;
    if nodes != [] {
      ItemsIgnoreRedaction(nodes[0], inherited, maxNameChars);
      AllItemsIgnoreRedaction(nodes[1..], inherited, maxNameChars);
      assert AllRedacted(nodes, inherited)[1..] == AllRedacted(nodes[1..], inherited);
    }
  }

  /** Non-interference: the projection of a page is the projection of the page
      with everything protected, non-content or framed blanked out. */
  lemma ProjectionIgnoresRedaction(host: Host, limits: Limits, root: Node)
    ensures FromNode(host, limits, Redacted(root, false)) == FromNode(host, limits, root)
  {
    hide Items, Redacted, Feed;
    ItemsIgnoreRedaction(root, false, limits.maxNameChars);
  }

  /** So two pages that differ only there cannot be told apart. */
  lemma IndistinguishablePages(host: Host, limits: Limits, a: Node, b: Node)
    requires Redacted(a, false) == Redacted(b, false)
    ensures FromNode(host, limits, a) == FromNode(host, limits, b)
  {
    hide Redacted, FromNode;
    ProjectionIgnoresRedaction(host, limits, a);
    ProjectionIgnoresRedaction(host, limits, b);
  }

  /** Below a protected element nothing is left to show but bare controls. */
  lemma {:induction false} NothingProtectedIsShown(node: Node, maxNameChars: nat)
    ensures forall i :: 0 <= i < |Items(node, true, maxNameChars)| ==>
              && Items(node, true, maxNameChars)[i].Element?
              && Items(node, true, maxNameChars)[i].control.protected
              && Items(node, true, maxNameChars)[i].control.name == ""
    decreases node, 1
  {
    hide DeriveRole, IsProtected, PairsOf, IsInteractable, IsNonContent;
    if IsContainer(node) {
      NothingInProtectedIsShown(node.children, maxNameChars);
    }
  }

  lemma {:induction false} NothingInProtectedIsShown(nodes: seq<Node>, maxNameChars: nat)
    ensures forall i :: 0 <= i < |AllItems(nodes, true, maxNameChars)| ==>
              && AllItems(nodes, true, maxNameChars)[i].Element?
              && AllItems(nodes, true, maxNameChars)[i].control.protected
              && AllItems(nodes, true, maxNameChars)[i].control.name == ""
    decreases nodes, 0
  {
    hide Items;
    if nodes != [] {
      NothingProtectedIsShown(nodes[0], maxNameChars);
      NothingInProtectedIsShown(nodes[1..], maxNameChars);
    }
  }
}
