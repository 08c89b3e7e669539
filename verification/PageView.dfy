/** The page projection an agent is shown instead of a document: a capped walk
    that elides protected subtrees. */
module PageView {
  import opened Wrappers
  import opened PageText

  /** A node of the browser's document. `kind` is 0 when it has no type; the
      attribute list is flat, `None` where an item is not a string. */
  datatype Node = Node(
    kind: nat, name: Text, value: Option<Text>, id: nat, attributes: seq<Option<Text>>, children: seq<Node>,
    frame: Option<Node>)

  const ELEMENT: nat := 1
  const TEXT: nat := 3
  const DOCUMENT: nat := 9
  const FRAGMENT: nat := 11

  datatype Limits = Limits(maxNodes: nat, maxChars: nat, maxNameChars: nat)

  function Clamp(n: nat, low: nat, high: nat): nat
    requires low <= high
  {
    if n < low then low else if n > high then high else n
  }

  const MAX_NODES: nat := 250

  function Clamped(nodes: Option<nat>, chars: Option<nat>): (l: Limits)
    ensures 1 <= l.maxNodes <= MAX_NODES && 1 <= l.maxChars <= 20_000
  {
    Limits(Clamp(if nodes.Some? then nodes.value else 100, 1, MAX_NODES),
           Clamp(if chars.Some? then chars.value else 4_000, 1, 20_000), 120)
  }

  /** Unicode lower-casing, and the six hex digits that start a SHA-256. */
  datatype Host = Host(lowercase: Text -> Text, digest: Text -> Text)

  // ------------------------------------------------------------- attributes

  type Pairs = seq<(Text, Text)>

  function PairsOf(list: seq<Option<Text>>): Pairs {
    if |list| < 2 then []
    else
      (if list[0].Some? && list[1].Some? then [(Lower(list[0].value), list[1].value)] else []) + PairsOf(list[2..])
  }

  function Get(pairs: Pairs, key: Text): Option<Text> {
    if pairs == [] then None else if pairs[0].0 == key then Some(pairs[0].1) else Get(pairs[1..], key)
  }

  predicate Has(pairs: Pairs, key: Text) {
    Get(pairs, key).Some?
  }

  predicate ValueIs(pairs: Pairs, key: Text, expected: Text) {
    Get(pairs, key).Some? && Lower(Get(pairs, key).value) == Lower(expected)
  }

  function ValueOr(pairs: Pairs, key: Text, default: Text): Text {
    match Get(pairs, key) case None => default case Some(v) => v
  }

  predicate AnyIn(s: Text, fragments: seq<Text>) {
    exists i :: 0 <= i < |fragments| && Contains(s, fragments[i])
  }

  predicate Mentions(pairs: Pairs, key: Text, fragments: seq<Text>) {
    Get(pairs, key).Some? && AnyIn(Lower(Get(pairs, key).value), fragments)
  }

  function ProtectedFragments(): seq<Text> {
    ["password", "passwd", "otp", "totp", "secret", "token", "cvv", "cvc"]
  }

  function ProtectedAutocomplete(): seq<Text> {
    ["current-password", "new-password", "one-time-code"]
  }

  /** The single definition of a credential-bearing element. */
  predicate IsProtected(pairs: Pairs) {
    || ValueIs(pairs, "type", "password")
    || Mentions(pairs, "autocomplete", ProtectedAutocomplete())
    || Mentions(pairs, "name", ProtectedFragments())
    || Mentions(pairs, "id", ProtectedFragments())
    || Mentions(pairs, "data-testid", ProtectedFragments())
  }

  predicate IsStructurallyHidden(pairs: Pairs, tag: Text) {
    || Has(pairs, "hidden") || ValueIs(pairs, "aria-hidden", "true")
    || (tag == "input" && ValueIs(pairs, "type", "hidden"))
    || (Has(pairs, "style")
        && var style := Without(Lower(Get(pairs, "style").value), ' ');
           Contains(style, "display:none") || Contains(style, "visibility:hidden"))
  }

  // ------------------------------------------------------------------ roles

  predicate IsInteractable(role: Text) {
    role in ["link", "button", "textbox", "checkbox", "radio", "combobox"]
  }

  predicate IsNonContent(tag: Text) {
    tag in ["script", "style", "noscript", "template", "head", "svg"]
  }

  function InputRole(kind: Text): Text {
    if kind in ["button", "submit", "reset", "image"] then "button"
    else if kind == "checkbox" then "checkbox"
    else if kind == "radio" then "radio"
    else if kind == "hidden" then "generic"
    else "textbox"
  }

  function DeriveRole(tag: Text, pairs: Pairs): Text {
    var explicit := Lower(Trim(ValueOr(pairs, "role", "")));
    if Has(pairs, "role") && IsInteractable(explicit) then explicit
    else if tag == "a" && Has(pairs, "href") then "link"
    else if tag == "button" then "button"
    else if tag == "select" then "combobox"
    else if tag == "textarea" then "textbox"
    else if tag == "input" then InputRole(Lower(ValueOr(pairs, "type", "text")))
    else "generic"
  }

  // ------------------------------------------------------------------ names

  const NAME_BYTES: nat := 512
  const NAME_DEPTH: nat := 4

  function Utf8Length(s: Text): nat {
    if s == [] then 0
    else
      (var n := s[0] as int; if n < 0x80 then 1 else if n < 0x800 then 2 else if n < 0x1_0000 then 3 else 4)
      + Utf8Length(s[1..])
  }

  /** What one child adds to its parent's name. */
  function ChildText(child: Node, depth: nat): Text
    decreases child, 1
  {
    if child.kind == TEXT then
      (match child.value case None => "" case Some(v) => v + " ")
    else if child.kind == ELEMENT && !IsNonContent(Lower(child.name)) && !IsProtected(PairsOf(child.attributes)) then
      DescendantText(child, depth + 1)
    else ""
  }

  /** Children in order, until what is collected passes the byte limit. A child
      that is skipped is skipped before the limit is tested. */
  function ChildrenText(children: seq<Node>, depth: nat, collected: Text): Text
    decreases children, 0
  {
    if children == [] then collected
    else
      var more := collected + ChildText(children[0], depth);
      if !IsSkipped(children[0]) && Utf8Length(more) > NAME_BYTES then more
      else ChildrenText(children[1..], depth, more)
  }

  predicate IsSkipped(child: Node) {
    child.kind == ELEMENT && (IsNonContent(Lower(child.name)) || IsProtected(PairsOf(child.attributes)))
  }

  function DescendantText(node: Node, depth: nat): Text
    decreases node, 0
  {
    if depth > NAME_DEPTH then "" else ChildrenText(node.children, depth, "")
  }

  predicate IsBlank(s: Text) {
    Trim(s) == ""
  }

  /** The first of these attributes that says anything. */
  function FirstLabel(pairs: Pairs, keys: seq<Text>): Option<Text> {
    if keys == [] then None
    else if Has(pairs, keys[0]) && !IsBlank(Get(pairs, keys[0]).value) then Get(pairs, keys[0])
    else FirstLabel(pairs, keys[1..])
  }

  function LabelKeys(): seq<Text> {
    ["aria-label", "placeholder", "title", "alt"]
  }

  /** A text input is never named by its value. */
  function InputName(pairs: Pairs): Text {
    var kind := Lower(ValueOr(pairs, "type", "text"));
    if kind in ["button", "submit", "reset"] && !IsBlank(ValueOr(pairs, "value", "")) then ValueOr(pairs, "value", "")
    else ValueOr(pairs, "name", "")
  }

  function AccessibleName(node: Node, tag: Text, pairs: Pairs): Text {
    match FirstLabel(pairs, LabelKeys())
    case Some(text) => text
    case None => if tag == "input" then InputName(pairs) else DescendantText(node, 0)
  }

  function Truncated<T>(s: seq<T>, max: nat): seq<T> {
    if |s| <= max then s else s[..max]
  }

  function NormalizeForMatch(host: Host, s: Text): Text {
    host.lowercase(Trim(Collapse(s)))
  }

  /** What identifies an element besides its position. */
  function Identity(host: Host, tag: Text, role: Text, name: Text): Text {
    host.digest(tag + "\U{1f}" + role + "\U{1f}" + NormalizeForMatch(host, name))
  }

  function MakeReference(host: Host, index: nat, c: Control): Text {
    "e" + Decimal(index) + "." + Identity(host, c.tag, c.role, c.name)
  }

  // ------------------------------------------------------------ the full walk

  /** An interactable element as it may be shown. */
  datatype Control = Control(
    tag: Text, role: Text, name: Text, inputType: Option<Text>, protected: bool, disabled: bool, hidden: bool, id: nat)

  datatype Item = Run(raw: Text) | Element(control: Control)

  function ControlOf(node: Node, tag: Text, pairs: Pairs, protected: bool, maxNameChars: nat): Control {
    Control(tag, DeriveRole(tag, pairs),
            if protected then "" else Truncated(Collapse(AccessibleName(node, tag, pairs)), maxNameChars),
            Get(pairs, "type"), protected,
            Has(pairs, "disabled") || ValueIs(pairs, "aria-disabled", "true"),
            IsStructurallyHidden(pairs, tag), node.id)
  }

  predicate IsContainer(node: Node) {
    (node.kind == ELEMENT || node.kind == DOCUMENT || node.kind == FRAGMENT) && !IsNonContent(Lower(node.name))
  }

  function OwnItems(node: Node, inherited: bool, maxNameChars: nat): seq<Item> {
    if node.kind == TEXT then
      if !inherited && node.value.Some? then [Run(node.value.value)] else []
    else if node.kind == ELEMENT && !IsNonContent(Lower(node.name)) then
      var tag, pairs := Lower(node.name), PairsOf(node.attributes);
      if IsInteractable(DeriveRole(tag, pairs))
      then [Element(ControlOf(node, tag, pairs, inherited || IsProtected(pairs), maxNameChars))] else []
    else []
  }

  predicate ChildrenProtected(node: Node, inherited: bool) {
    inherited || IsProtected(PairsOf(node.attributes))
  }

  /** Everything an uncapped walk comes across, in document order. */
  function Items(node: Node, inherited: bool, maxNameChars: nat): seq<Item>
    decreases node, 1
  {
    OwnItems(node, inherited, maxNameChars)
    + (if IsContainer(node) then AllItems(node.children, ChildrenProtected(node, inherited), maxNameChars) else [])
  }

  function AllItems(nodes: seq<Node>, inherited: bool, maxNameChars: nat): seq<Item>
    decreases nodes, 0
  {
    if nodes == [] then [] else Items(nodes[0], inherited, maxNameChars) + AllItems(nodes[1..], inherited, maxNameChars)
  }

  // ---------------------------------------------------------- the capped walk

  datatype ProjectedNode = ProjectedNode(reference: Text, control: Control)

  datatype View = View(
    nodes: seq<ProjectedNode>, text: Text, textTruncated: bool, nodesTruncated: bool, interactableIndex: nat)

  const EMPTY: View := View([], [], false, false, 0)

  predicate EndsWithSpace(s: Text) {
    s != [] && s[|s| - 1] == ' '
  }

  /** `push_text`: the separator goes in without a test of the limit. */
  function PushText(v: View, raw: Text, maxChars: nat): View {
    var collapsed := Collapse(raw);
    if v.textTruncated || collapsed == [] then v
    else
      var start := if v.text != [] && !EndsWithSpace(v.text) then v.text + " " else v.text;
      var room := if |start| < maxChars then maxChars - |start| else 0;
      v.(text := start + Truncated(collapsed, room), textTruncated := room < |collapsed|)
  }

  function Record(host: Host, limits: Limits, v: View, c: Control): View {
    if |v.nodes| >= limits.maxNodes then v.(nodesTruncated := true)
    else
      v.(nodes := v.nodes + [ProjectedNode(MakeReference(host, v.interactableIndex, c), c)],
         interactableIndex := v.interactableIndex + 1)
  }

  function Absorb(host: Host, limits: Limits, v: View, item: Item): View {
    match item
    case Run(raw) => PushText(v, raw, limits.maxChars)
    case Element(c) => Record(host, limits, v, c)
  }

  function Feed(host: Host, limits: Limits, v: View, items: seq<Item>): View {
    if items == [] then v
    else Absorb(host, limits, Feed(host, limits, v, items[..|items| - 1]), items[|items| - 1])
  }

  lemma {:induction false} FeedAll(host: Host, limits: Limits, v: View, a: seq<Item>, b: seq<Item>)
    ensures Feed(host, limits, v, a + b) == Feed(host, limits, Feed(host, limits, v, a), b)
  {
    if b == [] {
      assert a + b == a;
    } else {
      var last := |b| - 1;
      assert (a + b)[..|a + b| - 1] == a + b[..last];
      FeedAll(host, limits, v, a, b[..last]);
    }
  }

  lemma {:induction false} AllItemsSnoc(nodes: seq<Node>, last: Node, inherited: bool, maxNameChars: nat)
    ensures AllItems(nodes + [last], inherited, maxNameChars)
            == AllItems(nodes, inherited, maxNameChars) + Items(last, inherited, maxNameChars)
  {
    if nodes == [] {
      assert [last][1..] == [];
    } else {
      assert (nodes + [last])[1..] == nodes[1..] + [last];
      AllItemsSnoc(nodes[1..], last, inherited, maxNameChars);
    }
  }

  /** The walk as the source runs it: one object, updated node by node. */
  class Walker {
    const host: Host
    const limits: Limits
    var nodes: seq<ProjectedNode>
    var text: Text
    var textTruncated: bool
    var nodesTruncated: bool
    var interactableIndex: nat

    constructor (host: Host, limits: Limits)
      ensures this.host == host && this.limits == limits && Seen() == EMPTY
    {
      this.host, this.limits := host, limits;
      nodes, text, textTruncated, nodesTruncated, interactableIndex := [], [], false, false, 0;
    }

    function Seen(): View
      reads this
    {
      View(nodes, text, textTruncated, nodesTruncated, interactableIndex)
    }

    method PushRun(raw: Text)
      modifies this
      ensures Seen() == PushText(old(Seen()), raw, limits.maxChars)
    {
      if textTruncated {
        return;
      }
      var collapsed := CollapseWhitespace(raw);
      if collapsed == [] {
        return;
      }
      if text != [] && !EndsWithSpace(text) {
        text := text + [' '];
      }
      ghost var start := text;
      var i := 0;
      while i < |collapsed|
        invariant 0 <= i <= |collapsed| && text == start + collapsed[..i]
        invariant i == 0 || |text| <= limits.maxChars
        invariant Seen() == old(Seen()).(text := text)
      {
        if |text| >= limits.maxChars {
          textTruncated := true;
          return;
        }
        text := text + [collapsed[i]];
        i := i + 1;
      }
    }

    method RecordElement(c: Control)
      modifies this
      ensures Seen() == Record(host, limits, old(Seen()), c)
    {
      if |nodes| >= limits.maxNodes {
        nodesTruncated := true;
        return;
      }
      var index := interactableIndex;
      interactableIndex := interactableIndex + 1;
      nodes := nodes + [ProjectedNode(MakeReference(host, index, c), c)];
    }

    method Visit(node: Node, inherited: bool)
      modifies this
      ensures Seen() == Feed(host, limits, old(Seen()), Items(node, inherited, limits.maxNameChars))
      decreases node, 1
    {
      hide IsProtected, DeriveRole, ControlOf, PushText, Record;
      var own := OwnItems(node, inherited, limits.maxNameChars);
      if node.kind == TEXT {
        if !inherited && node.value.Some? {
          PushRun(node.value.value);
        }
        return;
      }
      if node.kind != ELEMENT && node.kind != DOCUMENT && node.kind != FRAGMENT {
        return;
      }
      var tag := Lower(node.name);
      if IsNonContent(tag) {
        return;
      }
      var pairs := PairsOf(node.attributes);
      var protected := inherited || IsProtected(pairs);
      if node.kind == ELEMENT && IsInteractable(DeriveRole(tag, pairs)) {
        RecordElement(ControlOf(node, tag, pairs, protected, limits.maxNameChars));
      }
      ghost var before := Seen();
      assert before == Feed(host, limits, old(Seen()), own);
      VisitChildren(node.children, protected);
      FeedAll(host, limits, old(Seen()), own, AllItems(node.children, protected, limits.maxNameChars));
    }

    /** The loop of `visit`. */
    method VisitChildren(children: seq<Node>, inherited: bool)
      modifies this
      ensures Seen() == Feed(host, limits, old(Seen()), AllItems(children, inherited, limits.maxNameChars))
      decreases children, 0
    {
      hide OwnItems, Absorb;
      for i := 0 to |children|
        invariant Seen() == Feed(host, limits, old(Seen()), AllItems(children[..i], inherited, limits.maxNameChars))
      {
        Visit(children[i], inherited);
        assert children[..i + 1] == children[..i] + [children[i]];
        AllItemsSnoc(children[..i], children[i], inherited, limits.maxNameChars);
        FeedAll(host, limits, old(Seen()), AllItems(children[..i], inherited, limits.maxNameChars),
                Items(children[i], inherited, limits.maxNameChars));
      }
      assert children[..|children|] == children;
    }
  }
}
