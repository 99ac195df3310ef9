/**
 The bounded projection of a parsed Markdown document onto the display tree, and its agreement with the
 client's reader.
 */
module Markdown {
  import opened Text
  import View = MarkdownView

  const MAX_NODES := 20000
  const MAX_DEPTH := 32

  type Node = View.Node

  /** The syntax tree below the document node. Text values are the raw source segments. */
  datatype Ast =
    | Branch(shape: Shape, children: seq<Ast>)
    | Rule
    | CodeBlock(text: string)
    | CodeSpan(parts: seq<Ast>)
    | Plain(value: string, raw: bool, soft: bool, hard: bool)
    | Str(value: string)
    | AutoLink(url: string, title: string)
    | Image
    | Html
    | Other

  datatype Shape =
    | Paragraph | TextBlock | Heading(level: int) | Blockquote | List(ordered: bool, start: int) | Item
    | Emphasis(level: int) | Link(destination: string)

  datatype Code = ProjectionLimit | UnknownNode | UnsafeUrl | ImageForbidden | HtmlForbidden

  /** Text unescaping and the URL test, as functions of the text. */
  datatype Rules = Rules(decode: string -> string, validUrl: string -> bool)

  datatype Projection = Done(nodes: seq<Node>, count: nat) | Failed(code: Code)

  // ---------- What a node becomes ----------

  function Leaf(kind: View.Kind, text: string): Node { View.Node(kind, text, "", 0, 0, false, []) }

  function BranchNode(rules: Rules, shape: Shape): Node {
    match shape
    case Paragraph => Leaf(View.Paragraph, "")
    case TextBlock => Leaf(View.Group, "")
    case Heading(level) => View.Node(View.Heading, "", "", level, 0, false, [])
    case Blockquote => Leaf(View.Quote, "")
    case List(ordered, start) => View.Node(View.List, "", "", 0, if ordered then start else 0, ordered, [])
    case Item => Leaf(View.Item, "")
    case Emphasis(level) => Leaf(if level == 2 then View.Strong else View.Emphasis, "")
    case Link(destination) => View.Node(View.Link, "", rules.decode(destination), 0, 0, false, [])
  }

  predicate OnlyPlain(parts: seq<Ast>) { forall p | p in parts :: p.Plain? }

  function SpanText(parts: seq<Ast>): string
    requires OnlyPlain(parts)
  {
    if parts == [] then ""
    else
      var last := parts[|parts| - 1];
      SpanText(parts[..|parts| - 1]) + last.value + (if last.soft then " " else "")
  }

  function PlainNodes(rules: Rules, n: Ast): seq<Node>
    requires n.Plain?
  {
    var text := if n.raw then n.value else rules.decode(n.value);
    if n.hard then [Leaf(View.Plain, text), Leaf(View.Break, "")]
    else [Leaf(View.Plain, if n.soft then text + "\n" else text)]
  }

  function AutoLinkNode(n: Ast): Node
    requires n.AutoLink?
  {
    View.Node(View.Link, "", n.url, 0, 0, false, [Leaf(View.Plain, n.title)])
  }

  // ---------- `convert` ----------

  function Capped(r: Projection): Projection {
    if r.Done? && r.count > MAX_NODES then Failed(ProjectionLimit) else r
  }

  /** The projection of one node with the counter threaded through. */
  function Project(rules: Rules, n: Ast, depth: nat, count: nat): Projection
    decreases n
  {
    if count + 1 > MAX_NODES || depth > MAX_DEPTH then Failed(ProjectionLimit)
    else match n
      case Branch(shape, children) =>
        if shape.Link? && !rules.validUrl(rules.decode(shape.destination)) then Failed(UnsafeUrl)
        else
          (match ProjectAll(rules, children, depth + 1, count + 1)
           case Failed(code) => Failed(code)
           case Done(nodes, c) => Capped(Done([BranchNode(rules, shape).(children := nodes)], c)))
      case Rule => Done([Leaf(View.Rule, "")], count + 1)
      case CodeBlock(text) => Done([Leaf(View.CodeBlock, text)], count + 1)
      case CodeSpan(parts) =>
        if OnlyPlain(parts) then Done([Leaf(View.Code, SpanText(parts))], count + 1) else Failed(UnknownNode)
      case Plain(_, _, _, hard) => Done(PlainNodes(rules, n), if hard then count + 2 else count + 1)
      case Str(value) => Done([Leaf(View.Plain, rules.decode(value))], count + 1)
      case AutoLink(url, _) =>
        if rules.validUrl(url) then Capped(Done([AutoLinkNode(n)], count + 2)) else Failed(UnsafeUrl)
      case Image => Failed(ImageForbidden)
      case Html => Failed(HtmlForbidden)
      case Other => Failed(UnknownNode)
  }

  function ProjectAll(rules: Rules, ns: seq<Ast>, depth: nat, count: nat): Projection
    decreases ns
  {
    if ns == [] then Done([], count)
    else match Project(rules, ns[0], depth, count)
      case Failed(code) => Failed(code)
      case Done(first, c) => Prepend(first, ProjectAll(rules, ns[1..], depth, c))
  }

  function Prepend(nodes: seq<Node>, r: Projection): Projection {
    match r
    case Failed(code) => Failed(code)
    case Done(rest, c) => Done(nodes + rest, c)
  }

  /** A document is projected at depth 0 and contributes its children. */
  function Parse(rules: Rules, document: seq<Ast>): Projection {
    Capped(ProjectAll(rules, document, 1, 1))
  }

  datatype Result = Nodes(nodes: seq<Node>) | Diagnostic(code: Code)

  predicate Agrees(r: Result, count: nat, spec: Projection) {
    match spec
    case Failed(code) => r == Diagnostic(code)
    case Done(nodes, c) => r == Nodes(nodes) && count == c
  }

  /** `convert` with the counter it captures. */
  class Converter {
    const rules: Rules
    var count: nat

    constructor (rules: Rules)
      ensures this.rules == rules && count == 0
    {
      this.rules := rules;
      count := 0;
    }

    method Convert(n: Ast, depth: nat) returns (r: Result)
      modifies this
      ensures Agrees(r, count, Project(rules, n, depth, old(count)))
      decreases n
    {
      count := count + 1;
      if count > MAX_NODES || depth > MAX_DEPTH {
        return Diagnostic(ProjectionLimit);
      }
      var v: Node;
      match n {
        case Branch(shape, children) =>
          match shape {
            case Paragraph => v := Leaf(View.Paragraph, "");
            case TextBlock => v := Leaf(View.Group, "");
            case Heading(level) => v := Leaf(View.Heading, "").(level := level);
            case Blockquote => v := Leaf(View.Quote, "");
            case List(ordered, start) =>
              v := Leaf(View.List, "").(ordered := ordered);
              if ordered {
                v := v.(start := start);
              }
            case Item => v := Leaf(View.Item, "");
            case Emphasis(level) =>
              v := Leaf(View.Emphasis, "");
              if level == 2 {
                v := v.(kind := View.Strong);
              }
            case Link(destination) => v := Leaf(View.Link, "").(url := rules.decode(destination));
          }
          assert v == BranchNode(rules, shape);
          if shape.Link? && !rules.validUrl(v.url) {
            return Diagnostic(UnsafeUrl);
          }
          var below := ConvertSiblings(children, depth + 1);
          if below.Diagnostic? {
            return below;
          }
          v := v.(children := below.nodes);
        case Rule => v := Leaf(View.Rule, "");
        case CodeBlock(text) => v := Leaf(View.CodeBlock, text);
        case CodeSpan(parts) =>
          var text := "";
          var i := 0;
          while i < |parts|
            invariant 0 <= i <= |parts| && OnlyPlain(parts[..i]) && text == SpanText(parts[..i])
          {
            assert parts[..i + 1] == parts[..i] + [parts[i]];
            assert parts[..i + 1][..i] == parts[..i];
            if !parts[i].Plain? {
              return Diagnostic(UnknownNode);
            }
            text := text + parts[i].value + (if parts[i].soft then " " else "");
            i := i + 1;
          }
          assert parts[..i] == parts;
          v := Leaf(View.Code, text);
        case Plain(value, raw, soft, hard) =>
          v := Leaf(View.Plain, if raw then value else rules.decode(value));
          if hard {
            count := count + 1;
            return Nodes([v, Leaf(View.Break, "")]);
          }
          if soft {
            v := v.(text := v.text + "\n");
          }
        case Str(value) => v := Leaf(View.Plain, rules.decode(value));
        case AutoLink(url, title) =>
          v := Leaf(View.Link, "").(url := url);
          if !rules.validUrl(url) {
            return Diagnostic(UnsafeUrl);
          }
          v := v.(children := [Leaf(View.Plain, title)]);
          count := count + 1;
        case Image => return Diagnostic(ImageForbidden);
        case Html => return Diagnostic(HtmlForbidden);
        case Other => return Diagnostic(UnknownNode);
      }
      if count > MAX_NODES {
        return Diagnostic(ProjectionLimit);
      }
      return Nodes([v]);
    }

    /** The loop over the children of a node that is not a leaf. */
    method ConvertSiblings(siblings: seq<Ast>, depth: nat) returns (r: Result)
      modifies this
      ensures Agrees(r, count, ProjectAll(rules, siblings, depth, old(count)))
      decreases siblings
    {
      var nodes: seq<Node> := [];
      var i := 0;
      while i < |siblings|
        invariant 0 <= i <= |siblings|
        invariant ProjectAll(rules, siblings, depth, old(count)) == Prepend(nodes, ProjectAll(rules, siblings[i..], depth, count))
      {
        assert siblings[i..][1..] == siblings[i + 1..];
        var more := Convert(siblings[i], depth);
        if more.Diagnostic? {
          return more;
        }
        nodes := nodes + more.nodes;
        i := i + 1;
      }
      return Nodes(nodes);
    }

    /** The document node: depth 0, never a limit by itself. */
    method ConvertDocument(document: seq<Ast>) returns (r: Result)
      requires count == 0
      modifies this
      ensures Agrees(r, count, Parse(rules, document))
      ensures r.Nodes? ==> ShowsAll(rules, document, r.nodes)
    {
      if Parse(rules, document).Done? { AcceptedShows(rules, document); }
      hide ShowsAll;
      count := count + 1;
      r := ConvertSiblings(document, 1);
      if r.Nodes? && count > MAX_NODES {
        return Diagnostic(ProjectionLimit);
      }
    }
  }

  // ---------- The same projection without counter and limits ----------

  function Display(rules: Rules, n: Ast): seq<Node> {
    match n
    case Branch(shape, children) => [BranchNode(rules, shape).(children := DisplayAll(rules, children))]
    case Rule => [Leaf(View.Rule, "")]
    case CodeBlock(text) => [Leaf(View.CodeBlock, text)]
    case CodeSpan(parts) => if OnlyPlain(parts) then [Leaf(View.Code, SpanText(parts))] else []
    case Plain(_, _, _, _) => PlainNodes(rules, n)
    case Str(value) => [Leaf(View.Plain, rules.decode(value))]
    case AutoLink(_, _) => [AutoLinkNode(n)]
    case _ => []
  }

  function DisplayAll(rules: Rules, ns: seq<Ast>): seq<Node> {
    if ns == [] then [] else Display(rules, ns[0]) + DisplayAll(rules, ns[1..])
  }

  /** Nothing in the tree is refused for what it is. */
  predicate Clean(rules: Rules, n: Ast) {
    match n
    case Branch(shape, children) =>
      (shape.Link? ==> rules.validUrl(rules.decode(shape.destination))) && forall c | c in children :: Clean(rules, c)
    case CodeSpan(parts) => OnlyPlain(parts)
    case AutoLink(url, _) => rules.validUrl(url)
    case Image => false
    case Html => false
    case Other => false
    case _ => true
  }

  predicate Shallow(n: Ast, depth: nat) {
    depth <= MAX_DEPTH && (n.Branch? ==> forall c | c in n.children :: Shallow(c, depth + 1))
  }

  /** The display nodes a syntax node stands for. */
  function Cost(n: Ast): (c: nat)
    ensures c >= 1
  {
    match n
    case Branch(_, children) => 1 + CostAll(children)
    case AutoLink(_, _) => 2
    case Plain(_, _, _, hard) => if hard then 2 else 1
    case _ => 1
  }

  function CostAll(ns: seq<Ast>): nat {
    if ns == [] then 0 else Cost(ns[0]) + CostAll(ns[1..])
  }

  /** A hard break is counted after the limit test, so it may stand one over until the parent's own test. */
  function Slack(n: Ast): nat { if n.Plain? && n.hard then 1 else 0 }

  function SlackAll(ns: seq<Ast>): nat { if ns == [] then 0 else Slack(ns[|ns| - 1]) }

  predicate Admitted(rules: Rules, ns: seq<Ast>, depth: nat) {
    forall n | n in ns :: Clean(rules, n) && Shallow(n, depth)
  }

  lemma {:induction false} ProjectExactly(rules: Rules, n: Ast, depth: nat, count: nat)
    ensures var r := Project(rules, n, depth, count);
      && (r.Done? <==> Clean(rules, n) && Shallow(n, depth) && count + Cost(n) - Slack(n) <= MAX_NODES)
      && (r.Done? ==> r == Done(Display(rules, n), count + Cost(n)))
    decreases n
  {
    if n.Branch? {
      ProjectAllExactly(rules, n.children, depth + 1, count + 1);
    }
  }

  lemma {:induction false} ProjectAllExactly(rules: Rules, ns: seq<Ast>, depth: nat, count: nat)
    ensures var r := ProjectAll(rules, ns, depth, count);
      && (r.Done? <==> ns == [] || (Admitted(rules, ns, depth) && count + CostAll(ns) - SlackAll(ns) <= MAX_NODES))
      && (r.Done? ==> r == Done(DisplayAll(rules, ns), count + CostAll(ns)))
    decreases ns
  {
    hide Project, Clean, Shallow, Display, Cost, Slack;
    if ns != [] {
      var rest := ns[1..];
      ProjectExactly(rules, ns[0], depth, count);
      ProjectAllExactly(rules, rest, depth, count + Cost(ns[0]));
      assert ns == [ns[0]] + rest;
      SlackBelowCost(ns[|ns| - 1]);
      CostOfLast(rest);
    }
  }

  lemma SlackBelowCost(n: Ast)
    ensures Slack(n) < Cost(n)
  {
  }

  lemma {:induction false} CostOfLast(ns: seq<Ast>)
    ensures ns != [] ==> SlackAll(ns) < CostAll(ns)
  {
    if ns != [] { CostOfLast(ns[1..]); }
  }

  /**
   A document is accepted exactly when nothing in it is refused for what it is, it is not deeper than 32 and it
   stands for at most 19,999 display nodes; then the view is its limitless projection and the counter one more
   than its nodes.
   */
  lemma ParseExactly(rules: Rules, document: seq<Ast>)
    ensures var r := Parse(rules, document);
      && (r.Done? <==> Admitted(rules, document, 1) && 1 + CostAll(document) <= 20000)
      && (r.Done? ==> r == Done(DisplayAll(rules, document), 1 + CostAll(document)))
  {
    ProjectAllExactly(rules, document, 1, 1);
  }

  // ---------- What the nodes of a view show ----------

  /** The code text of a span: its parts in order, a line end as a space. */
  function Spelled(parts: seq<Ast>): string
    requires OnlyPlain(parts)
  {
    if parts == [] then "" else parts[0].value + (if parts[0].soft then " " else "") + Spelled(parts[1..])
  }

  /** A node that has nothing but its kind, its text and its children. */
  predicate Bare(x: Node, kind: View.Kind, text: string) {
    x.kind == kind && x.text == text && x.url == "" && x.level == 0 && x.start == 0 && !x.ordered
  }

  predicate Childless(x: Node, kind: View.Kind, text: string) { Bare(x, kind, text) && x.children == [] }

  /** How many nodes stand for one syntax node: two for text that ends in a hard break. */
  function Width(n: Ast): (w: nat)
    ensures w >= 1
  {
    if n.Plain? && n.hard then 2 else 1
  }

  /** The nodes show the syntax node: its kind, the fields of that kind, its text, and its children in order. */
  predicate Shows(rules: Rules, n: Ast, xs: seq<Node>)
    decreases n
  {
    && |xs| == Width(n)
    && match n
       case Branch(shape, children) =>
         && ShowsAll(rules, children, xs[0].children)
         && (match shape
             case Paragraph => Bare(xs[0], View.Paragraph, "")
             case TextBlock => Bare(xs[0], View.Group, "")
             case Heading(level) => xs[0].level == level && Bare(xs[0].(level := 0), View.Heading, "")
             case Blockquote => Bare(xs[0], View.Quote, "")
             case List(ordered, start) =>
               && xs[0].ordered == ordered && xs[0].start == (if ordered then start else 0)
               && Bare(xs[0].(ordered := false, start := 0), View.List, "")
             case Item => Bare(xs[0], View.Item, "")
             case Emphasis(level) => Bare(xs[0], if level == 2 then View.Strong else View.Emphasis, "")
             case Link(destination) => xs[0].url == rules.decode(destination) && Bare(xs[0].(url := ""), View.Link, ""))
       case Rule => Childless(xs[0], View.Rule, "")
       case CodeBlock(text) => Childless(xs[0], View.CodeBlock, text)
       case CodeSpan(parts) => OnlyPlain(parts) && Childless(xs[0], View.Code, Spelled(parts))
       case Plain(value, raw, soft, hard) =>
         var text := if raw then value else rules.decode(value);
         if hard then Childless(xs[0], View.Plain, text) && Childless(xs[1], View.Break, "")
         else Childless(xs[0], View.Plain, text + if soft then "\n" else "")
       case Str(value) => Childless(xs[0], View.Plain, rules.decode(value))
       case AutoLink(url, title) =>
         && xs[0].url == url && Bare(xs[0].(url := ""), View.Link, "")
         && |xs[0].children| == 1 && Childless(xs[0].children[0], View.Plain, title)
       case _ => false
  }

  predicate ShowsAll(rules: Rules, ns: seq<Ast>, xs: seq<Node>)
    decreases ns
  {
    if ns == [] then xs == []
    else Width(ns[0]) <= |xs| && Shows(rules, ns[0], xs[..Width(ns[0])]) && ShowsAll(rules, ns[1..], xs[Width(ns[0])..])
  }

  lemma {:induction false} SpelledIsSpan(parts: seq<Ast>)
    requires OnlyPlain(parts)
    ensures Spelled(parts) == SpanText(parts)
  {
    if parts != [] { SpelledSplits(parts, |parts| - 1); SpelledIsSpan(parts[..|parts| - 1]); }
  }

  lemma {:induction false} SpelledSplits(parts: seq<Ast>, k: nat)
    requires OnlyPlain(parts) && k < |parts|
    ensures Spelled(parts[..k + 1]) == Spelled(parts[..k]) + parts[k].value + (if parts[k].soft then " " else "")
    ensures k + 1 == |parts| ==> parts[..k + 1] == parts
  {
    if k > 0 {
      SpelledSplits(parts[1..], k - 1);
      assert parts[..k + 1][1..] == parts[1..][..k] && parts[..k][1..] == parts[1..][..k - 1];
    } else {
      assert parts[..1][1..] == [];
    }
  }

  lemma {:induction false} DisplayShows(rules: Rules, n: Ast)
    requires Clean(rules, n)
    ensures Shows(rules, n, Display(rules, n))
    decreases n
  {
    match n {
      case Branch(_, children) => DisplayAllShows(rules, children);
      case CodeSpan(parts) => SpelledIsSpan(parts);
      case _ =>
    }
  }

  lemma {:induction false} DisplayAllShows(rules: Rules, ns: seq<Ast>)
    requires forall n | n in ns :: Clean(rules, n)
    ensures ShowsAll(rules, ns, DisplayAll(rules, ns))
    decreases ns
  {
    hide Clean, Display, Shows;
    if ns != [] {
      var first, rest := Display(rules, ns[0]), DisplayAll(rules, ns[1..]);
      DisplayShows(rules, ns[0]);
      DisplayAllShows(rules, ns[1..]);
      ShownWidth(rules, ns[0], first);
      assert (first + rest)[..|first|] == first && (first + rest)[|first|..] == rest;
    }
  }

  lemma ShownWidth(rules: Rules, n: Ast, xs: seq<Node>)
    requires Shows(rules, n, xs)
    ensures |xs| == Width(n)
  {
  }

  /** Whatever an accepted document comes back as shows its syntax tree, node for node. */
  lemma AcceptedShows(rules: Rules, document: seq<Ast>)
    requires Parse(rules, document).Done?
    ensures ShowsAll(rules, document, Parse(rules, document).nodes)
  {
    hide Parse, DisplayAll, Clean, Shallow;
    ParseExactly(rules, document);
    DisplayAllShows(rules, document);
  }

  // ---------- Size and depth of a view ----------

  lemma {:induction false} CountConcat(a: seq<Node>, b: seq<Node>)
    ensures View.CountAll(a + b) == View.CountAll(a) + View.CountAll(b)
  {
    if a == [] {
      assert a + b == b;
    } else {
      assert (a + b)[1..] == a[1..] + b;
      CountConcat(a[1..], b);
    }
  }

  lemma CountOne(x: Node)
    ensures View.CountAll([x]) == View.Count(x)
  {
    assert [x][1..] == [];
  }

  lemma {:induction false} DisplayCount(rules: Rules, n: Ast)
    requires Clean(rules, n)
    ensures View.CountAll(Display(rules, n)) == Cost(n)
    decreases n
  {
    var shown := Display(rules, n);
    match n {
      case Branch(_, children) =>
        DisplayAllCount(rules, children);
        CountOne(shown[0]);
      case Plain(_, _, _, hard) =>
        CountOne(shown[0]);
        if hard {
          assert shown == [shown[0]] + [shown[1]];
          CountConcat([shown[0]], [shown[1]]);
          CountOne(shown[1]);
        }
      case AutoLink(_, title) =>
        CountOne(shown[0]);
        CountOne(Leaf(View.Plain, title));
      case _ =>
        CountOne(shown[0]);
    }
  }

  lemma {:induction false} DisplayAllCount(rules: Rules, ns: seq<Ast>)
    requires forall n | n in ns :: Clean(rules, n)
    ensures View.CountAll(DisplayAll(rules, ns)) == CostAll(ns)
    decreases ns
  {
    hide Clean, Display, Cost;
    if ns != [] {
      DisplayCount(rules, ns[0]);
      DisplayAllCount(rules, ns[1..]);
      CountConcat(Display(rules, ns[0]), DisplayAll(rules, ns[1..]));
    }
  }

  /** At most 32 deep, except that the text a depth-32 link was synthesised with is one deeper. */
  predicate InBounds(x: Node, depth: nat) {
    && depth <= 32
    && ((forall c | c in x.children :: InBounds(c, depth + 1))
        || (depth == 32 && x.kind.Link? && |x.children| == 1 && x.children[0].kind.Plain? && x.children[0].children == []))
  }

  lemma {:induction false} DisplayInBounds(rules: Rules, n: Ast, depth: nat)
    requires Shallow(n, depth)
    ensures forall x | x in Display(rules, n) :: InBounds(x, depth)
    decreases n
  {
    if n.Branch? { DisplayAllInBounds(rules, n.children, depth + 1); }
  }

  lemma {:induction false} DisplayAllInBounds(rules: Rules, ns: seq<Ast>, depth: nat)
    requires forall n | n in ns :: Shallow(n, depth)
    ensures forall x | x in DisplayAll(rules, ns) :: InBounds(x, depth)
    decreases ns
  {
    hide Shallow, Display, InBounds;
    if ns != [] {
      DisplayInBounds(rules, ns[0], depth);
      DisplayAllInBounds(rules, ns[1..], depth);
    }
  }

  /** An accepted view has one node less than the counter shows, at most 19,999, and keeps the depth bound. */
  lemma ViewBounds(rules: Rules, document: seq<Ast>)
    requires Parse(rules, document).Done?
    ensures var r := Parse(rules, document);
      && View.CountAll(r.nodes) == r.count - 1 <= 19999
      && forall x | x in r.nodes :: InBounds(x, 1)
  {
    hide Clean, Shallow, InBounds, Parse, DisplayAll;
    ParseExactly(rules, document);
    DisplayAllCount(rules, document);
    DisplayAllInBounds(rules, document, 1);
  }

  // ---------- Agreement with the client ----------

  lemma {:induction false} DisplayShaped(rules: Rules, n: Ast)
    ensures forall x | x in Display(rules, n) :: View.Shaped(x)
    decreases n
  {
    if n.Branch? { DisplayAllShaped(rules, n.children); }
  }

  lemma {:induction false} DisplayAllShaped(rules: Rules, ns: seq<Ast>)
    ensures forall x | x in DisplayAll(rules, ns) :: View.Shaped(x)
    decreases ns
  {
    hide Display, View.Shaped;
    if ns != [] {
      DisplayShaped(rules, ns[0]);
      DisplayAllShaped(rules, ns[1..]);
    }
  }

  /** What the client's reader asks beyond the server's own tests, in terms of the syntax tree. */
  predicate Readable(rules: Rules, clientUrl: string -> bool, n: Ast, depth: nat) {
    match n
    case Branch(shape, children) =>
      && (shape.Heading? ==> 1 <= shape.level <= 6)
      && (shape.List? && shape.ordered ==> 0 <= shape.start <= 999999999)
      && (shape.Link? ==> rules.decode(shape.destination) != "" && clientUrl(rules.decode(shape.destination)))
      && forall c | c in children :: Readable(rules, clientUrl, c, depth + 1)
    case AutoLink(url, _) => depth < 32 && url != "" && clientUrl(url)
    case _ => true
  }

  lemma {:induction false} DisplayFine(rules: Rules, clientUrl: string -> bool, n: Ast, depth: nat)
    requires Shallow(n, depth) && Clean(rules, n)
    ensures (forall x | x in Display(rules, n) :: View.Fine(clientUrl, x, depth)) <==> Readable(rules, clientUrl, n, depth)
    decreases n
  {
    var shown := Display(rules, n);
    match n {
      case Branch(shape, children) =>
        DisplayAllFine(rules, clientUrl, children, depth + 1);
        assert shown[0] in shown;
      case AutoLink(_, _) =>
        AutoLinkFine(clientUrl, n, depth);
        assert shown == [AutoLinkNode(n)] && shown[0] in shown;
      case _ =>
    }
  }

  lemma AutoLinkFine(clientUrl: string -> bool, n: Ast, depth: nat)
    requires n.AutoLink? && depth <= MAX_DEPTH
    ensures View.Fine(clientUrl, AutoLinkNode(n), depth) <==> depth < MAX_DEPTH && n.url != "" && clientUrl(n.url)
  {
    var below := Leaf(View.Plain, n.title);
    assert below in AutoLinkNode(n).children;
    assert View.Fine(clientUrl, below, depth + 1) <==> depth < MAX_DEPTH;
  }

  lemma {:induction false} DisplayAllFine(rules: Rules, clientUrl: string -> bool, ns: seq<Ast>, depth: nat)
    requires Admitted(rules, ns, depth)
    ensures (forall x | x in DisplayAll(rules, ns) :: View.Fine(clientUrl, x, depth))
            <==> forall n | n in ns :: Readable(rules, clientUrl, n, depth)
    decreases ns
  {
    hide Shallow, Clean, Display, Readable, View.Fine;
    if ns != [] {
      DisplayFine(rules, clientUrl, ns[0], depth);
      DisplayAllFine(rules, clientUrl, ns[1..], depth);
      assert ns == [ns[0]] + ns[1..];
      var a, b := Display(rules, ns[0]), DisplayAll(rules, ns[1..]);
      assert forall x :: x in a + b <==> x in a || x in b;
    }
  }

  /**
   The client reads an accepted view back node for node exactly when headings, list starts and URLs are in its
   range and no autolink stands at depth 32; otherwise it refuses the whole view.
   */
  lemma ClientAgrees(rules: Rules, clientUrl: string -> bool, document: seq<Ast>)
    requires Parse(rules, document).Done?
    ensures var nodes := Parse(rules, document).nodes;
      View.ParseView(clientUrl, View.EncodeView(nodes)) ==
        if forall n | n in document :: Readable(rules, clientUrl, n, 1) then Some(nodes) else None
  {
    hide Parse, DisplayAll, Clean, Shallow, Readable, View.ParseView, View.EncodeView, View.Fine, View.Shaped;
    ParseExactly(rules, document);
    DisplayAllCount(rules, document);
    DisplayAllShaped(rules, document);
    DisplayAllFine(rules, clientUrl, document, 1);
    View.ViewRoundTrip(clientUrl, DisplayAll(rules, document));
  }

  lemma CostOne(n: Ast)
    ensures CostAll([n]) == Cost(n)
  {
    assert [n][1..] == [];
  }

  function Quoted(levels: nat, n: Ast): Ast {
    if levels == 0 then n else Branch(Blockquote, [Quoted(levels - 1, n)])
  }

  lemma {:induction false} QuotedFacts(rules: Rules, clientUrl: string -> bool, levels: nat, n: Ast, depth: nat)
    requires Clean(rules, n) && Shallow(n, depth + levels) && !Readable(rules, clientUrl, n, depth + levels)
    ensures var q := Quoted(levels, n);
      Clean(rules, q) && Shallow(q, depth) && !Readable(rules, clientUrl, q, depth) && Cost(q) == levels + Cost(n)
  {
    if levels > 0 {
      QuotedFacts(rules, clientUrl, levels - 1, n, depth + 1);
      var inner := Quoted(levels - 1, n);
      assert inner in [inner];
      CostOne(inner);
    }
  }

  /** A link in angle brackets under 30 quotes: the server accepts the document, the client refuses its view. */
  lemma DeepAutolinkIsRefused(rules: Rules, clientUrl: string -> bool, url: string)
    requires rules.validUrl(url)
    ensures var document := [Quoted(30, Branch(Paragraph, [AutoLink(url, url)]))];
      && Parse(rules, document).Done?
      && View.ParseView(clientUrl, View.EncodeView(Parse(rules, document).nodes)) == None
  {
    hide Parse, Quoted, View.ParseView, View.EncodeView;
    var link := AutoLink(url, url);
    var paragraph := Branch(Paragraph, [link]);
    assert link in [link];
    CostOne(link);
    QuotedFacts(rules, clientUrl, 30, paragraph, 1);
    var q := Quoted(30, paragraph);
    var document := [q];
    assert q in document;
    CostOne(q);
    ParseExactly(rules, document);
    ClientAgrees(rules, clientUrl, document);
  }
}
