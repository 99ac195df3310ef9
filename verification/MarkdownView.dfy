/** The display tree of a document: its JSON form on the wire and the client's strict reader `parseView`. */
module MarkdownView {
  import opened Text
  import opened Json

  const FORMAT := "nexus-markdown-view-v1"
  const CLIENT_NODES := 20000
  const CLIENT_DEPTH := 32

  datatype Kind =
    | Paragraph | Group | Heading | Quote | List | Item | Emphasis | Strong | Link
    | Plain | Code | CodeBlock | Break | Rule

  /** A field that does not apply to the kind holds its zero value. */
  datatype Node = Node(
    kind: Kind, text: string, url: string, level: int, start: int, ordered: bool, children: seq<Node>)

  function KindName(k: Kind): string {
    match k
    case Paragraph => "paragraph" case Group => "group" case Heading => "heading" case Quote => "quote"
    case List => "list" case Item => "item" case Emphasis => "emphasis" case Strong => "strong"
    case Link => "link" case Plain => "text" case Code => "code" case CodeBlock => "code_block"
    case Break => "break" case Rule => "rule"
  }

  function KindOf(s: string): Option<Kind> {
    match s
    case "paragraph" => Some(Paragraph) case "group" => Some(Group) case "heading" => Some(Heading)
    case "quote" => Some(Quote) case "list" => Some(List) case "item" => Some(Item)
    case "emphasis" => Some(Emphasis) case "strong" => Some(Strong) case "link" => Some(Link)
    case "text" => Some(Plain) case "code" => Some(Code) case "code_block" => Some(CodeBlock)
    case "break" => Some(Break) case "rule" => Some(Rule)
    case _ => None
  }

  lemma KindRoundTrip(k: Kind)
    ensures KindOf(KindName(k)) == Some(k)
  {
  }

  predicate Container(k: Kind) {
    k.Paragraph? || k.Group? || k.Heading? || k.Quote? || k.List? || k.Item? || k.Emphasis? || k.Strong? || k.Link?
  }

  predicate Textual(k: Kind) { k.Plain? || k.Code? || k.CodeBlock? }

  // ---------- The wire form ----------

  function Field(present: bool, name: string, v: Value): seq<(string, Value)> {
    if present then [(name, v)] else []
  }

  /** The server's JSON encoding; every field but the kind is left out when it is zero. */
  function Encode(n: Node): Value {
    Object(
      Field(true, "kind", String(KindName(n.kind)))
      + Field(n.text != "", "text", String(n.text))
      + Field(n.url != "", "url", String(n.url))
      + Field(n.level != 0, "level", Number(FormatInt(n.level)))
      + Field(n.start != 0, "start", Number(FormatInt(n.start)))
      + Field(n.ordered, "ordered", Bool(true))
      + Field(n.children != [], "children", Array(EncodeAll(n.children))))
  }

  function EncodeAll(nodes: seq<Node>): (vs: seq<Value>)
    ensures |vs| == |nodes|
  {
    if nodes == [] then [] else [Encode(nodes[0])] + EncodeAll(nodes[1..])
  }

  function EncodeView(nodes: seq<Node>): Value {
    Object([("format", String(FORMAT)), ("nodes", Array(EncodeAll(nodes)))])
  }

  // ---------- The client's reader ----------

  /** One member of an object; none stands for `undefined`. */
  function Lookup(v: Value, key: string): (r: Option<Value>)
    requires v.Object?
    ensures r.Some? ==> r.value < v
  {
    if key in Collect(v.fields) then
      CollectMember(v.fields, key);
      Some(Collect(v.fields)[key])
    else None
  }

  lemma {:induction false} CollectMember(fields: seq<(string, Value)>, key: string)
    requires key in Collect(fields)
    ensures exists i :: 0 <= i < |fields| && fields[i] == (key, Collect(fields)[key])
  {
    var front, last := fields[..|fields| - 1], fields[|fields| - 1];
    if last.0 != key {
      CollectMember(front, key);
      var i :| 0 <= i < |front| && front[i] == (key, Collect(front)[key]);
      assert fields[i] == front[i];
    } else {
      assert fields[|fields| - 1] == (key, Collect(fields)[key]);
    }
  }

  function Optional(k: Kind): set<string> {
    (if Container(k) then {"children"} else {})
    + (if Textual(k) then {"text"} else {})
    + (if k.Link? then {"url"} else {})
    + (if k.Heading? then {"level"} else {})
    + (if k.List? then {"ordered", "start"} else {})
  }

  function Integer(v: Option<Value>, min: int, max: int): Option<int> {
    match v
    case Some(Number(token)) =>
      (match ParseInt(token)
       case Some(n) => if min <= n <= max then Some(n) else None
       case None => None)
    case _ => None
  }

  /** Everything the reader checks on a node of known kind apart from its children. */
  function ReadFields(validUrl: string -> bool, k: Kind, v: Value): Option<Node>
    requires v.Object?
  {
    var text := if Textual(k) then (match Lookup(v, "text") case None => Some("") case Some(String(s)) => Some(s) case _ => None) else Some("");
    var level := if k.Heading? then Integer(Lookup(v, "level"), 1, 6) else Some(0);
    var url := if k.Link? then (match Lookup(v, "url") case Some(String(s)) => if validUrl(s) then Some(s) else None case _ => None) else Some("");
    var ordered := if k.List? then (match Lookup(v, "ordered") case None => Some(false) case Some(Bool(true)) => Some(true) case _ => None) else Some(false);
    var start :=
      if k.List? && ordered.Some? then
        (if ordered.value then (if Lookup(v, "start").None? then Some(0) else Integer(Lookup(v, "start"), 0, 999999999))
         else if Lookup(v, "start").Some? then None else Some(0))
      else Some(0);
    if text.None? || level.None? || url.None? || ordered.None? || start.None? then None
    else Some(Node(k, text.value, url.value, level.value, start.value, ordered.value, []))
  }

  datatype Read<T> = Ok(value: T, count: nat) | Malformed

  function ReadNode(validUrl: string -> bool, v: Value, depth: nat, count: nat): Read<Node>
    decreases v
  {
    if count + 1 > CLIENT_NODES || depth > CLIENT_DEPTH || !v.Object? then Malformed
    else
      match Lookup(v, "kind")
      case Some(String(name)) =>
        (match KindOf(name)
         case None => Malformed
         case Some(k) =>
           var fields := ReadFields(validUrl, k, v);
           if fields.None? || exists key :: key in Collect(v.fields) && key != "kind" && key !in Optional(k) then Malformed
           else
             match ReadChildren(validUrl, k, v, depth, count + 1)
             case Malformed => Malformed
             case Ok(children, c) => Ok(fields.value.(children := children), c))
      case _ => Malformed
  }

  function ReadChildren(validUrl: string -> bool, k: Kind, v: Value, depth: nat, count: nat): Read<seq<Node>>
    requires v.Object?
    decreases v, 0
  {
    if !Container(k) then Ok([], count)
    else match Lookup(v, "children")
         case None => Ok([], count)
         case Some(Array(items)) => ReadAll(validUrl, items, depth + 1, count)
         case _ => Malformed
  }

  function ReadAll(validUrl: string -> bool, vs: seq<Value>, depth: nat, count: nat): Read<seq<Node>>
    decreases vs
  {
    if vs == [] then Ok([], count)
    else match ReadNode(validUrl, vs[0], depth, count)
         case Malformed => Malformed
         case Ok(first, c) =>
           match ReadAll(validUrl, vs[1..], depth, c)
           case Malformed => Malformed
           case Ok(rest, c') => Ok([first] + rest, c')
  }

  function ParseView(validUrl: string -> bool, v: Value): Option<seq<Node>> {
    if !v.Object? || Collect(v.fields).Keys != {"format", "nodes"} then None
    else if Collect(v.fields)["format"] != String(FORMAT) then None
    else match Collect(v.fields)["nodes"]
         case Array(items) =>
           (match ReadAll(validUrl, items, 1, 0)
            case Ok(nodes, _) => Some(nodes)
            case Malformed => None)
         case _ => None
  }

  // ---------- The same checks on the tree itself ----------

  function Count(n: Node): (c: nat)
    ensures c >= 1
  {
    1 + CountAll(n.children)
  }

  function CountAll(nodes: seq<Node>): nat {
    if nodes == [] then 0 else Count(nodes[0]) + CountAll(nodes[1..])
  }

  /** Only the fields of the node's kind are set. */
  predicate Shaped(n: Node) {
    && (!Textual(n.kind) ==> n.text == "") && (!n.kind.Link? ==> n.url == "") && (!n.kind.Heading? ==> n.level == 0)
    && (!n.kind.List? ==> !n.ordered) && (!n.ordered ==> n.start == 0)
    && (!Container(n.kind) ==> n.children == [])
    && forall c | c in n.children :: Shaped(c)
  }

  /** What the client asks of a node at a depth, whatever has been read before it. */
  predicate Fine(validUrl: string -> bool, n: Node, depth: nat) {
    && depth <= CLIENT_DEPTH
    && OwnFieldsFine(validUrl, n)
    && forall c | c in n.children :: Fine(validUrl, c, depth + 1)
  }

  predicate OwnFieldsFine(validUrl: string -> bool, n: Node) {
    && (n.kind.Heading? ==> 1 <= n.level <= 6)
    && (n.kind.Link? ==> n.url != "" && validUrl(n.url))
    && (n.ordered ==> 0 <= n.start <= 999999999)
  }

  lemma {:induction false} CollectConcat(a: seq<(string, Value)>, b: seq<(string, Value)>)
    ensures Collect(a + b) == Collect(a) + Collect(b)
  {
    if b == [] {
      assert a + b == a;
    } else {
      var front := b[..|b| - 1];
      assert (a + b)[..|a + b| - 1] == a + front;
      CollectConcat(a, front);
    }
  }

  function Entry(present: bool, name: string, v: Value): map<string, Value> {
    if present then map[name := v] else map[]
  }

  lemma CollectField(present: bool, name: string, v: Value)
    ensures Collect(Field(present, name, v)) == Entry(present, name, v)
  {
    if present {
      assert Field(present, name, v)[..0] == [];
    }
  }

  function Members(n: Node): map<string, Value> {
    Entry(true, "kind", String(KindName(n.kind))) + Entry(n.text != "", "text", String(n.text))
    + Entry(n.url != "", "url", String(n.url)) + Entry(n.level != 0, "level", Number(FormatInt(n.level)))
    + Entry(n.start != 0, "start", Number(FormatInt(n.start))) + Entry(n.ordered, "ordered", Bool(true))
    + Entry(n.children != [], "children", Array(EncodeAll(n.children)))
  }

  /** The members of an encoded node, by name. */
  lemma EncodedMembers(n: Node)
    ensures Encode(n).Object? && Collect(Encode(n).fields) == Members(n)
  {
    hide Collect, Field, Entry, KindName, FormatInt;
    var f1, f2 := Field(true, "kind", String(KindName(n.kind))), Field(n.text != "", "text", String(n.text));
    var f3, f4 := Field(n.url != "", "url", String(n.url)), Field(n.level != 0, "level", Number(FormatInt(n.level)));
    var f5, f6 := Field(n.start != 0, "start", Number(FormatInt(n.start))), Field(n.ordered, "ordered", Bool(true));
    var f7 := Field(n.children != [], "children", Array(EncodeAll(n.children)));
    CollectConcat(f1, f2);
    CollectConcat(f1 + f2, f3);
    CollectConcat(f1 + f2 + f3, f4);
    CollectConcat(f1 + f2 + f3 + f4, f5);
    CollectConcat(f1 + f2 + f3 + f4 + f5, f6);
    CollectConcat(f1 + f2 + f3 + f4 + f5 + f6, f7);
    CollectField(true, "kind", String(KindName(n.kind)));
    CollectField(n.text != "", "text", String(n.text));
    CollectField(n.url != "", "url", String(n.url));
    CollectField(n.level != 0, "level", Number(FormatInt(n.level)));
    CollectField(n.start != 0, "start", Number(FormatInt(n.start)));
    CollectField(n.ordered, "ordered", Bool(true));
    CollectField(n.children != [], "children", Array(EncodeAll(n.children)));
  }

  function Given(present: bool, v: Value): Option<Value> {
    if present then Some(v) else None
  }

  function At(m: map<string, Value>, key: string): Option<Value> {
    if key in m then Some(m[key]) else None
  }

  lemma AtMerge(a: map<string, Value>, present: bool, name: string, v: Value, key: string)
    ensures At(a + Entry(present, name, v), key) == if present && key == name then Some(v) else At(a, key)
  {
  }

  lemma MembersAt(n: Node, key: string)
    ensures At(Members(n), key) ==
      if n.children != [] && key == "children" then Some(Array(EncodeAll(n.children)))
      else if n.ordered && key == "ordered" then Some(Bool(true))
      else if n.start != 0 && key == "start" then Some(Number(FormatInt(n.start)))
      else if n.level != 0 && key == "level" then Some(Number(FormatInt(n.level)))
      else if n.url != "" && key == "url" then Some(String(n.url))
      else if n.text != "" && key == "text" then Some(String(n.text))
      else if key == "kind" then Some(String(KindName(n.kind)))
      else None
  {
    hide Entry, KindName, FormatInt, EncodeAll, At;
    var m1 := map[] + Entry(true, "kind", String(KindName(n.kind)));
    var m2 := m1 + Entry(n.text != "", "text", String(n.text));
    var m3 := m2 + Entry(n.url != "", "url", String(n.url));
    var m4 := m3 + Entry(n.level != 0, "level", Number(FormatInt(n.level)));
    var m5 := m4 + Entry(n.start != 0, "start", Number(FormatInt(n.start)));
    var m6 := m5 + Entry(n.ordered, "ordered", Bool(true));
    AtMerge(m6, n.children != [], "children", Array(EncodeAll(n.children)), key);
    AtMerge(m5, n.ordered, "ordered", Bool(true), key);
    AtMerge(m4, n.start != 0, "start", Number(FormatInt(n.start)), key);
    AtMerge(m3, n.level != 0, "level", Number(FormatInt(n.level)), key);
    AtMerge(m2, n.url != "", "url", String(n.url), key);
    AtMerge(m1, n.text != "", "text", String(n.text), key);
    AtMerge(map[], true, "kind", String(KindName(n.kind)), key);
    assert At(map[], key) == None by { AtNothing(key); }
    assert m1 == Entry(true, "kind", String(KindName(n.kind)));
  }

  lemma AtNothing(key: string)
    ensures At(map[], key) == None
  {
  }

  lemma LookupMember(n: Node, key: string)
    ensures Encode(n).Object? && Lookup(Encode(n), key) == At(Members(n), key)
  {
    hide Members, Encode;
    EncodedMembers(n);
  }

  lemma EncodedLookup(n: Node)
    ensures var v := Encode(n);
      && v.Object?
      && Lookup(v, "kind") == Some(String(KindName(n.kind)))
      && Lookup(v, "text") == Given(n.text != "", String(n.text))
      && Lookup(v, "url") == Given(n.url != "", String(n.url))
      && Lookup(v, "level") == Given(n.level != 0, Number(FormatInt(n.level)))
      && Lookup(v, "start") == Given(n.start != 0, Number(FormatInt(n.start)))
      && Lookup(v, "ordered") == Given(n.ordered, Bool(true))
      && Lookup(v, "children") == Given(n.children != [], Array(EncodeAll(n.children)))
  {
    hide KindName, FormatInt, Encode, EncodeAll, Lookup, Members, At;
    LookupMember(n, "kind"); MembersAt(n, "kind");
    LookupMember(n, "text"); MembersAt(n, "text");
    LookupMember(n, "url"); MembersAt(n, "url");
    LookupMember(n, "level"); MembersAt(n, "level");
    LookupMember(n, "start"); MembersAt(n, "start");
    LookupMember(n, "ordered"); MembersAt(n, "ordered");
    LookupMember(n, "children"); MembersAt(n, "children");
  }

  lemma EncodedKeys(n: Node)
    requires Shaped(n)
    ensures forall key | key in Collect(Encode(n).fields) :: key == "kind" || key in Optional(n.kind)
  {
    hide Collect, KindName, FormatInt, Encode;
    EncodedMembers(n);
  }

  /** The reader's verdict on the fields of an encoded node. */
  lemma EncodedFields(validUrl: string -> bool, n: Node)
    requires Shaped(n)
    ensures ReadFields(validUrl, n.kind, Encode(n)) == if OwnFieldsFine(validUrl, n) then Some(n.(children := [])) else None
  {
    hide Encode, KindName, Lookup, FormatInt, ParseInt;
    EncodedLookup(n);
    IntRoundTrip(n.level);
    IntRoundTrip(n.start);
  }

  /** Reading the encoding of a node gives the node back, and is refused exactly when the node is not fine. */
  lemma {:induction false} ReadEncoded(validUrl: string -> bool, n: Node, depth: nat, count: nat)
    requires Shaped(n) && count + Count(n) <= CLIENT_NODES
    ensures ReadNode(validUrl, Encode(n), depth, count) == if Fine(validUrl, n, depth) then Ok(n, count + Count(n)) else Malformed
    decreases n
  {
    hide Encode, KindName, KindOf, Lookup, ReadFields, OwnFieldsFine, Collect, Optional;
    EncodedLookup(n);
    EncodedKeys(n);
    EncodedFields(validUrl, n);
    KindRoundTrip(n.kind);
    ReadEncodedAll(validUrl, n.children, depth + 1, count + 1);
  }

  lemma {:induction false} ReadEncodedAll(validUrl: string -> bool, nodes: seq<Node>, depth: nat, count: nat)
    requires (forall n | n in nodes :: Shaped(n)) && count + CountAll(nodes) <= CLIENT_NODES
    ensures ReadAll(validUrl, EncodeAll(nodes), depth, count) ==
      if forall n | n in nodes :: Fine(validUrl, n, depth) then Ok(nodes, count + CountAll(nodes)) else Malformed
    decreases nodes
  {
    hide ReadNode, Fine, Count, Encode, Shaped;
    if nodes != [] {
      assert EncodeAll(nodes)[0] == Encode(nodes[0]) && EncodeAll(nodes)[1..] == EncodeAll(nodes[1..]);
      ReadEncoded(validUrl, nodes[0], depth, count);
      if Fine(validUrl, nodes[0], depth) {
        ReadEncodedAll(validUrl, nodes[1..], depth, count + Count(nodes[0]));
      }
      assert nodes == [nodes[0]] + nodes[1..];
    }
  }

  /** A view that fits is read back as it was written, or refused for the first node that is not fine. */
  lemma ViewRoundTrip(validUrl: string -> bool, nodes: seq<Node>)
    requires (forall n | n in nodes :: Shaped(n)) && CountAll(nodes) <= CLIENT_NODES
    ensures ParseView(validUrl, EncodeView(nodes)) ==
      if forall n | n in nodes :: Fine(validUrl, n, 1) then Some(nodes) else None
  {
    hide EncodeAll, ReadAll, Fine, Shaped;
    var fields := EncodeView(nodes).fields;
    assert fields[..1] == [fields[0]] && fields[..1][..0] == [];
    assert Collect(fields[..1]) == map["format" := String(FORMAT)];
    assert Collect(fields) == map["format" := String(FORMAT), "nodes" := Array(EncodeAll(nodes))];
    ReadEncodedAll(validUrl, nodes, 1, 0);
  }

  // ---------- Whatever the server sends ----------

  /** The members that a node of a kind may have on the wire. */
  predicate OwnMember(k: Kind, key: string) {
    || key == "kind"
    || (key == "text" && (k == Plain || k == Code || k == CodeBlock))
    || (key == "url" && k == Link)
    || (key == "level" && k == Heading)
    || ((key == "ordered" || key == "start") && k == List)
    || (key == "children" && k != Plain && k != Code && k != CodeBlock && k != Break && k != Rule)
  }

  /** The value is an object of the node's kind with no members but the node's own, and so are its children's. */
  predicate Spells(v: Value, n: Node)
    decreases n
  {
    && v.Object? && (forall key | key in Collect(v.fields) :: OwnMember(n.kind, key))
    && "kind" in Collect(v.fields) && Collect(v.fields)["kind"] == String(KindName(n.kind))
    && (if "children" in Collect(v.fields) then
          var items := Collect(v.fields)["children"];
          items.Array? && |items.items| == |n.children| && forall i | 0 <= i < |n.children| :: Spells(items.items[i], n.children[i])
        else n.children == [])
  }

  /** The steps of reading one node. */
  lemma NodeRead(validUrl: string -> bool, v: Value, depth: nat, count: nat)
    requires ReadNode(validUrl, v, depth, count).Ok?
    ensures count + 1 <= CLIENT_NODES && depth <= CLIENT_DEPTH && v.Object?
    ensures Lookup(v, "kind").Some? && Lookup(v, "kind").value.String? && KindOf(Lookup(v, "kind").value.text).Some?
    ensures var k := KindOf(Lookup(v, "kind").value.text).value;
      && ReadFields(validUrl, k, v).Some? && ReadChildren(validUrl, k, v, depth, count + 1).Ok?
      && (forall key | key in Collect(v.fields) :: key == "kind" || key in Optional(k))
      && var children := ReadChildren(validUrl, k, v, depth, count + 1);
         ReadNode(validUrl, v, depth, count) == Ok(ReadFields(validUrl, k, v).value.(children := children.value), children.count)
  {
    hide ReadFields, Optional, KindOf, ReadChildren, Collect, Lookup;
  }

  /** The items that were read as the children of a node. */
  lemma ChildrenRead(validUrl: string -> bool, k: Kind, v: Value, depth: nat, count: nat) returns (items: seq<Value>)
    requires v.Object? && ReadChildren(validUrl, k, v, depth, count).Ok?
    requires forall key | key in Collect(v.fields) :: OwnMember(k, key)
    ensures ReadAll(validUrl, items, depth + 1, count) == ReadChildren(validUrl, k, v, depth, count)
    ensures if "children" in Collect(v.fields) then Collect(v.fields)["children"] == Array(items) else items == []
    ensures if items == [] then ReadChildren(validUrl, k, v, depth, count) == Ok([], count) else Array(items) < v
  {
    hide Collect;
    items := if Container(k) && Lookup(v, "children").Some? then Lookup(v, "children").value.items else [];
  }

  lemma {:induction false} ReadIsFine(validUrl: string -> bool, v: Value, depth: nat, count: nat)
    requires !validUrl("")
    ensures var r := ReadNode(validUrl, v, depth, count);
      r.Ok? ==> Shaped(r.value) && Fine(validUrl, r.value, depth) && r.count == count + Count(r.value) <= CLIENT_NODES && Spells(v, r.value)
    decreases v
  {
    hide ReadFields, OwnFieldsFine, Fine, Shaped, Spells, Count, Optional, KindOf, KindName, ReadAll, ReadChildren, ReadNode, Collect, OwnMember;
    if ReadNode(validUrl, v, depth, count).Ok? {
      NodeRead(validUrl, v, depth, count);
      var name := Lookup(v, "kind").value.text;
      var k := KindOf(name).value;
      FieldsAreFine(validUrl, k, v);
      OwnMembers(k);
      KindReversed(name);
      var n := ReadFields(validUrl, k, v).value;
      var items := ChildrenRead(validUrl, k, v, depth, count + 1);
      if items != [] { ReadAllIsFine(validUrl, items, depth + 1, count + 1); }
      var children := ReadChildren(validUrl, k, v, depth, count + 1).value;
      NodeIsFine(validUrl, v, n, items, children, depth);
    }
  }

  lemma {:induction false} ReadAllIsFine(validUrl: string -> bool, vs: seq<Value>, depth: nat, count: nat)
    requires count <= CLIENT_NODES && !validUrl("")
    ensures var r := ReadAll(validUrl, vs, depth, count);
      r.Ok? ==>
        (&& r.count == count + CountAll(r.value) <= CLIENT_NODES && |r.value| == |vs|
         && forall i | 0 <= i < |vs| :: Shaped(r.value[i]) && Fine(validUrl, r.value[i], depth) && Spells(vs[i], r.value[i]))
    decreases vs
  {
    hide ReadNode, Fine, Count, Shaped, Spells;
    if vs != [] {
      var first := ReadNode(validUrl, vs[0], depth, count);
      ReadIsFine(validUrl, vs[0], depth, count);
      if first.Ok? { ReadAllIsFine(validUrl, vs[1..], depth, first.count); }
    }
  }

  lemma KindReversed(name: string)
    ensures KindOf(name).Some? ==> KindName(KindOf(name).value) == name
  {
  }

  lemma OwnMembers(k: Kind)
    ensures forall key | key == "kind" || key in Optional(k) :: OwnMember(k, key)
    ensures OwnMember(k, "children") <==> Container(k)
  {
  }

  lemma FieldsAreFine(validUrl: string -> bool, k: Kind, v: Value)
    requires v.Object? && ReadFields(validUrl, k, v).Some? && !validUrl("")
    ensures var n := ReadFields(validUrl, k, v).value; n.kind == k && n.children == [] && Shaped(n) && OwnFieldsFine(validUrl, n)
  {
    hide Lookup, Collect, ParseInt;
  }

  lemma NodeIsFine(validUrl: string -> bool, v: Value, n: Node, items: seq<Value>, children: seq<Node>, depth: nat)
    requires depth <= CLIENT_DEPTH && Shaped(n) && OwnFieldsFine(validUrl, n) && |items| == |children| && n.children == []
    requires v.Object? && "kind" in Collect(v.fields) && Collect(v.fields)["kind"] == String(KindName(n.kind))
    requires forall key | key in Collect(v.fields) :: OwnMember(n.kind, key)
    requires if "children" in Collect(v.fields) then Collect(v.fields)["children"] == Array(items) else items == []
    requires OwnMember(n.kind, "children") <==> Container(n.kind)
    requires forall i | 0 <= i < |items| :: Shaped(children[i]) && Fine(validUrl, children[i], depth + 1) && Spells(items[i], children[i])
    ensures var whole := n.(children := children);
      Shaped(whole) && Fine(validUrl, whole, depth) && Spells(v, whole) && Count(whole) == 1 + CountAll(children)
  {
    hide Collect, KindName, OwnMember;
  }

  /**
   Whatever a server sends, the client shows at most 20,000 nodes, none deeper than 32 or outside its kind's rules,
   and every object it accepts spells its node with no other member.
   */
  lemma AcceptedViewIsFine(validUrl: string -> bool, v: Value)
    requires !validUrl("") && ParseView(validUrl, v).Some?
    ensures var nodes := ParseView(validUrl, v).value;
      && CountAll(nodes) <= 20000 && v.Object? && Collect(v.fields).Keys == {"format", "nodes"}
      && Collect(v.fields)["format"] == String("nexus-markdown-view-v1") && Collect(v.fields)["nodes"].Array?
      && |Collect(v.fields)["nodes"].items| == |nodes|
      && forall i | 0 <= i < |nodes| :: Shaped(nodes[i]) && Fine(validUrl, nodes[i], 1) && Spells(Collect(v.fields)["nodes"].items[i], nodes[i])
  {
    hide ReadAll, Shaped, Fine, Spells, CountAll, Collect;
    ReadAllIsFine(validUrl, Collect(v.fields)["nodes"].items, 1, 0);
  }
}
