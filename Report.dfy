/**
 * Report tree transform and rendering (lib/reportUtils.js).
 *
 * The raw report written by the test harness is a tree of suites and tests.
 * `parseRecurs` rebuilds it into `{title, pass?, items?}` nodes, annotating
 * titles with custom identities; the result is rendered as console lines or
 * as nested `<ul>` markup, where top-level suite headings are linked to the
 * issue-tracker tasks whose summary contains the bracketed part of the title.
 *
 * The issue-tracker search is the parameter `tasks`, mapping a search term to
 * the tasks found.
 */
module Report {
  import opened Wrappers
  import opened Macros

  // ---------------------------------------------------------------------
  // Data model.
  // ---------------------------------------------------------------------

  /** A `suites` or `tests` field of a raw node: missing, present but not an
      array (recording whether it is truthy with a positive `length`, as a
      non-empty string is), or an array. */
  datatype RawField = Absent | NotAList(positiveLength: bool) | List(elements: seq<RawItem>)

  /** A raw report node; `pass` is `None` when the field is undefined. */
  datatype RawItem = RawItem(title: string, uuid: Option<string>, pass: Option<bool>, suites: RawField, tests: RawField)

  /** The raw report document: its root suite is `report.suites`. */
  datatype RawReport = RawReport(suites: RawItem)

  /** An entry of the custom identity file. */
  datatype CustomIdentity = CustomIdentity(uuid: Option<string>, identity: JsValue)

  /** The `items` field of a parsed node: undefined, or an array of nodes. */
  datatype Children = NoItems | Items(nodes: seq<ReportNode>)

  /** A node of the parsed report. */
  datatype ReportNode = ReportNode(title: string, pass: Option<bool>, items: Children)

  /** A task found in the issue tracker. */
  datatype Task = Task(key: string, link: string)

  // ---------------------------------------------------------------------
  // Identity lookup and tree transform.
  // ---------------------------------------------------------------------

  /** `k` is the first entry whose `uuid` equals the given one. */
  predicate FirstWithUuid(cis: seq<CustomIdentity>, uuid: Option<string>, k: int) {
    0 <= k < |cis| && cis[k].uuid == uuid && forall j :: 0 <= j < k ==> cis[j].uuid != uuid
  }

  /** `customIdentities.find(ci => ci.uuid === uuid)`, as an index. */
  function FindIdentity(cis: seq<CustomIdentity>, uuid: Option<string>): (r: Option<nat>)
    ensures r.Some? ==> FirstWithUuid(cis, uuid, r.value)
    ensures r.None? ==> forall k :: 0 <= k < |cis| ==> cis[k].uuid != uuid
  {
    if cis == [] then None
    else if cis[0].uuid == uuid then Some(0)
    else match FindIdentity(cis[1..], uuid)
      case None => None
      case Some(k) => Some(k + 1)
  }

  /** `getIdenity`: the identity of the first entry with an equal uuid, or
      `undefined` when there is no list or no such entry. */
  function GetIdentity(customIdentities: Option<seq<CustomIdentity>>, uuid: Option<string>): (r: JsValue)
    ensures customIdentities.None? ==> r == Undefined
    ensures (customIdentities.Some? &&
             forall k :: 0 <= k < |customIdentities.value| ==> customIdentities.value[k].uuid != uuid)
            ==> r == Undefined
    ensures customIdentities.Some? ==>
              forall k :: FirstWithUuid(customIdentities.value, uuid, k) ==> r == customIdentities.value[k].identity
  {
    match customIdentities
    case None => Undefined
    case Some(cis) =>
      match FindIdentity(cis, uuid)
      case None => Undefined
      case Some(k) => cis[k].identity
  }

  /** What a looked-up identity appends to a title: ` (identity)` when it is truthy. */
  function IdentitySuffix(identity: JsValue): string {
    if Truthy(identity) then " (" + Text(identity) + ")" else ""
  }

  /** The title of a parsed node. */
  function ParsedTitle(item: RawItem, customIdentities: Option<seq<CustomIdentity>>): string {
    item.title + IdentitySuffix(GetIdentity(customIdentities, item.uuid))
  }

  /** `item.suites && item.suites.length > 0`. */
  predicate NonEmpty(f: RawField) {
    match f
    case Absent => false
    case NotAList(positiveLength) => positiveLength
    case List(elements) => |elements| > 0
  }

  /** The parsed node of one raw item. The source assigns `items` from the
      suites and then, when there are tests, again from the tests; since
      `([] || itemRes.items)` is always `[]`, the tests replace the suites. */
  function ParseItem(item: RawItem, customIdentities: Option<seq<CustomIdentity>>): ReportNode
    decreases item, 1
  {
    ReportNode(ParsedTitle(item, customIdentities), item.pass, ParsedChildren(item, customIdentities))
  }

  function ParsedChildren(item: RawItem, customIdentities: Option<seq<CustomIdentity>>): Children
    decreases item, 0
  {
    if NonEmpty(item.tests) then Items(Parse(item.tests, customIdentities))
    else if NonEmpty(item.suites) then Items(Parse(item.suites, customIdentities))
    else NoItems
  }

  /** One parsed node per raw item, in order. */
  function ParseSeq(items: seq<RawItem>, customIdentities: Option<seq<CustomIdentity>>): seq<ReportNode>
    decreases items
  {
    seq(|items|, k requires 0 <= k < |items| => ParseItem(items[k], customIdentities))
  }

  /** What `parseRecurs` returns: nothing when the input is missing or not an array. */
  function Parse(items: RawField, customIdentities: Option<seq<CustomIdentity>>): seq<ReportNode>
    decreases items
  {
    if items.List? then ParseSeq(items.elements, customIdentities) else []
  }

  /** `parseReport`, once the two files are read: the root suite's suites are parsed. */
  function ParseReport(report: RawReport, customIdentities: Option<seq<CustomIdentity>>): seq<ReportNode> {
    Parse(report.suites.suites, customIdentities)
  }

  /** `parseRecurs`: pushes one node per item. */
  method ParseRecurs(items: RawField, customIdentities: Option<seq<CustomIdentity>>) returns (result: seq<ReportNode>)
    ensures result == Parse(items, customIdentities)
    decreases items
  {
    result := [];
    if items.List? {
      var xs := items.elements;
      for i := 0 to |xs|
        invariant |result| == i
        invariant forall k :: 0 <= k < i ==> result[k] == ParseItem(xs[k], customIdentities)
      {
        var node := ParseOne(xs[i], customIdentities);
        result := result + [node];
      }
      assert result == ParseSeq(xs, customIdentities);
    }
  }

  /** The body of the `forEach` in `parseRecurs`: the node of one item, its
      fields assigned in the source's order. */
  method ParseOne(item: RawItem, customIdentities: Option<seq<CustomIdentity>>) returns (node: ReportNode)
    ensures node == ParseItem(item, customIdentities)
    decreases item
  {
    var identity := GetIdentity(customIdentities, item.uuid);
    var title := item.title + IdentitySuffix(identity);
    var children := NoItems;
    if NonEmpty(item.suites) {
      var parsed := ParseRecurs(item.suites, customIdentities);
      assert [] + parsed == Parse(item.suites, customIdentities);
      children := Items([] + parsed);
    }
    if NonEmpty(item.tests) {
      var parsed := ParseRecurs(item.tests, customIdentities);
      assert [] + parsed == Parse(item.tests, customIdentities);
      children := Items([] + parsed);
    }
    assert children == ParsedChildren(item, customIdentities);
    assert title == ParsedTitle(item, customIdentities);
    node := ReportNode(title, item.pass, children);
  }

  /** No `items` list anywhere below `node` is empty. */
  predicate NoEmptyItems(node: ReportNode)
    decreases node
  {
    node.items.Items? ==>
      |node.items.nodes| > 0 && forall c :: c in node.items.nodes ==> NoEmptyItems(c)
  }

  /** No `suites` or `tests` field anywhere in the raw tree is a non-array
      with a positive `length`. */
  predicate NoStrayLength(item: RawItem)
    decreases item
  {
    item.suites != NotAList(true) && item.tests != NotAList(true)
    && (item.suites.List? ==> forall c :: c in item.suites.elements ==> NoStrayLength(c))
    && (item.tests.List? ==> forall c :: c in item.tests.elements ==> NoStrayLength(c))
  }

  /** A parsed tree built from arrays never holds an empty `items` list: a
      node gets `items` only when its suites or tests are non-empty, and then
      it has one child per raw child. (A non-array field with a positive
      `length` passes the test for `items` and gives an empty list.) */
  lemma {:induction false} ParsedItemsNonEmpty(item: RawItem, customIdentities: Option<seq<CustomIdentity>>)
    requires NoStrayLength(item)
    ensures NoEmptyItems(ParseItem(item, customIdentities))
    decreases item
  {
    var raw := if NonEmpty(item.tests) then item.tests else item.suites;
    if NonEmpty(raw) {
      var parsed := ParseSeq(raw.elements, customIdentities);
      assert Parse(raw, customIdentities) == parsed;
      forall c | c in parsed
        ensures NoEmptyItems(c)
      {
        var k :| 0 <= k < |parsed| && parsed[k] == c;
        assert raw.elements[k] in raw.elements;
        ParsedItemsNonEmpty(raw.elements[k], customIdentities);
      }
    }
  }

  /** A non-array `tests` field with a positive `length` gives the node an
      empty `items` list, whatever its suites are. */
  lemma StrayLengthGivesEmptyItems(item: RawItem, customIdentities: Option<seq<CustomIdentity>>)
    requires item.tests == NotAList(true)
    ensures ParseItem(item, customIdentities).items == Items([])
  {
    assert Parse(item.tests, customIdentities) == [];
  }

  /** `parseRecurs` gives one node per input item, in order, and nothing for
      input that is missing or not an array. */
  lemma ParseShape(items: RawField, customIdentities: Option<seq<CustomIdentity>>)
    ensures !items.List? ==> Parse(items, customIdentities) == []
    ensures items.List? ==> (|Parse(items, customIdentities)| == |items.elements|
      && forall k :: 0 <= k < |items.elements| ==> Parse(items, customIdentities)[k] == ParseItem(items.elements[k], customIdentities))
  {
  }

  /** One parsed node: `pass` copied when defined, the identity suffix exactly
      when the identity is truthy, and `items` from the tests when there are
      any (the suites are then discarded), else from the suites, else none. */
  lemma ParsedNode(item: RawItem, customIdentities: Option<seq<CustomIdentity>>)
    ensures ParseItem(item, customIdentities).pass == item.pass
    ensures Truthy(GetIdentity(customIdentities, item.uuid)) ==>
      ParseItem(item, customIdentities).title == item.title + " (" + Text(GetIdentity(customIdentities, item.uuid)) + ")"
    ensures !Truthy(GetIdentity(customIdentities, item.uuid)) ==> ParseItem(item, customIdentities).title == item.title
    ensures NonEmpty(item.tests) ==> ParseItem(item, customIdentities).items == Items(Parse(item.tests, customIdentities))
    ensures !NonEmpty(item.tests) && NonEmpty(item.suites) ==>
      ParseItem(item, customIdentities).items == Items(Parse(item.suites, customIdentities))
    ensures !NonEmpty(item.tests) && !NonEmpty(item.suites) ==> ParseItem(item, customIdentities).items == NoItems
  {
    if !Truthy(GetIdentity(customIdentities, item.uuid)) {
      assert item.title + "" == item.title;
    }
  }

  /** Without an identity list every title is kept and `pass` is copied through. */
  lemma ParseWithoutIdentities(items: seq<RawItem>)
    ensures forall k :: 0 <= k < |items| ==>
              ParseSeq(items, None)[k].title == items[k].title && ParseSeq(items, None)[k].pass == items[k].pass
  {
  }

  /** The raw report `{suites: {suites: [{title: "A", tests: [{title: "t1", pass: true}]}]}}`
      parses to `[{title: "A", items: [{title: "t1", pass: true}]}]`. */
  lemma ParseReportExample()
    ensures
      var t1 := RawItem("t1", None, Some(true), Absent, Absent);
      var a := RawItem("A", None, None, Absent, List([t1]));
      var root := RawItem("", None, None, List([a]), Absent);
      ParseReport(RawReport(root), None)
        == [ReportNode("A", None, Items([ReportNode("t1", Some(true), NoItems)]))]
  {
    var t1 := RawItem("t1", None, Some(true), Absent, Absent);
    var a := RawItem("A", None, None, Absent, List([t1]));
    assert ParsedTitle(t1, None) == "t1" + "";
    assert ParsedChildren(t1, None) == NoItems;
    var pt1 := ParseItem(t1, None);
    assert pt1 == ReportNode("t1", Some(true), NoItems);
    assert ParseSeq([t1], None) == [pt1];
    assert ParsedTitle(a, None) == "A" + "";
    assert ParsedChildren(a, None) == Items([pt1]);
    assert ParseItem(a, None) == ReportNode("A", None, Items([pt1]));
    assert ParseSeq([a], None) == [ParseItem(a, None)];
    var root := RawItem("", None, None, List([a]), Absent);
    assert ParseReport(RawReport(root), None) == ParseSeq([a], None);
  }

  /** A matching custom identity `{uuid: "u1", identity: "Bob"}` appends ` (Bob)` once. */
  lemma IdentityExample()
    ensures
      var t1 := RawItem("t1", Some("u1"), Some(true), Absent, Absent);
      ParseItem(t1, Some([CustomIdentity(Some("u1"), Str("Bob"))])).title == "t1 (Bob)"
  {
    var cis := [CustomIdentity(Some("u1"), Str("Bob"))];
    assert FirstWithUuid(cis, Some("u1"), 0);
    assert GetIdentity(Some(cis), Some("u1")) == Str("Bob");
  }

  // ---------------------------------------------------------------------
  // Console rendering.
  // ---------------------------------------------------------------------

  /** One `console.log` call: `Blank` is `console.log('\n')`. */
  datatype LogLine = Blank | Line(text: string)

  const Esc: char := 27 as char
  const PassedMarker: string := ": " + [Esc] + "[32mpassed" + [Esc] + "[0m"
  const FailedMarker: string := ": " + [Esc] + "[31mfailed" + [Esc] + "[0m"

  /** `new Array(level + 1).join('  ')`: two spaces per level. */
  function Spaces(level: nat): (r: string)
    ensures |r| == 2 * level && forall m :: 0 <= m < |r| ==> r[m] == ' '
  {
    if level == 0 then "" else "  " + Spaces(level - 1)
  }

  function Marker(pass: Option<bool>): string {
    match pass
    case None => ""
    case Some(p) => if p then PassedMarker else FailedMarker
  }

  function ItemLine(node: ReportNode, level: nat): string {
    Spaces(level) + node.title + Marker(node.pass)
  }

  /** `item.items && item.items.length > 0`. */
  predicate HasChildren(node: ReportNode) {
    node.items.Items? && |node.items.nodes| > 0
  }

  /** The lines of the nodes at `level`, node after node. */
  function ConsoleBody(items: seq<ReportNode>, level: nat): seq<LogLine>
    decreases items
  {
    if items == [] then [] else NodeLines(items[0], level) + ConsoleBody(items[1..], level)
  }

  /** The lines of one node: its own line, its children's lines one level
      deeper, then a blank line while `level < 2`. */
  function NodeLines(node: ReportNode, level: nat): seq<LogLine>
    decreases node
  {
    [Line(ItemLine(node, level))]
    + (if HasChildren(node) then ConsoleBody(node.items.nodes, level + 1) else [])
    + (if level < 2 then [Blank] else [])
  }

  /** What `consoleLogRecurse(items, level)` logs. */
  function ConsoleLog(items: seq<ReportNode>, level: nat): seq<LogLine> {
    (if level == 0 then [Blank] else []) + ConsoleBody(items, level)
  }

  lemma {:induction false} ConsoleBodyAppend(a: seq<ReportNode>, b: seq<ReportNode>, level: nat)
    ensures ConsoleBody(a + b, level) == ConsoleBody(a, level) + ConsoleBody(b, level)
    decreases |a|
  {
    if a == [] {
      assert a + b == b;
    } else {
      assert (a + b)[0] == a[0];
      assert (a + b)[1..] == a[1..] + b;
      ConsoleBodyAppend(a[1..], b, level);
    }
  }

  /** `consoleLogRecurse`: logs each item's line, recurses into non-empty
      children, then the spacing. It terminates because each recursive call
      is on the children of one of `items`. */
  method ConsoleLogRecurse(items: seq<ReportNode>, level: nat) returns (lines: seq<LogLine>)
    ensures lines == ConsoleLog(items, level)
    decreases Items(items)
  {
    var head: seq<LogLine> := if level == 0 then [Blank] else [];
    lines := head;
    for i := 0 to |items|
      invariant lines == head + ConsoleBody(items[..i], level)
    {
      var item := items[i];
      var logTxt := Spaces(level) + item.title + Marker(item.pass);
      var children: seq<LogLine> := [];
      if item.items.Items? && |item.items.nodes| > 0 {
        children := ConsoleLogRecurse(item.items.nodes, level + 1);
      }
      var spacing: seq<LogLine> := [];
      if level < 2 {
        spacing := [Blank];
      }
      NodeLinesParts(item, level, children, spacing);
      ConsoleBodySnoc(items, i, level);
      AppendAssoc(head, ConsoleBody(items[..i], level), NodeLines(item, level));
      lines := lines + ([Line(logTxt)] + children + spacing);
    }
    assert items[..|items|] == items;
  }

  /** The lines of one node assembled from its parts. */
  lemma NodeLinesParts(node: ReportNode, level: nat, children: seq<LogLine>, spacing: seq<LogLine>)
    requires children == if HasChildren(node) then ConsoleLog(node.items.nodes, level + 1) else []
    requires spacing == if level < 2 then [Blank] else []
    ensures NodeLines(node, level) == [Line(Spaces(level) + node.title + Marker(node.pass))] + children + spacing
  {
    if HasChildren(node) {
      assert ConsoleLog(node.items.nodes, level + 1) == ConsoleBody(node.items.nodes, level + 1);
    }
  }

  lemma ConsoleBodySnoc(items: seq<ReportNode>, i: nat, level: nat)
    requires i < |items|
    ensures ConsoleBody(items[..i + 1], level) == ConsoleBody(items[..i], level) + NodeLines(items[i], level)
  {
    ConsoleBodyAppend(items[..i], [items[i]], level);
    assert items[..i + 1] == items[..i] + [items[i]];
    assert [items[i]][1..] == [];
  }

  function CountLines(lines: seq<LogLine>): nat {
    if lines == [] then 0 else (if lines[0].Line? then 1 else 0) + CountLines(lines[1..])
  }

  lemma {:induction false} CountLinesAppend(a: seq<LogLine>, b: seq<LogLine>)
    ensures CountLines(a + b) == CountLines(a) + CountLines(b)
    decreases |a|
  {
    if a == [] {
      assert a + b == b;
    } else {
      assert (a + b)[0] == a[0];
      assert (a + b)[1..] == a[1..] + b;
      CountLinesAppend(a[1..], b);
    }
  }

  /** The number of nodes in a forest. */
  function Size(items: seq<ReportNode>): nat
    decreases items
  {
    if items == [] then 0 else NodeSize(items[0]) + Size(items[1..])
  }

  function NodeSize(node: ReportNode): nat
    decreases node
  {
    1 + (if node.items.Items? then Size(node.items.nodes) else 0)
  }

  /** Exactly one title line is logged per node of the forest. */
  lemma {:induction false} ConsoleOneLinePerNode(items: seq<ReportNode>, level: nat)
    ensures CountLines(ConsoleBody(items, level)) == Size(items)
    decreases items
  {
    if items != [] {
      NodeOneLine(items[0], level);
      ConsoleOneLinePerNode(items[1..], level);
      CountLinesAppend(NodeLines(items[0], level), ConsoleBody(items[1..], level));
    }
  }

  lemma {:induction false} NodeOneLine(node: ReportNode, level: nat)
    ensures CountLines(NodeLines(node, level)) == NodeSize(node)
    decreases node
  {
    var own: seq<LogLine> := [Line(ItemLine(node, level))];
    var children := if HasChildren(node) then ConsoleBody(node.items.nodes, level + 1) else [];
    var spacing: seq<LogLine> := if level < 2 then [Blank] else [];
    if HasChildren(node) {
      ConsoleOneLinePerNode(node.items.nodes, level + 1);
    }
    CountLinesAppend(own, children);
    CountLinesAppend(own + children, spacing);
    assert CountLines(spacing) == 0;
    assert CountLines(own) == 1;
  }

  /** From level 2 down, no blank line is logged. */
  lemma {:induction false} ConsoleDeepNoBlank(items: seq<ReportNode>, level: nat)
    requires level >= 2
    ensures Blank !in ConsoleBody(items, level)
    decreases items
  {
    if items != [] {
      NodeDeepNoBlank(items[0], level);
      ConsoleDeepNoBlank(items[1..], level);
    }
  }

  lemma {:induction false} NodeDeepNoBlank(node: ReportNode, level: nat)
    requires level >= 2
    ensures Blank !in NodeLines(node, level)
    decreases node
  {
    if HasChildren(node) {
      ConsoleDeepNoBlank(node.items.nodes, level + 1);
    }
  }

  /** `line` is a text line starting with at least `2 * level` spaces. */
  predicate Indented(line: LogLine, level: nat) {
    line.Line? ==> |line.text| >= 2 * level && forall m :: 0 <= m < 2 * level ==> line.text[m] == ' '
  }

  /** Every line logged for nodes at `level` starts with `2 * level` spaces. */
  lemma {:induction false} ConsoleIndentation(items: seq<ReportNode>, level: nat)
    ensures forall l :: l in ConsoleBody(items, level) ==> Indented(l, level)
    decreases items
  {
    if items != [] {
      NodeIndentation(items[0], level);
      ConsoleIndentation(items[1..], level);
    }
  }

  lemma {:induction false} NodeIndentation(node: ReportNode, level: nat)
    ensures forall l :: l in NodeLines(node, level) ==> Indented(l, level)
    decreases node
  {
    if HasChildren(node) {
      ConsoleIndentation(node.items.nodes, level + 1);
      forall l | l in ConsoleBody(node.items.nodes, level + 1)
        ensures Indented(l, level)
      {
        assert Indented(l, level + 1);
      }
    }
    var own := ItemLine(node, level);
    assert own[..2 * level] == Spaces(level);
  }

  // ---------------------------------------------------------------------
  // Issue-tracker links.
  // ---------------------------------------------------------------------

  /** The characters JavaScript's `.` does not match. */
  predicate IsLineTerminator(c: char) {
    c == '\n' || c == '\r' || c == '\U{2028}' || c == '\U{2029}'
  }

  /** `s[j]` is a `]` reachable from `p` without crossing a line terminator. */
  predicate CloseReachable(s: string, p: int, j: int) {
    0 <= p <= j < |s| && s[j] == ']' && forall m :: p <= m < j ==> !IsLineTerminator(s[m])
  }

  /** The greedy `.*\]`: the last `]` reachable from `p`. */
  function LastClose(s: string, p: nat): (r: Option<nat>)
    requires p <= |s|
    ensures r.Some? ==> CloseReachable(s, p, r.value)
    ensures r.Some? ==> forall j :: CloseReachable(s, p, j) ==> j <= r.value
    ensures r.None? ==> forall j :: !CloseReachable(s, p, j)
    decreases |s| - p
  {
    if p == |s| || IsLineTerminator(s[p]) then None
    else
      assert forall j :: CloseReachable(s, p, j) && j != p ==> CloseReachable(s, p + 1, j);
      assert forall j :: CloseReachable(s, p + 1, j) ==> CloseReachable(s, p, j);
      match LastClose(s, p + 1)
      case Some(j) => Some(j)
      case None => if s[p] == ']' then Some(p) else None
  }

  /** `/\[.*\]/` matches `s[i..j + 1]`. */
  predicate BracketMatch(s: string, i: int, j: int) {
    0 <= i < |s| && s[i] == '[' && CloseReachable(s, i + 1, j)
  }

  /** The first match of `/\[.*\]/` at or after `i`: the earliest `[` that has
      a `]` after it on its line, with the last such `]`. */
  function FirstBracket(s: string, i: nat): (r: Option<(nat, nat)>)
    requires i <= |s|
    ensures r.Some? ==> i <= r.value.0 && BracketMatch(s, r.value.0, r.value.1)
    ensures r.Some? ==> forall j :: BracketMatch(s, r.value.0, j) ==> j <= r.value.1
    ensures r.Some? ==> forall i', j :: i <= i' < r.value.0 ==> !BracketMatch(s, i', j)
    ensures r.None? ==> forall i', j :: i <= i' ==> !BracketMatch(s, i', j)
    decreases |s| - i
  {
    if i == |s| then None
    else if s[i] == '[' && LastClose(s, i + 1).Some? then Some((i, LastClose(s, i + 1).value))
    else FirstBracket(s, i + 1)
  }

  /** `s.replace(/\[|\]/g, "")`. */
  function StripBrackets(s: string): string {
    if s == [] then [] else (if s[0] == '[' || s[0] == ']' then [] else [s[0]]) + StripBrackets(s[1..])
  }

  /** The search term of a title: its first bracketed match, brackets removed. */
  function SearchTerm(title: string): Option<string> {
    match FirstBracket(title, 0)
    case None => None
    case Some((i, j)) => Some(StripBrackets(title[i..j + 1]))
  }

  function Anchor(task: Task): string {
    "<a href=\"" + task.link + "\">" + task.key + " </a>"
  }

  function Anchors(ts: seq<Task>): string {
    if ts == [] then "" else Anchor(ts[0]) + Anchors(ts[1..])
  }

  lemma {:induction false} AnchorsSnoc(ts: seq<Task>, t: Task)
    ensures Anchors(ts + [t]) == Anchors(ts) + Anchor(t)
    decreases |ts|
  {
    if ts == [] {
      assert ts + [t] == [t];
    } else {
      assert (ts + [t])[0] == ts[0];
      assert (ts + [t])[1..] == ts[1..] + [t];
      AnchorsSnoc(ts[1..], t);
    }
  }

  /** What `getJiraTasksHtml` returns: the anchors of the tasks found for a
      non-empty search term, and nothing otherwise. */
  function TasksHtml(title: string, tasks: string -> seq<Task>): string {
    match SearchTerm(title)
    case None => ""
    case Some(term) => if term != "" then Anchors(tasks(term)) else ""
  }

  /** The tasks a lookup finds when it answers, and none when it throws. */
  function Found(lookup: string -> Result<seq<Task>>): string -> seq<Task> {
    term => if lookup(term).Ok? then lookup(term).value else []
  }

  /** The title has a non-empty search term, and looking it up throws (as
      parsing the empty object returned after a failed request does). */
  predicate LookupThrows(title: string, lookup: string -> Result<seq<Task>>) {
    SearchTerm(title).Some? && SearchTerm(title).value != "" && lookup(SearchTerm(title).value).Err?
  }

  /** `getJiraTasksHtml`: one anchor appended per task returned; an error of
      the lookup is passed on. */
  method GetJiraTasksHtml(title: string, lookup: string -> Result<seq<Task>>) returns (r: Result<string>)
    ensures r.Err? <==> LookupThrows(title, lookup)
    ensures r.Ok? ==> r.value == TasksHtml(title, Found(lookup))
    ensures r.Err? ==> r.message == lookup(SearchTerm(title).value).message
  {
    var scenario := SearchTerm(title);
    var jiraTaskHtml := "";
    if scenario.Some? && scenario.value != "" {
      var found := lookup(scenario.value);
      if found.Err? {
        return Err(found.message);
      }
      var jiraTasks := found.value;
      for k := 0 to |jiraTasks|
        invariant jiraTaskHtml == Anchors(jiraTasks[..k])
      {
        AnchorsSnoc(jiraTasks[..k], jiraTasks[k]);
        assert jiraTasks[..k + 1] == jiraTasks[..k] + [jiraTasks[k]];
        jiraTaskHtml := jiraTaskHtml + Anchor(jiraTasks[k]);
      }
      assert jiraTasks[..|jiraTasks|] == jiraTasks;
      assert Found(lookup)(scenario.value) == jiraTasks;
    }
    return Ok(jiraTaskHtml);
  }

  // ---------------------------------------------------------------------
  // HTML rendering.
  // ---------------------------------------------------------------------

  const HeadingOpen: string := "<br><li><span><strong>"
  const HeadingClose: string := "</strong></span>"
  const ItemOpen: string := "<li>"
  const ItemClose: string := "</li>"
  const PassedItemClose: string := " <span style=\"color: #008000;\"><strong>passed</strong></span></li>"
  const FailedItemClose: string := " <span style=\"color: #ff0000;\"><strong> failed</strong></span></li>"
  const ListOpen: string := "<ul>"
  const ListClose: string := "</ul>"

  /** The list item of one node. A top-level node without `pass` is a suite
      heading; `' ' + jiraTasks || ''` is always `' ' + jiraTasks`. */
  function ItemHtml(node: ReportNode, level: nat, tasks: string -> seq<Task>): string {
    if node.pass.None? then
      if level == 0 then
        HeadingOpen + StripBrackets(node.title) + HeadingClose + " " + TasksHtml(node.title, tasks) + ItemClose
      else
        ItemOpen + node.title + ItemClose
    else if node.pass.value then
      ItemOpen + node.title + PassedItemClose
    else
      ItemOpen + node.title + FailedItemClose
  }

  /** The markup of the nodes at `level`, node after node. */
  function HtmlBody(items: seq<ReportNode>, level: nat, tasks: string -> seq<Task>): string
    decreases items
  {
    if items == [] then "" else NodeHtml(items[0], level, tasks) + HtmlBody(items[1..], level, tasks)
  }

  /** The list item of a node, followed by its own child list when it has an
      `items` field (even an empty one). */
  function NodeHtml(node: ReportNode, level: nat, tasks: string -> seq<Task>): string
    decreases node
  {
    ItemHtml(node, level, tasks)
    + (if node.items.Items? then ListOpen + HtmlBody(node.items.nodes, level + 1, tasks) + ListClose else "")
  }

  /** What `toHtmlRecurs(items, level)` returns. */
  function HtmlList(items: seq<ReportNode>, level: nat, tasks: string -> seq<Task>): string {
    ListOpen + HtmlBody(items, level, tasks) + ListClose
  }

  lemma {:induction false} HtmlBodyAppend(a: seq<ReportNode>, b: seq<ReportNode>, level: nat, tasks: string -> seq<Task>)
    ensures HtmlBody(a + b, level, tasks) == HtmlBody(a, level, tasks) + HtmlBody(b, level, tasks)
    decreases |a|
  {
    if a == [] {
      assert a + b == b;
    } else {
      assert (a + b)[0] == a[0];
      assert (a + b)[1..] == a[1..] + b;
      HtmlBodyAppend(a[1..], b, level, tasks);
    }
  }

  lemma HtmlBodySnoc(items: seq<ReportNode>, i: nat, level: nat, tasks: string -> seq<Task>)
    requires i < |items|
    ensures HtmlBody(items[..i + 1], level, tasks) == HtmlBody(items[..i], level, tasks) + NodeHtml(items[i], level, tasks)
  {
    HtmlBodyAppend(items[..i], [items[i]], level, tasks);
    assert items[..i + 1] == items[..i] + [items[i]];
    assert [items[i]][1..] == [];
  }

  /** Item `k` is a heading (a top-level node without `pass`) whose lookup throws. */
  predicate HeadingThrowsAt(items: seq<ReportNode>, level: nat, k: int, lookup: string -> Result<seq<Task>>)
    requires 0 <= k < |items|
  {
    level == 0 && items[k].pass.None? && LookupThrows(items[k].title, lookup)
  }

  /** Some heading among the first `n` items has a lookup that throws. */
  predicate HeadingThrows(items: seq<ReportNode>, level: nat, n: int, lookup: string -> Result<seq<Task>>)
    requires n <= |items|
  {
    exists k :: 0 <= k < n && HeadingThrowsAt(items, level, k, lookup)
  }

  /** `toHtmlRecurs`: accumulates each item's markup, then its nested list,
      and wraps the whole in `<ul>`. The first heading whose lookup throws
      rejects the whole call with that error. */
  method ToHtmlRecurs(items: seq<ReportNode>, level: nat, lookup: string -> Result<seq<Task>>) returns (r: Result<string>)
    ensures r.Err? <==> HeadingThrows(items, level, |items|, lookup)
    ensures r.Ok? ==> r.value == HtmlList(items, level, Found(lookup))
    ensures r.Err? ==> (exists k :: 0 <= k < |items| && HeadingThrowsAt(items, level, k, lookup)
                                 && !HeadingThrows(items, level, k, lookup)
                                 && r.message == lookup(SearchTerm(items[k].title).value).message)
    decreases Items(items)
  {
    var tasks := Found(lookup);
    var list := "";
    for i := 0 to |items|
      invariant list == HtmlBody(items[..i], level, tasks)
      invariant !HeadingThrows(items, level, i, lookup)
    {
      var item := items[i];
      var piece: string;
      if item.pass.None? {
        if level == 0 {
          var jiraTasks := GetJiraTasksHtml(item.title, lookup);
          if jiraTasks.Err? {
            assert HeadingThrowsAt(items, level, i, lookup);
            return Err(jiraTasks.message);
          }
          piece := HeadingOpen + StripBrackets(item.title) + HeadingClose + " " + jiraTasks.value + ItemClose;
        } else {
          piece := ItemOpen + item.title + ItemClose;
        }
      } else if item.pass.value {
        piece := ItemOpen + item.title + PassedItemClose;
      } else {
        piece := ItemOpen + item.title + FailedItemClose;
      }
      assert piece == ItemHtml(item, level, tasks);
      assert !HeadingThrowsAt(items, level, i, lookup);
      if item.items.Items? {
        var sub := ToHtmlRecurs(item.items.nodes, level + 1, lookup);
        piece := piece + sub.value;
      }
      assert piece == NodeHtml(item, level, tasks);
      HtmlBodySnoc(items, i, level, tasks);
      list := list + piece;
    }
    assert items[..|items|] == items;
    return Ok(ListOpen + list + ListClose);
  }

  /** `toHtml`: the first parsed node's items rendered at level 0. With no
      first node, or one without `items`, the source throws a TypeError; a
      lookup that throws for one of the headings rejects it too. */
  method ToHtml(parsedReport: seq<ReportNode>, lookup: string -> Result<seq<Task>>) returns (r: Result<string>)
    ensures r.Ok? <==> (|parsedReport| > 0 && parsedReport[0].items.Items?
                        && !HeadingThrows(parsedReport[0].items.nodes, 0, |parsedReport[0].items.nodes|, lookup))
    ensures r.Ok? ==> r.value == HtmlList(parsedReport[0].items.nodes, 0, Found(lookup))
  {
    if |parsedReport| == 0 {
      return Err("Cannot read properties of undefined (reading 'items')");
    }
    if parsedReport[0].items.NoItems? {
      return Err("items is not iterable");
    }
    r := ToHtmlRecurs(parsedReport[0].items.nodes, 0, lookup);
  }

  /** Below the top level the issue tracker is never consulted: the markup
      does not depend on what the search returns. */
  lemma {:induction false} HtmlBelowTopIgnoresTasks(items: seq<ReportNode>, level: nat, t1: string -> seq<Task>, t2: string -> seq<Task>)
    requires level >= 1
    ensures HtmlBody(items, level, t1) == HtmlBody(items, level, t2)
    decreases items
  {
    if items != [] {
      if items[0].items.Items? {
        HtmlBelowTopIgnoresTasks(items[0].items.nodes, level + 1, t1, t2);
      }
      HtmlBelowTopIgnoresTasks(items[1..], level, t1, t2);
    }
  }

  lemma {:induction false} StripBracketsNone(s: string)
    requires forall m :: 0 <= m < |s| ==> s[m] != '[' && s[m] != ']'
    ensures StripBrackets(s) == s
    decreases |s|
  {
    if s != [] {
      StripBracketsNone(s[1..]);
    }
  }

  /** A heading whose title has no brackets shows the title as it is, a
      lone space, and no links: the issue tracker is not searched. */
  lemma HeadingWithoutBrackets(node: ReportNode, tasks: string -> seq<Task>)
    requires node.pass.None?
    requires forall m :: 0 <= m < |node.title| ==> node.title[m] != '[' && node.title[m] != ']'
    ensures ItemHtml(node, 0, tasks) == HeadingOpen + node.title + HeadingClose + " " + ItemClose
  {
    StripBracketsNone(node.title);
    assert forall i', j :: 0 <= i' ==> !BracketMatch(node.title, i', j);
    assert SearchTerm(node.title).None?;
  }

  lemma {:induction false} StripBracketsAppend(a: string, b: string)
    ensures StripBrackets(a + b) == StripBrackets(a) + StripBrackets(b)
    decreases |a|
  {
    if a == [] {
      assert a + b == b;
    } else {
      assert (a + b)[0] == a[0];
      assert (a + b)[1..] == a[1..] + b;
      StripBracketsAppend(a[1..], b);
    }
  }

  lemma StripBracketsOne(c: char)
    ensures StripBrackets([c]) == if c == '[' || c == ']' then [] else [c]
  {
    assert [c][1..] == [];
  }

  /** Removing the brackets around a bracket-free text gives the text. */
  lemma StripBracketed(body: string)
    requires forall m :: 0 <= m < |body| ==> body[m] != '[' && body[m] != ']'
    ensures StripBrackets(['['] + (body + [']'])) == body
  {
    StripBracketsOne('[');
    StripBracketsOne(']');
    StripBracketsNone(body);
    StripBracketsAppend(body, [']']);
    StripBracketsAppend(['['], body + [']']);
    assert StripBrackets(body + [']']) == body + [];
    assert StripBrackets(['['] + (body + [']'])) == [] + body;
  }

  /** The search term of a title whose first bracket match spans `s[i..j + 1]`. */
  lemma SearchTermAt(s: string, i: nat, j: nat)
    requires BracketMatch(s, i, j)
    requires forall j' :: BracketMatch(s, i, j') ==> j' <= j
    requires forall i', j' :: 0 <= i' < i ==> !BracketMatch(s, i', j')
    ensures SearchTerm(s) == Some(StripBrackets(s[i..j + 1]))
  {
    var r := FirstBracket(s, 0);
    assert r.Some?;
    assert r.value.0 == i;
    assert r.value.1 == j;
  }

  /** The bracket part of `Login [PROJ-123]` is the search term `PROJ-123`,
      and the heading text loses its brackets. */
  lemma ExampleTitle(s: string)
    requires s == "Login [PROJ-123]"
    ensures SearchTerm(s) == Some("PROJ-123")
    ensures StripBrackets(s) == "Login " + "PROJ-123"
  {
    var login := s[..6];
    var term := s[7..15];
    assert login == "Login ";
    assert term == "PROJ-123";
    assert s == login + ([s[6]] + (term + [s[15]]));
    forall m | 0 <= m < |login| ensures login[m] != '[' && login[m] != ']' {
    }
    forall m | 0 <= m < |term| ensures term[m] != '[' && term[m] != ']' && !IsLineTerminator(term[m]) {
    }
    assert BracketMatch(s, 6, 15) by {
      assert forall m :: 7 <= m < 15 ==> s[m] == term[m - 7];
    }
    assert forall i', j :: 0 <= i' < 6 ==> !BracketMatch(s, i', j) by {
      assert forall m :: 0 <= m < 6 ==> s[m] == login[m];
    }
    SearchTermAt(s, 6, 15);
    assert s[6..16] == [s[6]] + (term + [s[15]]);
    StripBracketed(term);
    StripBracketsNone(login);
    StripBracketsAppend(login, [s[6]] + (term + [s[15]]));
    assert StripBrackets(s) == login + term;
  }

  /** The heading of a top-level suite titled `Login [PROJ-123]` shows
      `Login PROJ-123` in bold and one anchor per task found for `PROJ-123`;
      with no task found nothing follows the space. */
  lemma HeadingExample(s: string, tasks: string -> seq<Task>)
    requires s == "Login [PROJ-123]"
    ensures ItemHtml(ReportNode(s, None, NoItems), 0, tasks)
            == HeadingOpen + ("Login " + "PROJ-123") + HeadingClose + " " + Anchors(tasks("PROJ-123")) + ItemClose
    ensures tasks("PROJ-123") == [] ==>
              ItemHtml(ReportNode(s, None, NoItems), 0, tasks)
              == HeadingOpen + ("Login " + "PROJ-123") + HeadingClose + " " + ItemClose
  {
    ExampleTitle(s);
    assert TasksHtml(s, tasks) == Anchors(tasks("PROJ-123"));
  }

  /** A lookup that throws for the search term of a top-level heading makes
      the whole rendering throw, whatever the other nodes are. */
  lemma FailedLookupRejects(s: string, rest: seq<ReportNode>, lookup: string -> Result<seq<Task>>)
    requires s == "Login [PROJ-123]"
    requires lookup("PROJ-123").Err?
    ensures HeadingThrows([ReportNode(s, None, NoItems)] + rest, 0, |rest| + 1, lookup)
  {
    ExampleTitle(s);
    assert HeadingThrowsAt([ReportNode(s, None, NoItems)] + rest, 0, 0, lookup);
  }
}
