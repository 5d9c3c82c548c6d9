/** Rebuilding the tree of program calls of a transaction from its flat log. */
module LogTree {
  import opened Results

  datatype Instruction = Instruction(programId: string, accounts: seq<string>, data: seq<nat>)

  // ------------------------------------------------------------- log lines

  const LOG_TRUNCATED := "Log truncated"

  predicate Contains(log: string, word: string) {
    word <= log || (log != [] && Contains(log[1..], word))
  }

  predicate IsWordChar(c: char) {
    'a' <= c <= 'z' || 'A' <= c <= 'Z' || '0' <= c <= '9' || c == '_'
  }

  /** A match of `\w+ invoke` at the start. */
  predicate WordThenInvoke(s: string) {
    s != [] && IsWordChar(s[0]) && (" invoke" <= s[1..] || WordThenInvoke(s[1..]))
  }

  /** A match of `Program (\w+) invoke` anywhere. */
  predicate HasInvoke(log: string) {
    ("Program " <= log && WordThenInvoke(log[8..])) || (log != [] && HasInvoke(log[1..]))
  }

  datatype Kind = Truncation | Invoke | End | Plain

  function Classify(log: string): Kind {
    if LOG_TRUNCATED <= log then Truncation
    else if HasInvoke(log) then Invoke
    else if Contains(log, "success") || Contains(log, "failed") then End
    else Plain
  }

  // ------------------------------------------------------------ the parser

  datatype Node = Node(message: Instruction, logs: seq<string>, inner: seq<Node>, truncated: bool, isCpi: bool)

  datatype Edit = AddLog(log: string) | MarkTruncated

  function Last(forest: seq<Node>): Node
    requires forest != []
  {
    forest[|forest| - 1]
  }

  function WithLast(forest: seq<Node>, node: Node): seq<Node>
    requires forest != []
  {
    forest[..|forest| - 1] + [node]
  }

  function Edited(node: Node, edit: Edit): Node {
    match edit
    case AddLog(log) => node.(logs := node.logs + [log])
    case MarkTruncated => node.(truncated := true)
  }

  /** Append `node` to the list reached by going into the last node `depth` times. */
  function AppendAt(forest: seq<Node>, depth: int, node: Node): Result<seq<Node>>
    decreases if depth < 0 then 0 else depth
  {
    if depth <= 0 then Ok(forest + [node])
    else if forest == [] then Err(IndexError)
    else
      var inner :- AppendAt(Last(forest).inner, depth - 1, node);
      Ok(WithLast(forest, Last(forest).(inner := inner)))
  }

  /** Edit the last node of the list reached by going into the last node
      `depth - 1` times. */
  function EditLatest(forest: seq<Node>, depth: int, edit: Edit): Result<seq<Node>>
    decreases if depth < 0 then 0 else depth
  {
    if forest == [] then Err(IndexError)
    else if depth <= 1 then Ok(WithLast(forest, Edited(Last(forest), edit)))
    else
      var inner :- EditLatest(Last(forest).inner, depth - 1, edit);
      Ok(WithLast(forest, Last(forest).(inner := inner)))
  }

  datatype Parse = Parse(depth: int, consumed: nat, forest: seq<Node>)

  function ParseLine(p: Parse, instructions: seq<Instruction>, log: string): Result<Parse> {
    match Classify(log)
    case Truncation =>
      var forest :- EditLatest(p.forest, p.depth, MarkTruncated);
      Ok(p.(forest := forest))
    case Invoke =>
      if |instructions| <= p.consumed then Err(IndexError) else
      var forest :- AppendAt(p.forest, p.depth, Node(instructions[p.consumed], [log], [], false, 0 < p.depth));
      Ok(Parse(p.depth + 1, p.consumed + 1, forest))
    case End =>
      var forest :- EditLatest(p.forest, p.depth, AddLog(log));
      Ok(p.(depth := p.depth - 1, forest := forest))
    case Plain =>
      var forest :- EditLatest(p.forest, p.depth, AddLog(log));
      Ok(p.(forest := forest))
  }

  function ParseLog(p: Parse, instructions: seq<Instruction>, logs: seq<string>): Result<Parse>
    decreases |logs|
  {
    if logs == [] then Ok(p) else
    var q :- ParseLine(p, instructions, logs[0]);
    ParseLog(q, instructions, logs[1..])
  }

  const START := Parse(0, 0, [])

  method ReconcileInstructionLogs(instructions: seq<Instruction>, logs: seq<string>) returns (r: Result<seq<Node>>)
    ensures r.Ok? <==> ParseLog(START, instructions, logs).Ok?
    ensures r.Ok? ==> r.value == ParseLog(START, instructions, logs).value.forest
  {
    hide ParseLine;
    var p := START;
    for i := 0 to |logs|
      invariant ParseLog(p, instructions, logs[i..]) == ParseLog(START, instructions, logs)
    {
      assert logs[i..][0] == logs[i] && logs[i..][1..] == logs[i + 1..];
      var next := ParseLine(p, instructions, logs[i]);
      if next.Err? {
        return Err(next.error);
      }
      p := next.value;
    }
    return Ok(p.forest);
  }

  // ---------------------------------------------------------- what was run

  /** A call, the line that announces it, its own lines and inner calls in the
      order they happened, and the line that ends it. */
  datatype Call = Call(message: Instruction, invoke: string, body: seq<Item>, end: string)

  datatype Item = Line(text: string) | Inner(call: Call)

  datatype Entry = Begin(message: Instruction, log: string) | Own(log: string) | Finish(log: string)

  function CallEntries(c: Call): seq<Entry>
    decreases c
  {
    [Begin(c.message, c.invoke)] + (BodyEntries(c.body) + [Finish(c.end)])
  }

  function BodyEntries(items: seq<Item>): seq<Entry>
    decreases items
  {
    if items == [] then [] else ItemEntries(items[0]) + BodyEntries(items[1..])
  }

  function ItemEntries(item: Item): seq<Entry>
    decreases item
  {
    match item
    case Line(text) => [Own(text)]
    case Inner(c) => CallEntries(c)
  }

  /** The log of a transaction, line by line. */
  function Entries(calls: seq<Call>): seq<Entry> {
    if calls == [] then [] else CallEntries(calls[0]) + Entries(calls[1..])
  }

  function Logs(es: seq<Entry>): seq<string> {
    if es == [] then [] else [es[0].log] + Logs(es[1..])
  }

  /** The instructions called, in pre-order. */
  function Messages(es: seq<Entry>): seq<Instruction> {
    if es == [] then [] else (if es[0].Begin? then [es[0].message] else []) + Messages(es[1..])
  }

  /** The tree that the parser is meant to find. */
  function CallNode(c: Call, isCpi: bool): Node
    decreases c
  {
    Node(c.message, [c.invoke] + OwnLines(c.body) + [c.end], InnerNodes(c.body), false, isCpi)
  }

  function OwnLines(items: seq<Item>): seq<string> {
    if items == [] then [] else ItemLines(items[0]) + OwnLines(items[1..])
  }

  function ItemLines(item: Item): seq<string> {
    if item.Line? then [item.text] else []
  }

  function InnerNodes(items: seq<Item>): seq<Node>
    decreases items
  {
    if items == [] then [] else ItemNodes(items[0]) + InnerNodes(items[1..])
  }

  function ItemNodes(item: Item): seq<Node>
    decreases item
  {
    match item
    case Line(_) => []
    case Inner(c) => [CallNode(c, true)]
  }

  function Nodes(calls: seq<Call>): seq<Node> {
    if calls == [] then [] else [CallNode(calls[0], false)] + Nodes(calls[1..])
  }

  // ------------------------------------------ a parser that is told the depth

  datatype Trace = Trace(depth: nat, forest: seq<Node>)

  function TraceEntry(t: Trace, e: Entry): Result<Trace> {
    match e
    case Begin(message, log) =>
      var forest :- AppendAt(t.forest, t.depth, Node(message, [log], [], false, 0 < t.depth));
      Ok(Trace(t.depth + 1, forest))
    case Own(log) =>
      if t.depth == 0 then Err(IndexError) else
      var forest :- EditLatest(t.forest, t.depth, AddLog(log));
      Ok(Trace(t.depth, forest))
    case Finish(log) =>
      if t.depth == 0 then Err(IndexError) else
      var forest :- EditLatest(t.forest, t.depth, AddLog(log));
      Ok(Trace(t.depth - 1, forest))
  }

  function TraceAll(t: Trace, es: seq<Entry>): Result<Trace>
    decreases |es|
  {
    if es == [] then Ok(t) else
    var u :- TraceEntry(t, es[0]);
    TraceAll(u, es[1..])
  }

  lemma {:induction false} TraceConcat(t: Trace, a: seq<Entry>, b: seq<Entry>)
    requires TraceAll(t, a).Ok?
    ensures TraceAll(t, a + b) == TraceAll(TraceAll(t, a).value, b)
    decreases |a|
  {
    hide TraceEntry;
    if a == [] {
      assert a + b == b;
    } else {
      assert (a + b)[1..] == a[1..] + b;
      TraceConcat(TraceEntry(t, a[0]).value, a[1..], b);
    }
  }

  /** The last node can be entered `depth` times. */
  predicate Deep(forest: seq<Node>, depth: nat)
    decreases depth
  {
    depth == 0 || (forest != [] && Deep(Last(forest).inner, depth - 1))
  }

  /** The forest with `node` open at `depth`. */
  function Open(forest: seq<Node>, depth: nat, node: Node): seq<Node>
    requires Deep(forest, depth)
    decreases depth
  {
    if depth == 0 then forest + [node]
    else WithLast(forest, Last(forest).(inner := Open(Last(forest).inner, depth - 1, node)))
  }

  lemma {:induction false} AppendIsOpen(forest: seq<Node>, depth: nat, node: Node)
    requires Deep(forest, depth)
    ensures AppendAt(forest, depth, node) == Ok(Open(forest, depth, node))
    decreases depth
  {
    if depth != 0 {
      AppendIsOpen(Last(forest).inner, depth - 1, node);
    }
  }

  lemma {:induction false} EditOpen(forest: seq<Node>, depth: nat, node: Node, edit: Edit)
    requires Deep(forest, depth)
    ensures EditLatest(Open(forest, depth, node), depth + 1, edit) == Ok(Open(forest, depth, Edited(node, edit)))
    decreases depth
  {
    if depth != 0 {
      EditOpen(Last(forest).inner, depth - 1, node, edit);
    }
  }

  lemma {:induction false} OpenInner(forest: seq<Node>, depth: nat, node: Node, child: Node)
    requires Deep(forest, depth)
    ensures Deep(Open(forest, depth, node), depth + 1)
    ensures Open(Open(forest, depth, node), depth + 1, child)
            == Open(forest, depth, node.(inner := node.inner + [child]))
    decreases depth
  {
    var grown := Open(forest, depth, node);
    if depth == 0 {
      assert Last(grown) == node;
      assert Deep(grown, 1);
    } else {
      OpenInner(Last(forest).inner, depth - 1, node, child);
    }
  }

  function Grown(node: Node, items: seq<Item>): Node {
    node.(logs := node.logs + OwnLines(items), inner := node.inner + InnerNodes(items))
  }

  function WithItem(node: Node, item: Item): Node {
    node.(logs := node.logs + ItemLines(item), inner := node.inner + ItemNodes(item))
  }

  lemma {:induction false} TraceCall(forest: seq<Node>, depth: nat, c: Call)
    requires Deep(forest, depth)
    ensures TraceAll(Trace(depth, forest), CallEntries(c)) == Ok(Trace(depth, Open(forest, depth, CallNode(c, 0 < depth))))
    decreases c
  {
    hide Open, Deep;
    var node := Node(c.message, [c.invoke], [], false, 0 < depth);
    var t := Trace(depth + 1, Open(forest, depth, node));
    AppendIsOpen(forest, depth, node);
    var rest := BodyEntries(c.body) + [Finish(c.end)];
    assert CallEntries(c)[1..] == rest;
    TraceBody(forest, depth, node, c.body);
    TraceConcat(t, BodyEntries(c.body), [Finish(c.end)]);
    var full := Grown(node, c.body);
    EditOpen(forest, depth, full, AddLog(c.end));
    assert Edited(full, AddLog(c.end)) == CallNode(c, 0 < depth);
    var u := Trace(depth + 1, Open(forest, depth, full));
    assert TraceAll(u, [Finish(c.end)]) == TraceEntry(u, Finish(c.end));
  }

  lemma {:induction false} TraceItem(forest: seq<Node>, depth: nat, node: Node, item: Item)
    requires Deep(forest, depth)
    ensures TraceAll(Trace(depth + 1, Open(forest, depth, node)), ItemEntries(item))
            == Ok(Trace(depth + 1, Open(forest, depth, WithItem(node, item))))
    decreases item
  {
    hide Open, Deep;
    var t := Trace(depth + 1, Open(forest, depth, node));
    match item
    case Line(text) =>
      EditOpen(forest, depth, node, AddLog(text));
      assert Edited(node, AddLog(text)) == WithItem(node, item);
      assert TraceAll(t, [Own(text)]) == TraceEntry(t, Own(text));
    case Inner(c) =>
      OpenInner(forest, depth, node, CallNode(c, true));
      TraceCall(t.forest, depth + 1, c);
      assert node.(inner := node.inner + [CallNode(c, true)]) == WithItem(node, item);
  }

  lemma {:induction false} TraceBody(forest: seq<Node>, depth: nat, node: Node, items: seq<Item>)
    requires Deep(forest, depth)
    ensures TraceAll(Trace(depth + 1, Open(forest, depth, node)), BodyEntries(items))
            == Ok(Trace(depth + 1, Open(forest, depth, Grown(node, items))))
    decreases items
  {
    hide Open, Deep, ItemEntries;
    if items == [] {
      assert Grown(node, items) == node;
    } else {
      TraceItem(forest, depth, node, items[0]);
      TraceConcat(Trace(depth + 1, Open(forest, depth, node)), ItemEntries(items[0]), BodyEntries(items[1..]));
      TraceBody(forest, depth, WithItem(node, items[0]), items[1..]);
      GrowItem(node, items);
    }
  }

  lemma GrowItem(node: Node, items: seq<Item>)
    requires items != []
    ensures Grown(WithItem(node, items[0]), items[1..]) == Grown(node, items)
  {
    hide ItemLines, ItemNodes;
    var first, rest := items[0], items[1..];
    assert node.logs + ItemLines(first) + OwnLines(rest) == node.logs + (ItemLines(first) + OwnLines(rest));
    assert node.inner + ItemNodes(first) + InnerNodes(rest) == node.inner + (ItemNodes(first) + InnerNodes(rest));
  }

  lemma {:induction false} TraceCalls(forest: seq<Node>, calls: seq<Call>)
    ensures TraceAll(Trace(0, forest), Entries(calls)) == Ok(Trace(0, forest + Nodes(calls)))
    decreases |calls|
  {
    if calls == [] {
      assert forest + Nodes(calls) == forest;
    } else {
      hide CallEntries, TraceEntry, CallNode, Nodes;
      var next := forest + [CallNode(calls[0], false)];
      TraceCall(forest, 0, calls[0]);
      TraceConcat(Trace(0, forest), CallEntries(calls[0]), Entries(calls[1..]));
      TraceCalls(next, calls[1..]);
      NodesOn(forest, calls);
    }
  }

  lemma NodesOn(forest: seq<Node>, calls: seq<Call>)
    requires calls != []
    ensures forest + [CallNode(calls[0], false)] + Nodes(calls[1..]) == forest + Nodes(calls)
  {
  }

  // ----------------------------------------------- when the parser is right

  /** Announcements and ends read as such; a body line may read as anything. */
  predicate WellFormed(es: seq<Entry>) {
    forall i :: 0 <= i < |es| ==>
      (es[i].Begin? ==> Classify(es[i].log) == Invoke) && (es[i].Finish? ==> Classify(es[i].log) == End)
  }

  /** No body line reads as an announcement or a truncation, and after one that
      reads as an end all lines belong to top-level calls. */
  predicate Unambiguous(es: seq<Entry>, depth: int, misread: bool)
    decreases |es|
  {
    es == [] ||
    match es[0]
    case Begin(_, _) => (misread ==> depth == 0) && Unambiguous(es[1..], depth + 1, misread)
    case Own(log) =>
      && (Classify(log) == Plain || Classify(log) == End) && (misread ==> depth == 1)
      && Unambiguous(es[1..], depth, misread || Classify(log) == End)
    case Finish(_) => (misread ==> depth == 1) && Unambiguous(es[1..], depth - 1, misread)
  }

  /** How many body lines read as ends. */
  function Misread(es: seq<Entry>): nat {
    if es == [] then 0 else (if es[0].Own? && Classify(es[0].log) == End then 1 else 0) + Misread(es[1..])
  }

  lemma {:induction false} Follows(es: seq<Entry>, t: Trace, p: Parse, instructions: seq<Instruction>)
    requires WellFormed(es) && TraceAll(t, es).Ok?
    requires p.forest == t.forest && p.depth <= t.depth && Unambiguous(es, t.depth, p.depth < t.depth)
    requires p.consumed <= |instructions| && Messages(es) <= instructions[p.consumed..]
    ensures ParseLog(p, instructions, Logs(es)).Ok?
    ensures var (p', t') := (ParseLog(p, instructions, Logs(es)).value, TraceAll(t, es).value);
            p'.forest == t'.forest && p'.depth == t'.depth + (p.depth - t.depth) - Misread(es)
    decreases |es|
  {
    hide ParseLine, TraceEntry, Classify;
    if es != [] {
      var e := es[0];
      if e.Begin? {
        assert instructions[p.consumed] == instructions[p.consumed..][0] == Messages(es)[0];
        assert instructions[p.consumed + 1..] == instructions[p.consumed..][1..];
        assert Messages(es)[1..] == Messages(es[1..]);
      }
      FollowsEntry(e, t, p, instructions);
      assert Logs(es)[0] == e.log && Logs(es)[1..] == Logs(es[1..]);
      Follows(es[1..], TraceEntry(t, e).value, ParseLine(p, instructions, e.log).value, instructions);
    }
  }

  lemma FollowsEntry(e: Entry, t: Trace, p: Parse, instructions: seq<Instruction>)
    requires e.Begin? ==> Classify(e.log) == Invoke && p.consumed < |instructions| && instructions[p.consumed] == e.message
    requires e.Finish? ==> Classify(e.log) == End
    requires e.Own? ==> Classify(e.log) == Plain || Classify(e.log) == End
    requires TraceEntry(t, e).Ok? && p.forest == t.forest && p.depth <= t.depth
    requires p.depth < t.depth ==> t.depth == if e.Begin? then 0 else 1
    ensures TraceEntry(t, e).value.depth == DepthAfter(t.depth, e)
    ensures ParseLine(p, instructions, e.log)
            == Ok(Parse(After(p.depth, Classify(e.log)), p.consumed + (if e.Begin? then 1 else 0),
                        TraceEntry(t, e).value.forest))
  {
    hide AppendAt, EditLatest, Classify;
    SamePlace(t.forest, t.depth, p.depth);
  }

  /** At the top level the depth found may be anything below the true one. */
  lemma SamePlace(forest: seq<Node>, depth: nat, found: int)
    requires found <= depth
    ensures found == depth || depth == 0 ==> forall n :: AppendAt(forest, found, n) == AppendAt(forest, depth, n)
    ensures found == depth || depth == 1 ==> forall x :: EditLatest(forest, found, x) == EditLatest(forest, depth, x)
  {
  }

  // ------------------------------------------------ and only then: measures

  datatype Measure = NodeCount | LineCount | LevelSum

  function Worth(m: Measure, level: int, lines: nat): int {
    match m
    case NodeCount => 1
    case LineCount => lines
    case LevelSum => level * lines
  }

  /** What one more line at `level` adds. */
  function LineWorth(m: Measure, level: int): int {
    match m
    case NodeCount => 0
    case LineCount => 1
    case LevelSum => level
  }

  function Tally(m: Measure, forest: seq<Node>, level: int): int
    decreases forest
  {
    if forest == [] then 0 else
    Tally(m, forest[..|forest| - 1], level) + Worth(m, level, |Last(forest).logs|)
    + Tally(m, Last(forest).inner, level + 1)
  }

  lemma TallyWithLast(m: Measure, forest: seq<Node>, node: Node, level: int)
    requires forest != []
    ensures Tally(m, WithLast(forest, node), level)
            == Tally(m, forest[..|forest| - 1], level) + Worth(m, level, |node.logs|) + Tally(m, node.inner, level + 1)
  {
    var changed := WithLast(forest, node);
    assert changed[..|changed| - 1] == forest[..|forest| - 1] && Last(changed) == node;
  }

  lemma {:induction false} TallyAppend(m: Measure, forest: seq<Node>, depth: int, node: Node, level: int)
    requires AppendAt(forest, depth, node).Ok? && node.inner == [] && |node.logs| == 1
    ensures Tally(m, AppendAt(forest, depth, node).value, level)
            == Tally(m, forest, level) + Worth(m, level + (if depth < 0 then 0 else depth), 1)
    decreases if depth < 0 then 0 else depth
  {
    if depth <= 0 {
      TallyWithLast(m, forest + [node], node, level);
      assert (forest + [node])[..|forest|] == forest;
      assert WithLast(forest + [node], node) == forest + [node];
      assert Tally(m, node.inner, level + 1) == 0;
    } else {
      var inner := AppendAt(Last(forest).inner, depth - 1, node).value;
      TallyAppend(m, Last(forest).inner, depth - 1, node, level + 1);
      TallyWithLast(m, forest, Last(forest).(inner := inner), level);
    }
  }

  lemma {:induction false} TallyEdit(m: Measure, forest: seq<Node>, depth: int, edit: Edit, level: int)
    requires EditLatest(forest, depth, edit).Ok?
    ensures Tally(m, EditLatest(forest, depth, edit).value, level) - Tally(m, forest, level)
            == if edit.AddLog? then LineWorth(m, level + (if depth < 1 then 0 else depth - 1)) else 0
    decreases if depth < 0 then 0 else depth
  {
    if depth <= 1 {
      TallyWithLast(m, forest, Edited(Last(forest), edit), level);
      var n := |Last(forest).logs|;
      assert level * (n + 1) == level * n + level;
    } else {
      var inner := EditLatest(Last(forest).inner, depth - 1, edit).value;
      TallyEdit(m, Last(forest).inner, depth - 1, edit, level + 1);
      TallyWithLast(m, forest, Last(forest).(inner := inner), level);
    }
  }

  /** What the parser adds with the line of an entry, over what it should add. */
  function Excess(m: Measure, found: int, depth: nat, e: Entry): int {
    Added(m, found, Classify(e.log)) - Added(m, depth, if e.Begin? then Invoke else Plain)
  }

  function Added(m: Measure, depth: int, kind: Kind): int {
    match kind
    case Truncation => 0
    case Invoke => Worth(m, 1 + (if depth < 0 then 0 else depth), 1)
    case _ => LineWorth(m, 1 + (if depth < 1 then 0 else depth - 1))
  }

  function TotalExcess(m: Measure, es: seq<Entry>, found: int, depth: int): int
    decreases |es|
  {
    if es == [] || depth < 0 then 0 else
    Excess(m, found, depth, es[0])
    + TotalExcess(m, es[1..], After(found, Classify(es[0].log)), DepthAfter(depth, es[0]))
  }

  function After(found: int, kind: Kind): int {
    match kind
    case Invoke => found + 1
    case End => found - 1
    case _ => found
  }

  function DepthAfter(depth: int, e: Entry): int {
    match e
    case Begin(_, _) => depth + 1
    case Finish(_) => depth - 1
    case Own(_) => depth
  }

  lemma LineAdds(m: Measure, p: Parse, instructions: seq<Instruction>, log: string)
    requires ParseLine(p, instructions, log).Ok?
    ensures var q := ParseLine(p, instructions, log).value;
            && q.depth == After(p.depth, Classify(log))
            && Tally(m, q.forest, 1) == Tally(m, p.forest, 1) + Added(m, p.depth, Classify(log))
  {
    hide Tally, Classify;
    match Classify(log)
    case Truncation => TallyEdit(m, p.forest, p.depth, MarkTruncated, 1);
    case Invoke => TallyAppend(m, p.forest, p.depth, Node(instructions[p.consumed], [log], [], false, 0 < p.depth), 1);
    case End => TallyEdit(m, p.forest, p.depth, AddLog(log), 1);
    case Plain => TallyEdit(m, p.forest, p.depth, AddLog(log), 1);
  }

  lemma EntryAdds(m: Measure, t: Trace, e: Entry)
    requires TraceEntry(t, e).Ok?
    ensures var u := TraceEntry(t, e).value;
            && u.depth == DepthAfter(t.depth, e)
            && Tally(m, u.forest, 1) == Tally(m, t.forest, 1) + Added(m, t.depth, if e.Begin? then Invoke else Plain)
  {
    hide Tally;
    match e
    case Begin(message, log) => TallyAppend(m, t.forest, t.depth, Node(message, [log], [], false, 0 < t.depth), 1);
    case Own(log) => TallyEdit(m, t.forest, t.depth, AddLog(log), 1);
    case Finish(log) => TallyEdit(m, t.forest, t.depth, AddLog(log), 1);
  }

  lemma {:induction false} ExcessAdds(m: Measure, es: seq<Entry>, t: Trace, p: Parse, instructions: seq<Instruction>)
    requires TraceAll(t, es).Ok? && ParseLog(p, instructions, Logs(es)).Ok?
    ensures var (p', t') := (ParseLog(p, instructions, Logs(es)).value, TraceAll(t, es).value);
            Tally(m, p'.forest, 1) - Tally(m, t'.forest, 1)
            == Tally(m, p.forest, 1) - Tally(m, t.forest, 1) + TotalExcess(m, es, p.depth, t.depth)
    decreases |es|
  {
    hide Tally, Classify, Added, ParseLine, TraceEntry;
    if es != [] {
      assert Logs(es)[0] == es[0].log && Logs(es)[1..] == Logs(es[1..]);
      LineAdds(m, p, instructions, es[0].log);
      EntryAdds(m, t, es[0]);
      ExcessAdds(m, es[1..], TraceEntry(t, es[0]).value, ParseLine(p, instructions, es[0].log).value, instructions);
    }
  }

  /** The depth never goes below the one told, and body lines are in calls. */
  predicate Nested(es: seq<Entry>, depth: int)
    decreases |es|
  {
    es == [] || ((es[0].Begin? || 1 <= depth) && Nested(es[1..], DepthAfter(depth, es[0])))
  }

  lemma {:induction false} TraceNested(es: seq<Entry>, t: Trace)
    requires TraceAll(t, es).Ok?
    ensures Nested(es, t.depth)
    decreases |es|
  {
    if es != [] {
      TraceNested(es[1..], TraceEntry(t, es[0]).value);
    }
  }

  predicate NoneReads(es: seq<Entry>, kind: Kind) {
    forall i :: 0 <= i < |es| && es[i].Own? ==> Classify(es[i].log) != kind
  }

  /** An extra node for every body line that reads as an announcement. */
  lemma {:induction false} NodeExcess(es: seq<Entry>, found: int, depth: nat)
    requires WellFormed(es) && Nested(es, depth)
    ensures 0 <= TotalExcess(NodeCount, es, found, depth)
    ensures TotalExcess(NodeCount, es, found, depth) == 0 ==> NoneReads(es, Invoke)
    decreases |es|
  {
    hide Classify;
    if es != [] {
      NodeExcess(es[1..], After(found, Classify(es[0].log)), DepthAfter(depth, es[0]));
    }
  }

  /** A missing line for every body line that reads as a truncation. */
  lemma {:induction false} LineExcess(es: seq<Entry>, found: int, depth: nat)
    requires WellFormed(es) && Nested(es, depth)
    ensures TotalExcess(LineCount, es, found, depth) <= 0
    ensures TotalExcess(LineCount, es, found, depth) == 0 ==> NoneReads(es, Truncation)
    decreases |es|
  {
    hide Classify;
    if es != [] {
      LineExcess(es[1..], After(found, Classify(es[0].log)), DepthAfter(depth, es[0]));
    }
  }

  /** A line found too high for every line after a misread one, unless at the top. */
  lemma {:induction false} LevelExcess(es: seq<Entry>, found: int, depth: nat)
    requires WellFormed(es) && Nested(es, depth) && found <= depth
    requires NoneReads(es, Invoke) && NoneReads(es, Truncation)
    ensures TotalExcess(LevelSum, es, found, depth) <= 0
    ensures TotalExcess(LevelSum, es, found, depth) == 0 ==> Unambiguous(es, depth, found < depth)
    decreases |es|
  {
    hide Classify;
    if es != [] {
      LevelExcess(es[1..], After(found, Classify(es[0].log)), DepthAfter(depth, es[0]));
    }
  }

  // ------------------------------------------------------------- main result

  /** For a transaction whose announcements and ends read as such, the log gives
      back the tree of calls exactly when it is unambiguous. */
  lemma LogGivesTree(calls: seq<Call>, instructions: seq<Instruction>)
    requires WellFormed(Entries(calls)) && Messages(Entries(calls)) <= instructions
    ensures var r := ParseLog(START, instructions, Logs(Entries(calls)));
            (r.Ok? && r.value.forest == Nodes(calls)) <==> Unambiguous(Entries(calls), 0, false)
  {
    var es, t := Entries(calls), Trace(0, []);
    TraceCalls([], calls);
    assert [] + Nodes(calls) == Nodes(calls);
    assert instructions[0..] == instructions;
    if Unambiguous(es, 0, false) {
      Follows(es, t, START, instructions);
    }
    var r := ParseLog(START, instructions, Logs(es));
    if r.Ok? && r.value.forest == Nodes(calls) {
      TraceNested(es, t);
      ExcessAdds(NodeCount, es, t, START, instructions);
      NodeExcess(es, 0, 0);
      ExcessAdds(LineCount, es, t, START, instructions);
      LineExcess(es, 0, 0);
      ExcessAdds(LevelSum, es, t, START, instructions);
      LevelExcess(es, 0, 0);
    }
  }

  /** In particular when all body lines are plain, and then the depth found is 0 in
      the end. */
  lemma PlainLogGivesTree(calls: seq<Call>, instructions: seq<Instruction>)
    requires WellFormed(Entries(calls)) && Messages(Entries(calls)) <= instructions
    requires forall i :: 0 <= i < |Entries(calls)| && Entries(calls)[i].Own? ==> Classify(Entries(calls)[i].log) == Plain
    ensures var r := ParseLog(START, instructions, Logs(Entries(calls)));
            r.Ok? && r.value.forest == Nodes(calls) && r.value.depth == 0
  {
    hide Classify;
    var es := Entries(calls);
    PlainIsUnambiguous(es, 0);
    TraceCalls([], calls);
    assert [] + Nodes(calls) == Nodes(calls);
    assert instructions[0..] == instructions;
    Follows(es, Trace(0, []), START, instructions);
  }

  /** A program that logs the word success, or failed, before it calls another is
      enough for the parser to go wrong. */
  lemma MisreadLineLosesTree(outer: Call, text: string, c: Call, instructions: seq<Instruction>)
    requires outer.body == [Line(text), Inner(c)] && Classify(text) == End
    requires WellFormed(Entries([outer])) && Messages(Entries([outer])) <= instructions
    ensures var r := ParseLog(START, instructions, Logs(Entries([outer])));
            !(r.Ok? && r.value.forest == Nodes([outer]))
  {
    hide Classify;
    var first, second := Begin(outer.message, outer.invoke), Begin(c.message, c.invoke);
    assert outer.body[1..] == [Inner(c)] && ItemEntries(Inner(c)) == CallEntries(c);
    assert BodyEntries([Inner(c)]) == CallEntries(c) + BodyEntries([]);
    assert BodyEntries(outer.body) == [Own(text)] + BodyEntries([Inner(c)]);
    var rest := BodyEntries(c.body) + [Finish(c.end)];
    var tail := rest + BodyEntries([]) + [Finish(outer.end)] + Entries([outer][1..]);
    assert Entries([outer]) == [first, Own(text), second] + tail;
    Misleads(first, text, second, tail);
    LogGivesTree([outer], instructions);
  }

  lemma Misleads(first: Entry, text: string, second: Entry, tail: seq<Entry>)
    requires first.Begin? && second.Begin? && Classify(text) == End
    ensures !Unambiguous([first, Own(text), second] + tail, 0, false)
  {
    hide Classify;
    var es := [first, Own(text), second] + tail;
    assert es[1..] == [Own(text), second] + tail && es[1..][1..] == [second] + tail;
    assert !Unambiguous([second] + tail, 1, true);
    assert !Unambiguous([Own(text), second] + tail, 1, false);
  }

  lemma {:induction false} PlainIsUnambiguous(es: seq<Entry>, depth: int)
    requires forall i :: 0 <= i < |es| && es[i].Own? ==> Classify(es[i].log) == Plain
    ensures Unambiguous(es, depth, false) && Misread(es) == 0
    decreases |es|
  {
    hide Classify;
    if es != [] {
      PlainIsUnambiguous(es[1..], DepthAfter(depth, es[0]));
    }
  }

  // ---------------------------------------------- instructions in pre-order

  /** The inner instructions of the top-level instruction `index`. */
  datatype InnerGroup = InnerGroup(index: nat, instructions: seq<Instruction>)

  function GroupAt(groups: seq<InnerGroup>, index: nat): seq<Instruction> {
    if groups == [] then []
    else if groups[0].index == index then groups[0].instructions
    else GroupAt(groups[1..], index)
  }

  /** Every instruction, from number `from` on, followed by its inner ones. */
  function Merge(top: seq<Instruction>, groups: seq<InnerGroup>, from: nat): seq<Instruction> {
    if top == [] then [] else [top[0]] + GroupAt(groups, from) + Merge(top[1..], groups, from + 1)
  }

  /** The position of the first group of instruction `index`. */
  method Search(groups: seq<InnerGroup>, index: nat) returns (r: Option<nat>)
    ensures r == None ==> GroupAt(groups, index) == []
    ensures r.Some? ==> r.value < |groups| && groups[r.value].index == index
                        && GroupAt(groups, index) == groups[r.value].instructions
  {
    for i := 0 to |groups|
      invariant GroupAt(groups, index) == GroupAt(groups[i..], index)
    {
      if groups[i].index == index {
        return Some(i);
      }
      assert groups[i..][1..] == groups[i + 1..];
    }
    return None;
  }

  method MergeInstructionsAndCpis(top: seq<Instruction>, groups: seq<InnerGroup>) returns (r: seq<Instruction>)
    ensures r == Merge(top, groups, 0)
  {
    hide GroupAt;
    r := [];
    for i := 0 to |top|
      invariant r + Merge(top[i..], groups, i) == Merge(top, groups, 0)
    {
      assert top[i..][0] == top[i] && top[i..][1..] == top[i + 1..];
      ghost var before, rest := r, Merge(top[i + 1..], groups, i + 1);
      var j := Search(groups, i);
      r := r + [top[i]];
      if j.Some? {
        r := r + groups[j.value].instructions;
      }
      assert r + rest == before + ([top[i]] + GroupAt(groups, i) + rest);
    }
  }

  function TopMessages(calls: seq<Call>): seq<Instruction> {
    if calls == [] then [] else [calls[0].message] + TopMessages(calls[1..])
  }

  /** A group for every call, from number `from` on, that has inner calls. */
  function Groups(calls: seq<Call>, from: nat): seq<InnerGroup> {
    if calls == [] then [] else
    var inner := Messages(BodyEntries(calls[0].body));
    (if inner == [] then [] else [InnerGroup(from, inner)]) + Groups(calls[1..], from + 1)
  }

  lemma {:induction false} MessagesConcat(a: seq<Entry>, b: seq<Entry>)
    ensures Messages(a + b) == Messages(a) + Messages(b)
  {
    if a == [] {
      assert a + b == b;
    } else {
      assert (a + b)[1..] == a[1..] + b && (a + b)[0] == a[0];
      MessagesConcat(a[1..], b);
      var head := if a[0].Begin? then [a[0].message] else [];
      assert head + (Messages(a[1..]) + Messages(b)) == head + Messages(a[1..]) + Messages(b);
    }
  }

  lemma CallMessages(c: Call)
    ensures Messages(CallEntries(c)) == [c.message] + Messages(BodyEntries(c.body))
  {
    var rest := BodyEntries(c.body) + [Finish(c.end)];
    MessagesConcat([Begin(c.message, c.invoke)], rest);
    MessagesConcat(BodyEntries(c.body), [Finish(c.end)]);
    assert [Finish(c.end)][1..] == [] && [Begin(c.message, c.invoke)][1..] == [];
    assert Messages([Finish(c.end)]) == [] && Messages([Begin(c.message, c.invoke)]) == [c.message];
  }

  lemma {:induction false} GroupsFrom(calls: seq<Call>, from: nat, index: nat)
    requires index < from
    ensures GroupAt(Groups(calls, from), index) == []
    decreases |calls|
  {
    if calls != [] {
      GroupsFrom(calls[1..], from + 1, index);
      var inner := Messages(BodyEntries(calls[0].body));
      if inner == [] {
        assert Groups(calls, from) == Groups(calls[1..], from + 1);
      } else {
        assert Groups(calls, from)[1..] == Groups(calls[1..], from + 1);
      }
    }
  }

  /** A group in front does not matter to later instructions. */
  lemma {:induction false} MergeSkips(top: seq<Instruction>, group: InnerGroup, groups: seq<InnerGroup>, from: nat)
    requires group.index < from
    ensures Merge(top, [group] + groups, from) == Merge(top, groups, from)
    decreases |top|
  {
    if top != [] {
      assert ([group] + groups)[1..] == groups;
      MergeSkips(top[1..], group, groups, from + 1);
    }
  }

  /** Merging puts the instructions in the order in which they are called. */
  lemma {:induction false} MergeIsPreOrder(calls: seq<Call>, from: nat)
    ensures Merge(TopMessages(calls), Groups(calls, from), from) == Messages(Entries(calls))
    decreases |calls|
  {
    if calls != [] {
      var top, inner := TopMessages(calls), Messages(BodyEntries(calls[0].body));
      var rest := Groups(calls[1..], from + 1);
      MergeIsPreOrder(calls[1..], from + 1);
      CallMessages(calls[0]);
      MessagesConcat(CallEntries(calls[0]), Entries(calls[1..]));
      assert top[1..] == TopMessages(calls[1..]);
      if inner == [] {
        assert Groups(calls, from) == rest;
        GroupsFrom(calls[1..], from + 1, from);
      } else {
        MergeSkips(top[1..], InnerGroup(from, inner), rest, from + 1);
      }
    }
  }

  /** From the parts of a transaction record to its tree of calls. */
  lemma RecordGivesTree(calls: seq<Call>)
    requires WellFormed(Entries(calls))
    ensures var r := ParseLog(START, Merge(TopMessages(calls), Groups(calls, 0), 0), Logs(Entries(calls)));
            (r.Ok? && r.value.forest == Nodes(calls)) <==> Unambiguous(Entries(calls), 0, false)
  {
    MergeIsPreOrder(calls, 0);
    LogGivesTree(calls, Messages(Entries(calls)));
  }

  // ---------------------------------------------------- the lines of the runtime

  predicate IsWord(s: string) {
    s != [] && forall i :: 0 <= i < |s| ==> IsWordChar(s[i])
  }

  lemma {:induction false} WordIsFound(pid: string, rest: string)
    requires IsWord(pid)
    ensures WordThenInvoke(pid + " invoke" + rest)
  {
    var s := pid + " invoke" + rest;
    if |pid| == 1 {
      assert s[1..] == " invoke" + rest;
    } else {
      assert s[1..] == pid[1..] + " invoke" + rest;
      WordIsFound(pid[1..], rest);
    }
  }

  /** A word is followed by what follows it. */
  lemma {:induction false} WordIsNotFound(word: string, rest: string)
    requires forall i :: 0 <= i < |word| ==> IsWordChar(word[i])
    requires rest != [] && !IsWordChar(rest[0]) && !(" invoke" <= rest)
    ensures !WordThenInvoke(word + rest)
  {
    var s := word + rest;
    if word != [] {
      assert s[1..] == word[1..] + rest;
      if |word| == 1 {
        assert s[1..] == rest;
      } else {
        assert s[1..][0] == word[1] && " invoke"[0] == ' ';
      }
      WordIsNotFound(word[1..], rest);
    }
  }

  /** The line that announces a call to `pid` reads as one. */
  lemma AnnouncementReads(pid: string, rest: string)
    requires IsWord(pid)
    ensures Classify("Program " + pid + " invoke" + rest) == Invoke
  {
    var log := "Program " + pid + " invoke" + rest;
    assert log[8..] == pid + " invoke" + rest;
    assert log[0] == 'P' && LOG_TRUNCATED[0] == 'L';
    WordIsFound(pid, rest);
  }

  /** After a word, a match can start only in what follows it. */
  lemma {:induction false} TailHasNoInvoke(word: string, rest: string)
    requires forall i :: 0 <= i < |word| ==> IsWordChar(word[i])
    requires rest != [] && rest[0] == ' ' && !HasInvoke(rest) && !WordThenInvoke(rest[1..])
    ensures !HasInvoke(word + rest)
  {
    var s := word + rest;
    if word == [] {
      assert s == rest;
    } else {
      assert s[1..] == word[1..] + rest;
      TailHasNoInvoke(word[1..], rest);
      if "Program " <= s {
        assert s[7] == ' ' && s[|word|] == ' ';
        assert |word| == 7;
        assert s[8..] == rest[1..];
      }
    }
  }

  /** A match starts with the first letter. */
  lemma {:induction false} NoInvokeFrom(s: string, n: nat)
    requires n <= |s| && !HasInvoke(s[n..]) && forall i :: 0 <= i < n ==> s[i] != 'P'
    ensures !HasInvoke(s)
  {
    if n == 0 {
      assert s[0..] == s;
    } else {
      assert s[1..][n - 1..] == s[n..];
      NoInvokeFrom(s[1..], n - 1);
      assert s[0] != "Program "[0];
    }
  }

  lemma {:induction false} InvokeInSuffix(head: string, tail: string)
    requires HasInvoke(tail)
    ensures HasInvoke(head + tail)
  {
    if head == [] {
      assert head + tail == tail;
    } else {
      assert (head + tail)[1..] == head[1..] + tail;
      InvokeInSuffix(head[1..], tail);
    }
  }

  lemma {:induction false} ContainsWord(head: string, word: string, tail: string)
    ensures Contains(head + word + tail, word)
  {
    var s := head + word + tail;
    if head == [] {
      assert s == word + tail;
    } else {
      assert s[1..] == head[1..] + word + tail;
      ContainsWord(head[1..], word, tail);
    }
  }

  /** A line about `pid` announces nothing unless what it says does. */
  lemma LineAnnouncesNothing(pid: string, rest: string)
    requires IsWord(pid) && rest != [] && rest[0] == ' ' && !(" invoke" <= rest)
    requires !HasInvoke(rest) && !WordThenInvoke(rest[1..])
    ensures !HasInvoke("Program " + pid + rest)
  {
    var log := "Program " + pid + rest;
    assert log[8..] == pid + rest && log[1..][7..] == pid + rest;
    WordIsNotFound(pid, rest);
    TailHasNoInvoke(pid, rest);
    NoInvokeFrom(log[1..], 7);
  }

  /** The line that ends a call to `pid` reads as an end. */
  lemma SuccessReads(pid: string)
    requires IsWord(pid)
    ensures Classify("Program " + pid + " success") == End
  {
    var log := "Program " + pid + " success";
    assert log[0] == 'P' && LOG_TRUNCATED[0] == 'L';
    assert !HasInvoke(" success") && !WordThenInvoke(" success"[1..]);
    LineAnnouncesNothing(pid, " success");
    assert log == "Program " + pid + " " + "success" + "";
    ContainsWord("Program " + pid + " ", "success", "");
  }

  /** The line of a call that failed reads as an end, unless the reason given announces
      a call. */
  lemma FailureReads(pid: string, reason: string)
    requires IsWord(pid)
    ensures Classify("Program " + pid + " failed: " + reason) == if HasInvoke(reason) then Invoke else End
  {
    hide HasInvoke, Contains;
    var rest := " failed: " + reason;
    var log := "Program " + pid + " failed: " + reason;
    assert log == "Program " + pid + rest;
    assert log[0] == 'P' && LOG_TRUNCATED[0] == 'L';
    assert log == "Program " + pid + " " + "failed" + (": " + reason);
    ContainsWord("Program " + pid + " ", "failed", ": " + reason);
    if HasInvoke(reason) {
      InvokeInSuffix("Program " + pid + " failed: ", reason);
    } else {
      assert rest[9..] == reason;
      NoInvokeFrom(rest, 9);
      assert rest[1..] == "failed" + (": " + reason);
      WordIsNotFound("failed", ": " + reason);
      assert rest[1] == 'f' && " invoke"[1] == 'i';
      LineAnnouncesNothing(pid, rest);
    }
  }
}
