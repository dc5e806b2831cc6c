/**
 * The tool-call trace of a chat: the calls the model asked for, keyed by
 * call id, with the result each tool sent back, listed once per id in the
 * order the ids first appear.
 */
module ToolTrace {
  import opened Wrappers
  import opened JsonValue
  import opened Seqs

  // ---------------------------------------------------------------- messages and calls

  /**
   * A chat message. An AI message carries its `tool_calls` and, for models
   * that put them there instead, the `tool_calls` of its `additional_kwargs`.
   */
  datatype Message =
    | AIMessage(toolCalls: seq<Record>, extraToolCalls: Option<seq<Record>>)
    | ToolMessage(toolCallId: string, content: string)
    | OtherMessage

  /** One entry of the trace: `tool_name`, `args` and `result`. */
  datatype Item = Item(toolName: Json, args: Json, result: Json)

  /** `json.loads(s)` when it parses, otherwise the string itself. */
  function SafeJsonLoads(s: string, loads: string -> Option<Json>): Json {
    match loads(s)
    case Some(j) => j
    case None => JStr(s)
  }

  /** Python's `str(x)`: a string is itself, `None` is `"None"`, anything else is rendered. */
  function Str(j: Json, render: Json -> string): string {
    match j
    case JStr(s) => s
    case JNull => "None"
    case JBool(b) => if b then "True" else "False"
    case _ => render(j)
  }

  /** The calls of a message: `tool_calls`, or when that is empty the extra ones; none for other messages. */
  function CallsOf(m: Message): seq<Record> {
    if !m.AIMessage? then []
    else if m.toolCalls != [] then m.toolCalls
    else match m.extraToolCalls
      case Some(calls) => calls
      case None => []
  }

  /** All calls of all AI messages, in message order. */
  function AllCalls(messages: seq<Message>): seq<Record> {
    if messages == [] then []
    else AllCalls(messages[..|messages| - 1]) + CallsOf(messages[|messages| - 1])
  }

  /** `tc.get("function", {})`, taken as empty when it is not an object. */
  function FunctionOf(tc: Record): Record {
    if "function" in tc && tc["function"].JObj? then tc["function"].fields else map[]
  }

  /** A call's key: `str(tc.get("id") or tc.get("tool_call_id") or tc.get("name"))`. */
  function CallKey(tc: Record, render: Json -> string): string {
    Str(OrElse(OrElse(Get(tc, "id", JNull), Get(tc, "tool_call_id", JNull)), Get(tc, "name", JNull)), render)
  }

  /** `tc.get("name") or tc.get("function", {}).get("name")`. */
  function CallName(tc: Record): Json {
    OrElse(Get(tc, "name", JNull), Get(FunctionOf(tc), "name", JNull))
  }

  /** `tc.get("args") or function.get("arguments") or {}`, parsed when it is a string. */
  function CallArgs(tc: Record, loads: string -> Option<Json>): Json {
    var args := OrElse(OrElse(Get(tc, "args", JNull), Get(FunctionOf(tc), "arguments", JNull)), JObj(map[]));
    if args.JStr? then SafeJsonLoads(args.s, loads) else args
  }

  /** The entry a call writes in phase one: its name and arguments, no result yet. */
  function CallEntry(tc: Record, loads: string -> Option<Json>): Item {
    Item(CallName(tc), CallArgs(tc, loads), JNull)
  }

  /** The keys of the calls, one per call. */
  function Keys(calls: seq<Record>, render: Json -> string): (ks: seq<string>)
    ensures |ks| == |calls|
  {
    seq(|calls|, i requires 0 <= i < |calls| => CallKey(calls[i], render))
  }

  // ---------------------------------------------------------------- the three phases

  /** Phase one: `calls_by_id`, each call writing its entry under its key. */
  function Collect(calls: seq<Record>, loads: string -> Option<Json>, render: Json -> string): map<string, Item> {
    if calls == [] then map[]
    else
      var tc := calls[|calls| - 1];
      Collect(calls[..|calls| - 1], loads, render)[CallKey(tc, render) := CallEntry(tc, loads)]
  }

  /** Whether a message is a tool message answering the call with key `k`. */
  predicate Answers(m: Message, k: string) {
    m.ToolMessage? && m.toolCallId != "" && m.toolCallId == k
  }

  /** Phase two: each tool message with a known, non-empty call id sets that entry's result. */
  function AttachResults(table: map<string, Item>, messages: seq<Message>, loads: string -> Option<Json>): map<string, Item> {
    if messages == [] then table
    else
      var t := AttachResults(table, messages[..|messages| - 1], loads);
      var m := messages[|messages| - 1];
      if m.ToolMessage? && m.toolCallId != "" && m.toolCallId in t then
        t[m.toolCallId := t[m.toolCallId].(result := SafeJsonLoads(m.content, loads))]
      else t
  }

  /** The table after phases one and two. */
  function Table(messages: seq<Message>, loads: string -> Option<Json>, render: Json -> string): map<string, Item> {
    AttachResults(Collect(AllCalls(messages), loads, render), messages, loads)
  }

  /** Phase three on a key sequence: the entry of each key that is in the table. */
  function Items(keys: seq<string>, table: map<string, Item>): seq<Item> {
    if keys == [] then []
    else
      var k := keys[|keys| - 1];
      Items(keys[..|keys| - 1], table) + (if k in table then [table[k]] else [])
  }

  /** The keys of the trace: each call key once, in the order of first appearance. */
  function TraceKeys(messages: seq<Message>, render: Json -> string): seq<string> {
    Dedup(Keys(AllCalls(messages), render))
  }

  /** `extract_tool_trace`. */
  function Trace(messages: seq<Message>, loads: string -> Option<Json>, render: Json -> string): seq<Item> {
    Items(TraceKeys(messages, render), Table(messages, loads, render))
  }

  // ---------------------------------------------------------------- phase one

  /** The table has an entry for exactly the keys of the calls. */
  lemma {:induction false} CollectDomain(calls: seq<Record>, loads: string -> Option<Json>, render: Json -> string, k: string)
    ensures k in Collect(calls, loads, render) <==> k in Keys(calls, render)
  {
    if calls != [] {
      var init := calls[..|calls| - 1];
      CollectDomain(init, loads, render, k);
      assert Keys(calls, render) == Keys(init, render) + [CallKey(calls[|calls| - 1], render)];
    }
  }

  /** A key's entry is written by the last call with that key: its name and arguments win. */
  lemma {:induction false} CollectLastWins(calls: seq<Record>, loads: string -> Option<Json>, render: Json -> string, i: nat)
    requires i < |calls|
    requires forall j | i < j < |calls| :: CallKey(calls[j], render) != CallKey(calls[i], render)
    ensures CallKey(calls[i], render) in Collect(calls, loads, render)
    ensures Collect(calls, loads, render)[CallKey(calls[i], render)] == CallEntry(calls[i], loads)
  {
    if i < |calls| - 1 {
      CollectLastWins(calls[..|calls| - 1], loads, render, i);
    }
  }

  // ---------------------------------------------------------------- phase two

  /** Attaching results keeps the keys, names and arguments; an unmatched tool message changes nothing. */
  lemma {:induction false} AttachKeeps(table: map<string, Item>, messages: seq<Message>, loads: string -> Option<Json>, k: string)
    ensures k in AttachResults(table, messages, loads) <==> k in table
    ensures k in table ==>
      AttachResults(table, messages, loads)[k].toolName == table[k].toolName &&
      AttachResults(table, messages, loads)[k].args == table[k].args
  {
    if messages != [] {
      AttachKeeps(table, messages[..|messages| - 1], loads, k);
    }
  }

  /** The last tool message that answers a key sets its result. */
  lemma {:induction false} AttachLastWins(table: map<string, Item>, messages: seq<Message>, loads: string -> Option<Json>, i: nat)
    requires i < |messages| && messages[i].ToolMessage?
    requires Answers(messages[i], messages[i].toolCallId) && messages[i].toolCallId in table
    requires forall j | i < j < |messages| :: !Answers(messages[j], messages[i].toolCallId)
    ensures var k := messages[i].toolCallId;
      k in AttachResults(table, messages, loads) &&
      AttachResults(table, messages, loads)[k].result == SafeJsonLoads(messages[i].content, loads)
  {
    var k := messages[i].toolCallId;
    var init := messages[..|messages| - 1];
    AttachKeeps(table, init, loads, k);
    if i < |messages| - 1 {
      AttachLastWins(table, init, loads, i);
    }
  }

  /** With no tool message answering a key, its entry is as phase one left it. */
  lemma {:induction false} AttachUnanswered(table: map<string, Item>, messages: seq<Message>, loads: string -> Option<Json>, k: string)
    requires k in table
    requires forall j | 0 <= j < |messages| :: !Answers(messages[j], k)
    ensures k in AttachResults(table, messages, loads) && AttachResults(table, messages, loads)[k] == table[k]
  {
    if messages != [] {
      AttachUnanswered(table, messages[..|messages| - 1], loads, k);
    }
  }

  // ---------------------------------------------------------------- phase three

  /** With every key in the table, phase three looks each one up. */
  lemma {:induction false} ItemsLookUp(keys: seq<string>, table: map<string, Item>)
    requires forall k | k in keys :: k in table
    ensures |Items(keys, table)| == |keys|
    ensures forall i | 0 <= i < |keys| :: Items(keys, table)[i] == table[keys[i]]
  {
    if keys != [] {
      ItemsLookUp(keys[..|keys| - 1], table);
    }
  }

  /** Every trace key has an entry in the final table. */
  lemma TraceKeysInTable(messages: seq<Message>, loads: string -> Option<Json>, render: Json -> string)
    ensures forall k | k in TraceKeys(messages, render) :: k in Table(messages, loads, render)
  {
    var calls := AllCalls(messages);
    forall k | k in TraceKeys(messages, render)
      ensures k in Table(messages, loads, render)
    {
      DedupMember(Keys(calls, render), k);
      CollectDomain(calls, loads, render, k);
      AttachKeeps(Collect(calls, loads, render), messages, loads, k);
    }
  }

  // ---------------------------------------------------------------- the promised properties

  /**
   * The trace keys: no key twice, exactly the keys of the calls, in the order
   * of their first appearance, as many as there are distinct keys.
   */
  lemma TraceKeysSpec(messages: seq<Message>, render: Json -> string)
    ensures var ks := TraceKeys(messages, render); var all := Keys(AllCalls(messages), render);
      && Distinct(ks)
      && (forall k :: k in ks <==> k in all)
      && (forall i, j | 0 <= i < j < |ks| :: FirstIndex(all, ks[i]) < FirstIndex(all, ks[j]))
      && |ks| == |set k | k in all|
  {
    var all := Keys(AllCalls(messages), render);
    DedupSpec(all);
    DedupFirstSeenOrder(all);
    DedupLength(all);
  }

  /** One trace entry per distinct call key, in first-seen order, each the table's entry for its key. */
  lemma TraceShape(messages: seq<Message>, loads: string -> Option<Json>, render: Json -> string)
    ensures var ks := TraceKeys(messages, render); var tr := Trace(messages, loads, render);
      && |tr| == |ks| == |set k | k in Keys(AllCalls(messages), render)|
      && forall i | 0 <= i < |ks| :: ks[i] in Table(messages, loads, render) && tr[i] == Table(messages, loads, render)[ks[i]]
  {
    TraceKeysInTable(messages, loads, render);
    ItemsLookUp(TraceKeys(messages, render), Table(messages, loads, render));
    DedupLength(Keys(AllCalls(messages), render));
  }

  /** An entry's name and arguments are those of the last call with its key. */
  lemma TraceNameAndArgs(messages: seq<Message>, loads: string -> Option<Json>, render: Json -> string, i: nat, c: nat)
    requires i < |TraceKeys(messages, render)| && c < |AllCalls(messages)|
    requires CallKey(AllCalls(messages)[c], render) == TraceKeys(messages, render)[i]
    requires forall j | c < j < |AllCalls(messages)| :: CallKey(AllCalls(messages)[j], render) != TraceKeys(messages, render)[i]
    ensures i < |Trace(messages, loads, render)|
    ensures Trace(messages, loads, render)[i].toolName == CallName(AllCalls(messages)[c])
    ensures Trace(messages, loads, render)[i].args == CallArgs(AllCalls(messages)[c], loads)
  {
    var calls := AllCalls(messages);
    var k := TraceKeys(messages, render)[i];
    TraceShape(messages, loads, render);
    CollectLastWins(calls, loads, render, c);
    AttachKeeps(Collect(calls, loads, render), messages, loads, k);
  }

  /** An entry's result comes from the last tool message answering its key. */
  lemma TraceResultAnswered(messages: seq<Message>, loads: string -> Option<Json>, render: Json -> string, i: nat, t: nat)
    requires i < |TraceKeys(messages, render)| && t < |messages| && messages[t].ToolMessage?
    requires Answers(messages[t], TraceKeys(messages, render)[i])
    requires forall j | t < j < |messages| :: !Answers(messages[j], TraceKeys(messages, render)[i])
    ensures i < |Trace(messages, loads, render)|
    ensures Trace(messages, loads, render)[i].result == SafeJsonLoads(messages[t].content, loads)
  {
    var calls := AllCalls(messages);
    var k := TraceKeys(messages, render)[i];
    TraceShape(messages, loads, render);
    DedupMember(Keys(calls, render), k);
    CollectDomain(calls, loads, render, k);
    AttachLastWins(Collect(calls, loads, render), messages, loads, t);
  }

  /** With no tool message answering its key, an entry's result is `None`. */
  lemma TraceResultUnanswered(messages: seq<Message>, loads: string -> Option<Json>, render: Json -> string, i: nat)
    requires i < |TraceKeys(messages, render)|
    requires forall j | 0 <= j < |messages| :: !Answers(messages[j], TraceKeys(messages, render)[i])
    ensures i < |Trace(messages, loads, render)| && Trace(messages, loads, render)[i].result == JNull
  {
    var calls := AllCalls(messages);
    var k := TraceKeys(messages, render)[i];
    TraceShape(messages, loads, render);
    DedupMember(Keys(calls, render), k);
    CollectDomain(calls, loads, render, k);
    CollectEntryResult(calls, loads, render, k);
    AttachUnanswered(Collect(calls, loads, render), messages, loads, k);
  }

  /** Phase one writes no results. */
  lemma {:induction false} CollectEntryResult(calls: seq<Record>, loads: string -> Option<Json>, render: Json -> string, k: string)
    requires k in Collect(calls, loads, render)
    ensures Collect(calls, loads, render)[k].result == JNull
  {
    if calls != [] {
      var init := calls[..|calls| - 1];
      if k != CallKey(calls[|calls| - 1], render) {
        CollectEntryResult(init, loads, render, k);
      }
    }
  }

  // ---------------------------------------------------------------- the loops

  /** One more message adds its calls. */
  lemma AllCallsSnoc(messages: seq<Message>, n: nat)
    requires n < |messages|
    ensures AllCalls(messages[..n + 1]) == AllCalls(messages[..n]) + CallsOf(messages[n])
  {
    assert messages[..n + 1][..n] == messages[..n];
  }

  /** One more call writes its entry. */
  lemma CollectSnoc(calls: seq<Record>, tc: Record, loads: string -> Option<Json>, render: Json -> string)
    ensures Collect(calls + [tc], loads, render) == Collect(calls, loads, render)[CallKey(tc, render) := CallEntry(tc, loads)]
  {
    assert (calls + [tc])[..|calls|] == calls;
  }

  /** One more call adds its key. */
  lemma KeysSnoc(calls: seq<Record>, tc: Record, render: Json -> string)
    ensures Keys(calls + [tc], render) == Keys(calls, render) + [CallKey(tc, render)]
  {
  }

  /** One more key is looked up. */
  lemma ItemsSnoc(keys: seq<string>, k: string, table: map<string, Item>)
    ensures Items(keys + [k], table) == Items(keys, table) + (if k in table then [table[k]] else [])
  {
    assert (keys + [k])[..|keys|] == keys;
  }

  /** One more call in phase three: its entry is added when its key is new and in the table. */
  lemma EmitStep(pre: seq<Record>, tc: Record, table: map<string, Item>, render: Json -> string)
    ensures var key := CallKey(tc, render);
      && Keys(pre + [tc], render) == Keys(pre, render) + [key]
      && Items(Dedup(Keys(pre + [tc], render)), table) ==
         Items(Dedup(Keys(pre, render)), table) + (if key in table && key !in Keys(pre, render) then [table[key]] else [])
  {
    var key := CallKey(tc, render);
    var ks := Keys(pre, render);
    KeysSnoc(pre, tc, render);
    DedupSnoc(ks, key);
    DedupMember(ks, key);
    ItemsSnoc(Dedup(ks), key, table);
  }

  /** One more message attaches its result. */
  lemma AttachSnoc(table: map<string, Item>, messages: seq<Message>, n: nat, loads: string -> Option<Json>)
    requires n < |messages|
    ensures var t := AttachResults(table, messages[..n], loads); var m := messages[n];
      AttachResults(table, messages[..n + 1], loads) ==
        if m.ToolMessage? && m.toolCallId != "" && m.toolCallId in t then
          t[m.toolCallId := t[m.toolCallId].(result := SafeJsonLoads(m.content, loads))]
        else t
  {
    assert messages[..n + 1][..n] == messages[..n];
  }

  /** Extending a prefix of `toolCalls` by one call. */
  lemma PrefixStep(done: seq<Record>, toolCalls: seq<Record>, j: nat)
    requires j < |toolCalls|
    ensures done + toolCalls[..j + 1] == (done + toolCalls[..j]) + [toolCalls[j]]
  {
  }

  /** Phase one's inner loop over one message's calls. */
  method CollectCallsOf(done: seq<Record>, toolCalls: seq<Record>, loads: string -> Option<Json>, render: Json -> string,
                        table: map<string, Item>)
    returns (callsById: map<string, Item>)
    requires table == Collect(done, loads, render)
    ensures callsById == Collect(done + toolCalls, loads, render)
  {
    callsById := table;
    var j := 0;
    assert done + toolCalls[..0] == done;
    while j < |toolCalls|
      invariant j <= |toolCalls|
      invariant callsById == Collect(done + toolCalls[..j], loads, render)
    {
      var tc := toolCalls[j];
      PrefixStep(done, toolCalls, j);
      CollectSnoc(done + toolCalls[..j], tc, loads, render);
      callsById := callsById[CallKey(tc, render) := CallEntry(tc, loads)];
      j := j + 1;
    }
    assert toolCalls[..j] == toolCalls;
  }

  /** Phase one's loop: `calls_by_id` from the AI messages' calls. */
  method CollectCalls(messages: seq<Message>, loads: string -> Option<Json>, render: Json -> string)
    returns (callsById: map<string, Item>)
    ensures callsById == Collect(AllCalls(messages), loads, render)
  {
    callsById := map[];
    var i := 0;
    assert AllCalls(messages[..0]) == [];
    while i < |messages|
      invariant i <= |messages|
      invariant callsById == Collect(AllCalls(messages[..i]), loads, render)
    {
      AllCallsSnoc(messages, i);
      callsById := CollectCallsOf(AllCalls(messages[..i]), CallsOf(messages[i]), loads, render, callsById);
      i := i + 1;
    }
    assert messages[..i] == messages;
  }

  /** Phase two's loop: each tool message with a known call id sets that entry's result. */
  method AttachToolResults(table: map<string, Item>, messages: seq<Message>, loads: string -> Option<Json>)
    returns (callsById: map<string, Item>)
    ensures callsById == AttachResults(table, messages, loads)
  {
    callsById := table;
    var i := 0;
    while i < |messages|
      invariant i <= |messages|
      invariant callsById == AttachResults(table, messages[..i], loads)
    {
      var m := messages[i];
      AttachSnoc(table, messages, i, loads);
      if m.ToolMessage? && m.toolCallId != "" && m.toolCallId in callsById {
        callsById := callsById[m.toolCallId := callsById[m.toolCallId].(result := SafeJsonLoads(m.content, loads))];
      }
      i := i + 1;
    }
    assert messages[..i] == messages;
  }

  /** Phase three's inner loop over one message's calls, with the `seen` set. */
  method EmitCalls(done: seq<Record>, toolCalls: seq<Record>, callsById: map<string, Item>, render: Json -> string,
                   trace0: seq<Item>, seen0: set<string>)
    returns (trace: seq<Item>, seen: set<string>)
    requires trace0 == Items(Dedup(Keys(done, render)), callsById)
    requires forall k :: k in seen0 <==> k in Keys(done, render) && k in callsById
    ensures trace == Items(Dedup(Keys(done + toolCalls, render)), callsById)
    ensures forall k :: k in seen <==> k in Keys(done + toolCalls, render) && k in callsById
  {
    trace, seen := trace0, seen0;
    var j := 0;
    assert done + toolCalls[..0] == done;
    while j < |toolCalls|
      invariant j <= |toolCalls|
      invariant trace == Items(Dedup(Keys(done + toolCalls[..j], render)), callsById)
      invariant forall k :: k in seen <==> k in Keys(done + toolCalls[..j], render) && k in callsById
    {
      var tc := toolCalls[j];
      var key := CallKey(tc, render);
      ghost var pre := done + toolCalls[..j];
      PrefixStep(done, toolCalls, j);
      EmitStep(pre, tc, callsById, render);
      assert key in seen <==> key in Keys(pre, render) && key in callsById;
      if key in callsById && key !in seen {
        seen := seen + {key};
        trace := trace + [callsById[key]];
      }
      j := j + 1;
    }
    assert toolCalls[..j] == toolCalls;
  }

  /** Phase three's loop: each key's entry once, in the order the keys first appear. */
  method EmitTrace(messages: seq<Message>, callsById: map<string, Item>, render: Json -> string)
    returns (trace: seq<Item>)
    ensures trace == Items(Dedup(Keys(AllCalls(messages), render)), callsById)
  {
    trace := [];
    var seen: set<string> := {};
    var i := 0;
    assert AllCalls(messages[..0]) == [];
    assert Keys([], render) == [];
    while i < |messages|
      invariant i <= |messages|
      invariant trace == Items(Dedup(Keys(AllCalls(messages[..i]), render)), callsById)
      invariant forall k :: k in seen <==> k in Keys(AllCalls(messages[..i]), render) && k in callsById
    {
      AllCallsSnoc(messages, i);
      trace, seen := EmitCalls(AllCalls(messages[..i]), CallsOf(messages[i]), callsById, render, trace, seen);
      i := i + 1;
    }
    assert messages[..i] == messages;
  }

  /**
   * `extract_tool_trace`: fill `calls_by_id` from the AI messages' calls, set
   * results from the tool messages, then list each key's entry once, in the
   * order the keys first appear.
   */
  method ExtractToolTrace(messages: seq<Message>, loads: string -> Option<Json>, render: Json -> string)
    returns (trace: seq<Item>)
    ensures trace == Trace(messages, loads, render)
  {
    var callsById := CollectCalls(messages, loads, render);
    callsById := AttachToolResults(callsById, messages, loads);
    trace := EmitTrace(messages, callsById, render);
  }
}
