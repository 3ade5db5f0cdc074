/** The tool registry and `call_tool`: look a tool up by the name in the
    call, invoke it on the call's arguments, and wrap its output in a tool
    message that carries the call's correlation id. */
module Dispatch {
  import opened Wrappers
  import opened Text
  import opened Messages

  datatype ToolName =
    | ListTables
    | GetColumns
    | CountRows
    | DescribeTable
    | SampleTable
    | GetPrimaryKeys
    | GetForeignKeys
    | ExecuteSql

  /** The name under which the model calls the tool (its function name). */
  function NameOf(t: ToolName): string
  {
    match t
    case ListTables => "list_tables"
    case GetColumns => "get_columns"
    case CountRows => "count_rows"
    case DescribeTable => "describe_table"
    case SampleTable => "sample_table"
    case GetPrimaryKeys => "get_primary_keys"
    case GetForeignKeys => "get_foreign_keys"
    case ExecuteSql => "execute_sql"
  }

  /** `get_available_tools()`: every tool once, in a fixed order, under
      pairwise different names. */
  function AvailableTools(): (r: seq<ToolName>)
    ensures |r| == 8
    ensures forall i, j | 0 <= i < j < |r| :: NameOf(r[i]) != NameOf(r[j])
  {
    [ListTables, GetColumns, CountRows, DescribeTable, SampleTable, GetPrimaryKeys, GetForeignKeys, ExecuteSql]
  }

  /** No tool is missing from the registry. */
  lemma EveryToolAvailable(t: ToolName)
    ensures t in AvailableTools()
  {
    var r := AvailableTools();
    match t
    case ListTables => assert r[0] == t;
    case GetColumns => assert r[1] == t;
    case CountRows => assert r[2] == t;
    case DescribeTable => assert r[3] == t;
    case SampleTable => assert r[4] == t;
    case GetPrimaryKeys => assert r[5] == t;
    case GetForeignKeys => assert r[6] == t;
    case ExecuteSql => assert r[7] == t;
  }

  /** `{t.name: t for t in tools}`: later tools override earlier ones of
      the same name. */
  function ByName(tools: seq<ToolName>): map<string, ToolName>
  {
    if tools == [] then map[]
    else ByName(tools[..|tools| - 1])[NameOf(tools[|tools| - 1]) := tools[|tools| - 1]]
  }

  lemma {:induction false} ByNameSpec(tools: seq<ToolName>)
    requires forall i, j | 0 <= i < j < |tools| :: NameOf(tools[i]) != NameOf(tools[j])
    ensures forall name :: name in ByName(tools) <==> exists t | t in tools :: NameOf(t) == name
    ensures forall t | t in tools :: NameOf(t) in ByName(tools) && ByName(tools)[NameOf(t)] == t
    decreases |tools|
  {
    if tools != [] {
      var front := tools[..|tools| - 1];
      var last := tools[|tools| - 1];
      ByNameSpec(front);
      assert tools == front + [last];
      forall t | t in front ensures NameOf(t) != NameOf(last) {
        var i :| 0 <= i < |front| && front[i] == t;
      }
    }
  }

  /** `tools_by_name[name]`, with `None` for the KeyError: the tool found
      carries the name asked for, and nothing is found only when no tool
      has that name. */
  function Lookup(name: string): (r: Option<ToolName>)
    ensures r.Some? ==> NameOf(r.value) == name
    ensures r.None? ==> forall t: ToolName :: NameOf(t) != name
  {
    var table := ByName(AvailableTools());
    ByNameSpec(AvailableTools());
    forall t: ToolName ensures t in AvailableTools() {
      EveryToolAvailable(t);
    }
    if name in table then Some(table[name]) else None
  }

  /** Every tool is found under its own name. */
  lemma LookupName(t: ToolName)
    ensures Lookup(NameOf(t)) == Some(t)
  {
    ByNameSpec(AvailableTools());
    EveryToolAvailable(t);
  }

  /** A name that is no tool's name is not found. */
  lemma LookupUnknown(name: string)
    requires forall t: ToolName :: NameOf(t) != name
    ensures Lookup(name) == None
  {
    ByNameSpec(AvailableTools());
  }

  // ---------------------------------------------------------------------
  // the correlation id

  /** A key whose lower-case form contains "id". */
  predicate IsIdKey(key: string)
  {
    Contains(Lower(key), "id")
  }

  /** The keys of the call dictionary, in order. */
  function Keys(call: ToolCall): seq<string>
  {
    ["name", "args"] + seq(|call.extra|, i requires 0 <= i < |call.extra| => call.extra[i].key)
  }

  /** The position of the first id key among `fields`. */
  function FirstIdField(fields: seq<Field>): (r: Option<nat>)
    ensures r.Some? ==> r.value < |fields| && IsIdKey(fields[r.value].key)
    ensures r.Some? ==> forall j | 0 <= j < r.value :: !IsIdKey(fields[j].key)
    ensures r.None? ==> forall j | 0 <= j < |fields| :: !IsIdKey(fields[j].key)
  {
    if fields == [] then None
    else if IsIdKey(fields[0].key) then Some(0)
    else match FirstIdField(fields[1..])
      case None => None
      case Some(i) => Some(i + 1)
  }

  /** `str(tool_call.get(id_key, ""))` with `id_key` the first id key:
      "" when there is none. */
  function CallId(call: ToolCall): (r: string)
    ensures FirstIdField(call.extra).None? ==> r == ""
  {
    match FirstIdField(call.extra)
    case None => ""
    case Some(i) => ScalarText(call.extra[i].value)
  }

  lemma NoIdWithoutI(s: string)
    requires forall j | 0 <= j < |s| :: s[j] != 'i'
    ensures !Contains(s, "id")
  {
    forall i | 0 <= i <= |s| - 2 ensures !OccursAt(s, i, "id") {
      assert s[i..i + 2][0] == s[i];
    }
  }

  lemma NameAndArgsAreNoIds()
    ensures !IsIdKey("name") && !IsIdKey("args")
  {
    assert Lower("name") == "name" && Lower("args") == "args";
    NoIdWithoutI("name");
    NoIdWithoutI("args");
  }

  /** The id is the value under the first key, in key order, whose lower-case
      form contains "id" ("name" and "args" never do), and "" when no key
      does. */
  lemma CallIdSpec(call: ToolCall, k: int)
    requires 0 <= k < |Keys(call)| && IsIdKey(Keys(call)[k])
    requires forall j | 0 <= j < k :: !IsIdKey(Keys(call)[j])
    ensures k >= 2 && CallId(call) == ScalarText(call.extra[k - 2].value)
  {
    NameAndArgsAreNoIds();
    assert Keys(call)[0] == "name" && Keys(call)[1] == "args";
    var keys := Keys(call);
    assert forall j | 0 <= j < k - 2 :: keys[j + 2] == call.extra[j].key;
  }

  lemma CallIdWithoutIdKey(call: ToolCall)
    requires forall j | 0 <= j < |Keys(call)| :: !IsIdKey(Keys(call)[j])
    ensures CallId(call) == ""
  {
    assert forall j | 0 <= j < |call.extra| :: Keys(call)[j + 2] == call.extra[j].key;
  }

  /** A call as the model emits it, `{"name", "args", "id", "type"}`, is
      answered under its own id; a `None` id becomes the text "None". */
  lemma CallIdOfModelCall(name: string, args: map<string, Scalar>, id: Scalar)
    ensures CallId(ToolCall(name, args, [Field("id", id), Field("type", Str("tool_call"))])) == ScalarText(id)
  {
    assert Lower("id") == "id";
    assert OccursAt(Lower("id"), 0, "id");
  }

  // ---------------------------------------------------------------------
  // call_tool

  datatype CallError =
    | UnknownTool(name: string)  // the KeyError of `tools_by_name[...]`
    | ToolRaised(message: string)  // an exception out of `tool.invoke`

  /** `call_tool(tool_call)`, with `invoke` standing for LangChain's
      `tool.invoke(args)` on the tool it names. */
  function CallTool(call: ToolCall, invoke: (ToolName, map<string, Scalar>) -> Result<string, string>)
    : (r: Result<Message, CallError>)
    ensures r == Failure(UnknownTool(call.name)) <==> Lookup(call.name).None?
    ensures r.Success? ==> r.value.ToolMessage? && r.value.toolCallId == CallId(call)
  {
    match Lookup(call.name)
    case None => Failure(UnknownTool(call.name))
    case Some(t) =>
      match invoke(t, call.args)
      case Failure(e) => Failure(ToolRaised(e))
      case Success(out) => Success(ToolMessage(out, CallId(call)))
  }

  /** A call to a registered tool that returns `out` is answered by one
      tool message holding `out` under the call's id. */
  lemma CallToolAnswers(call: ToolCall, t: ToolName, invoke: (ToolName, map<string, Scalar>) -> Result<string, string>, out: string)
    requires NameOf(t) == call.name && invoke(t, call.args) == Success(out)
    ensures CallTool(call, invoke) == Success(ToolMessage(out, CallId(call)))
  {
    LookupName(t);
  }

  /** A call to a registered tool that raises re-raises the same failure. */
  lemma CallToolPropagates(call: ToolCall, t: ToolName, invoke: (ToolName, map<string, Scalar>) -> Result<string, string>, e: string)
    requires NameOf(t) == call.name && invoke(t, call.args) == Failure(e)
    ensures CallTool(call, invoke) == Failure(ToolRaised(e))
  {
    LookupName(t);
  }

  /** A call to an unregistered name fails without invoking any tool. */
  lemma CallToolUnknown(call: ToolCall, invoke: (ToolName, map<string, Scalar>) -> Result<string, string>)
    requires forall t: ToolName :: NameOf(t) != call.name
    ensures CallTool(call, invoke) == Failure(UnknownTool(call.name))
  {
    LookupUnknown(call.name);
  }
}
