/**
 * The tool framework of tools/index.js: the registry (an insertion-ordered
 * map from tool name to definition and handler) and the executor that runs
 * one tool, a batch of tools, and turns a provider reply into tool calls.
 * A handler is a total function from parameters to a returned value or a
 * thrown message.
 */
module Tools {
  import opened Results
  import opened JsValues
  import opened Errors
  import Adapter

  /** What a handler does with its parameters: returns a value or throws. */
  datatype HandlerOutcome = Returned(value: Value) | Threw(message: string)

  type Handler = Value -> HandlerOutcome

  /** The third argument of `registerTool`: a function or anything else. */
  datatype Callable = NotCallable | Fn(run: Handler)

  /** A registered tool `{name, definition, handler}`. */
  datatype Registration = Registration(name: string, definition: Value, handler: Handler)

  /** One element of the array given to `registerTools`. */
  datatype ToolSpec = ToolSpec(name: Value, definition: Value, handler: Callable)

  /** A parsed tool call `{name, parameters}` as `executeTools` takes it. */
  datatype CallRequest = CallRequest(name: string, parameters: Value)

  /** The contents of the registry's `Map`: the keys in insertion order and the entries. */
  datatype Table = Table(names: seq<string>, entries: map<string, Registration>)

  predicate Distinct<T(==)>(s: seq<T>) {
    forall i, j :: 0 <= i < j < |s| ==> s[i] != s[j]
  }

  /** A `Map`: each key once, the keys are exactly the entries, each entry under its own name. */
  ghost predicate WellFormed(t: Table) {
    Distinct(t.names)
    && (forall n :: n in t.entries <==> n in t.names)
    && (forall n :: n in t.entries ==> t.entries[n].name == n)
  }

  const Empty := Table([], map[])

  /** `Map.prototype.set`: a new key goes last, an existing key keeps its place and gets the new entry. */
  function Put(t: Table, r: Registration): (u: Table)
    ensures u.entries == t.entries[r.name := r]
    ensures r.name in t.entries ==> u.names == t.names
    ensures r.name !in t.entries ==> u.names == t.names + [r.name]
  {
    if r.name in t.entries then Table(t.names, t.entries[r.name := r])
    else Table(t.names + [r.name], t.entries[r.name := r])
  }

  lemma PutWellFormed(t: Table, r: Registration)
    requires WellFormed(t)
    ensures WellFormed(Put(t, r))
  {
  }

  /** The sequence without `x`, order kept. */
  function Without(s: seq<string>, x: string): (r: seq<string>)
    ensures forall y :: y in r <==> y in s && y != x
    ensures x !in s ==> r == s
  {
    if |s| == 0 then []
    else if s[0] == x then Without(s[1..], x)
    else [s[0]] + Without(s[1..], x)
  }

  lemma {:induction false} WithoutDistinct(s: seq<string>, x: string)
    requires Distinct(s)
    ensures Distinct(Without(s, x))
  {
    if |s| > 0 {
      var tail := s[1..];
      assert Distinct(tail) by {
        forall i, j | 0 <= i < j < |tail| ensures tail[i] != tail[j] {
          assert tail[i] == s[i + 1] && tail[j] == s[j + 1];
        }
      }
      WithoutDistinct(tail, x);
      if s[0] != x {
        var r := Without(s, x);
        assert s[0] !in tail by {
          forall k | 0 <= k < |tail| ensures tail[k] != s[0] {
            assert tail[k] == s[k + 1];
          }
        }
        forall i, j | 0 <= i < j < |r| ensures r[i] != r[j] {
          if i == 0 {
            assert r[j] == Without(tail, x)[j - 1];
          } else {
            assert r[i] == Without(tail, x)[i - 1] && r[j] == Without(tail, x)[j - 1];
          }
        }
      }
    }
  }

  /** `Map.prototype.delete`. */
  function Delete(t: Table, name: string): (u: Table)
    ensures u.entries == t.entries - {name}
    ensures u.names == Without(t.names, name)
  {
    Table(Without(t.names, name), t.entries - {name})
  }

  lemma DeleteWellFormed(t: Table, name: string)
    requires WellFormed(t)
    ensures WellFormed(Delete(t, name))
  {
    WithoutDistinct(t.names, name);
  }

  /** A sequence without repetitions has as many elements as its set. */
  lemma {:induction false} DistinctCard(s: seq<string>)
    requires Distinct(s)
    ensures |set x | x in s| == |s|
  {
    if |s| > 0 {
      var rest := s[1..];
      assert Distinct(rest) by {
        forall i, j | 0 <= i < j < |rest| ensures rest[i] != rest[j] {
          assert rest[i] == s[i + 1] && rest[j] == s[j + 1];
        }
      }
      DistinctCard(rest);
      assert (set x | x in s) == (set x | x in rest) + {s[0]};
      assert s[0] !in rest by {
        forall k | 0 <= k < |rest| ensures rest[k] != s[0] {
          assert rest[k] == s[k + 1];
        }
      }
    }
  }

  /** The keys of a well-formed table are as many as its ordered names. */
  lemma SizeIsEntries(t: Table)
    requires WellFormed(t)
    ensures |t.entries| == |t.names|
  {
    DistinctCard(t.names);
    assert t.entries.Keys == set x | x in t.names;
  }

  /**
   * The validation of `registerTool`, first failure first: a non-empty
   * string name, an object definition (an object or array; null is
   * falsy), a function handler.
   */
  function RegistrationError(spec: ToolSpec): (r: Option<string>)
    ensures r.None? <==>
      spec.name.Str? && spec.name.s != "" && (spec.definition.Arr? || spec.definition.Obj?) && spec.handler.Fn?
    ensures !(spec.name.Str? && spec.name.s != "") ==> r == Some("工具名称必须是非空字符串")
    ensures spec.name.Str? && spec.name.s != "" && !(spec.definition.Arr? || spec.definition.Obj?) ==>
      r == Some("工具定义必须是对象")
    ensures spec.name.Str? && spec.name.s != "" && (spec.definition.Arr? || spec.definition.Obj?) && !spec.handler.Fn? ==>
      r == Some("工具处理器必须是函数")
  {
    if !(spec.name.Str? && spec.name.s != "") then Some("工具名称必须是非空字符串")
    else if !(spec.definition.Arr? || spec.definition.Obj?) then Some("工具定义必须是对象")
    else if !spec.handler.Fn? then Some("工具处理器必须是函数")
    else None
  }

  function ToRegistration(spec: ToolSpec): Registration
    requires RegistrationError(spec).None?
  {
    Registration(spec.name.s, spec.definition, spec.handler.run)
  }

  /** The index of the first spec `registerTool` rejects, or the length when there is none. */
  function FirstInvalid(specs: seq<ToolSpec>): (k: nat)
    ensures k <= |specs|
    ensures forall i :: 0 <= i < k ==> RegistrationError(specs[i]).None?
    ensures k < |specs| ==> RegistrationError(specs[k]).Some?
  {
    if |specs| == 0 then 0
    else if RegistrationError(specs[0]).Some? then 0
    else 1 + FirstInvalid(specs[1..])
  }

  /** Registering the specs one after the other. */
  function PutAll(t: Table, specs: seq<ToolSpec>): (u: Table)
    requires forall i :: 0 <= i < |specs| ==> RegistrationError(specs[i]).None?
  {
    if |specs| == 0 then t
    else Put(PutAll(t, specs[..|specs| - 1]), ToRegistration(specs[|specs| - 1]))
  }

  /** After a run of registrations the registered names are the old ones and every name in the run. */
  lemma {:induction false} PutAllKeys(t: Table, specs: seq<ToolSpec>)
    requires forall i :: 0 <= i < |specs| ==> RegistrationError(specs[i]).None?
    ensures forall n :: n in PutAll(t, specs).entries <==>
      n in t.entries || exists i :: 0 <= i < |specs| && specs[i].name == Str(n)
  {
    if |specs| > 0 {
      var init := specs[..|specs| - 1];
      PutAllKeys(t, init);
      forall n | exists i :: 0 <= i < |specs| && specs[i].name == Str(n)
        ensures n in PutAll(t, specs).entries
      {
        var i :| 0 <= i < |specs| && specs[i].name == Str(n);
        if i < |specs| - 1 {
          assert init[i] == specs[i];
        }
      }
      forall n | exists i :: 0 <= i < |init| && init[i].name == Str(n)
        ensures exists i :: 0 <= i < |specs| && specs[i].name == Str(n)
      {
        var i :| 0 <= i < |init| && init[i].name == Str(n);
        assert specs[i] == init[i];
      }
    }
  }

  /** A name registered several times holds the last registration given for it. */
  lemma {:induction false} PutAllLastWins(t: Table, specs: seq<ToolSpec>, i: nat)
    requires forall k :: 0 <= k < |specs| ==> RegistrationError(specs[k]).None?
    requires i < |specs|
    requires forall j :: i < j < |specs| ==> specs[j].name != specs[i].name
    ensures ToRegistration(specs[i]).name in PutAll(t, specs).entries
      && PutAll(t, specs).entries[ToRegistration(specs[i]).name] == ToRegistration(specs[i])
  {
    if i < |specs| - 1 {
      var init := specs[..|specs| - 1];
      assert init[i] == specs[i];
      assert forall j :: i < j < |init| ==> init[j] == specs[j];
      PutAllLastWins(t, init, i);
    }
  }

  /** The registry: a `Map` from tool name to registration. */
  class ToolRegistry {
    var names: seq<string>
    var entries: map<string, Registration>

    ghost function Model(): Table
      reads this
    {
      Table(names, entries)
    }

    ghost predicate Valid()
      reads this
    {
      WellFormed(Model())
    }

    constructor()
      ensures Valid() && Model() == Empty
    {
      names := [];
      entries := map[];
    }

    /** `registerTool`: validates, then sets; a rejected call changes nothing. */
    method RegisterTool(name: Value, definition: Value, handler: Callable) returns (r: Result<(), string>)
      requires Valid()
      modifies this
      ensures Valid()
      ensures var spec := ToolSpec(name, definition, handler);
        match RegistrationError(spec)
        case Some(message) => r == Err(message) && Model() == old(Model())
        case None => r.Ok? && Model() == Put(old(Model()), ToRegistration(spec))
    {
      var spec := ToolSpec(name, definition, handler);
      var problem := RegistrationError(spec);
      if problem.Some? {
        return Err(problem.value);
      }
      var reg := ToRegistration(spec);
      PutWellFormed(Model(), reg);
      if reg.name !in entries {
        names := names + [reg.name];
      }
      entries := entries[reg.name := reg];
      r := Ok(());
    }

    /**
     * `registerTools`: a non-array is rejected; otherwise the specs are
     * registered in order and the first rejected one aborts the rest, the
     * earlier ones staying registered.
     */
    method RegisterTools(tools: Option<seq<ToolSpec>>) returns (r: Result<(), string>)
      requires Valid()
      modifies this
      ensures Valid()
      ensures tools.None? ==> r == Err("tools 必须是数组") && Model() == old(Model())
      ensures tools.Some? ==>
        var k := FirstInvalid(tools.value);
        Model() == PutAll(old(Model()), tools.value[..k])
        && (k < |tools.value| ==> r == Err(RegistrationError(tools.value[k]).value))
        && (k == |tools.value| ==> r.Ok?)
    {
      if tools.None? {
        return Err("tools 必须是数组");
      }
      var specs := tools.value;
      var k := FirstInvalid(specs);
      var i := 0;
      while i < |specs|
        invariant 0 <= i <= k
        invariant Valid()
        invariant Model() == PutAll(old(Model()), specs[..i])
      {
        var spec := specs[i];
        var res := RegisterTool(spec.name, spec.definition, spec.handler);
        if res.Err? {
          return res;
        }
        assert specs[..i + 1][..i] == specs[..i];
        i := i + 1;
      }
      assert specs[..i] == specs;
      r := Ok(());
    }

    /** `getTool`: the registration under the name, or null. */
    function GetTool(name: string): (r: Option<Registration>)
      reads this
      requires Valid()
      ensures r.Some? <==> name in names
      ensures r.Some? ==> r.value.name == name && r.value == entries[name]
    {
      if name in entries then Some(entries[name]) else None
    }

    /** `hasTool`. */
    predicate HasTool(name: string)
      reads this
    {
      name in entries
    }

    /** `getAllToolDefinitions`: the definitions, in registration order. */
    function GetAllToolDefinitions(): (r: seq<Value>)
      reads this
      requires Valid()
      ensures |r| == Size()
      ensures forall i :: 0 <= i < |r| ==> r[i] == entries[names[i]].definition
    {
      seq(|names|, i requires 0 <= i < |names| && names[i] in entries reads this => entries[names[i]].definition)
    }

    /** `getToolNames`: each registered name once, in registration order. */
    function GetToolNames(): (r: seq<string>)
      reads this
      requires Valid()
      ensures Distinct(r) && forall n :: n in r <==> HasTool(n)
      ensures r == names
      ensures |r| == Size() && forall i :: 0 <= i < |r| ==> GetAllToolDefinitions()[i] == entries[r[i]].definition
    {
      names
    }

    /** `size`: the number of registered tools. */
    function Size(): (r: nat)
      reads this
      requires Valid()
      ensures r == |entries|
    {
      SizeIsEntries(Model());
      |names|
    }

    /** `unregisterTool`: deletes the name and says whether it was there. */
    method UnregisterTool(name: string) returns (existed: bool)
      requires Valid()
      modifies this
      ensures Valid()
      ensures existed == (name in old(entries))
      ensures Model() == Delete(old(Model()), name)
    {
      DeleteWellFormed(Model(), name);
      existed := name in entries;
      names := Without(names, name);
      entries := entries - {name};
    }

    /** `clear`. */
    method Clear()
      requires Valid()
      modifies this
      ensures Valid() && Model() == Empty
    {
      names := [];
      entries := map[];
    }
  }

  /** The success envelope `{tool, success: true, result}`. */
  function Success(toolName: string, result: Value): Value {
    Obj([("tool", Str(toolName)), ("success", Bool(true)), ("result", result)])
  }

  /** Reading the envelope back gives the tool's name, `success: true` and the result. */
  lemma SuccessFields(toolName: string, result: Value)
    ensures var env := Success(toolName, result);
      env.Obj? && Get(env, "tool") == Str(toolName) && Get(env, "success") == Bool(true) && Get(env, "result") == result
  {
    var env := Success(toolName, result);
    assert Get(env, "success") == Lookup(env.fields[1..], "success");
    assert Get(env, "result") == Lookup(env.fields[1..], "result") == Lookup(env.fields[2..], "result");
  }

  /**
   * `executeTool(toolName, parameters = {})` against a table: an unknown
   * name is `ToolNotFoundError` and no handler runs; a handler that returns
   * is wrapped in the success envelope; a handler that throws becomes
   * `ToolExecutionError`.  It never answers `success: false`: every
   * failure is one of the two errors.
   */
  function Execute(t: Table, toolName: string, parameters: Value, now: string): (r: Result<Value, AppError>)
    ensures toolName !in t.entries ==> r == Err(ToolNotFoundError(toolName, now))
    ensures toolName in t.entries ==>
      var args := if parameters.Undefined? then Obj([]) else parameters;
      match t.entries[toolName].handler(args)
      case Returned(v) => r == Ok(Success(toolName, v))
      case Threw(m) => r == Err(ToolExecutionError(toolName, m, now))
    ensures r.Err? ==> r.error.code in {TOOL_NOT_FOUND, TOOL_EXECUTION_FAILED}
  {
    if toolName !in t.entries then Err(ToolNotFoundError(toolName, now))
    else
      var args := if parameters.Undefined? then Obj([]) else parameters;
      match t.entries[toolName].handler(args)
      case Returned(v) => Ok(Success(toolName, v))
      case Threw(m) => Err(ToolExecutionError(toolName, m, now))
  }

  /** A successful execution reads back as `{tool: toolName, success: true, result}`. */
  lemma ExecuteEnvelope(t: Table, toolName: string, parameters: Value, now: string)
    requires Execute(t, toolName, parameters, now).Ok?
    ensures var env := Execute(t, toolName, parameters, now).value;
      env.Obj? && Get(env, "success") == Bool(true) && Get(env, "tool") == Str(toolName)
      && Get(env, "result") == t.entries[toolName].handler(if parameters.Undefined? then Obj([]) else parameters).value
  {
    var args := if parameters.Undefined? then Obj([]) else parameters;
    SuccessFields(toolName, t.entries[toolName].handler(args).value);
  }

  /** The entry `executeTools` records for a call reports whether the call succeeded. */
  lemma EntrySuccess(t: Table, toolName: string, parameters: Value, now: string)
    ensures var r := Execute(t, toolName, parameters, now);
      Get(BatchEntry(toolName, r), "success") == Bool(r.Ok?)
  {
    var r := Execute(t, toolName, parameters, now);
    if r.Ok? {
      ExecuteEnvelope(t, toolName, parameters, now);
    }
    BatchEntrySuccess(toolName, r);
  }

  /** What `executeTools` records for one call: the success envelope, or `{tool, success: false, error, code}`. */
  function BatchEntry(toolName: string, r: Result<Value, AppError>): Value {
    match r
    case Ok(v) => v
    case Err(e) => Obj([("tool", Str(toolName)), ("success", Bool(false)), ("error", Str(e.message)), ("code", Str(e.code))])
  }

  /** A batch entry reports success exactly when the call succeeded. */
  lemma BatchEntrySuccess(toolName: string, r: Result<Value, AppError>)
    requires r.Ok? ==> Get(r.value, "success") == Bool(true)
    ensures Get(BatchEntry(toolName, r), "success") == Bool(r.Ok?)
    ensures r.Err? ==> Get(BatchEntry(toolName, r), "code") == Str(r.error.code)
  {
    if r.Err? {
      var fields := BatchEntry(toolName, r).fields;
      assert Lookup(fields, "success") == Lookup(fields[1..], "success") == Bool(false);
      assert Lookup(fields, "code") == Lookup(fields[1..], "code") == Lookup(fields[2..], "code")
          == Lookup(fields[3..], "code") == Str(r.error.code);
    }
  }

  /** The executor, bound to one registry. */
  class ToolExecutor {
    const registry: ToolRegistry

    constructor(registry: ToolRegistry)
      ensures this.registry == registry
    {
      this.registry := registry;
    }

    /** `executeTool`. */
    method ExecuteTool(toolName: string, parameters: Value, now: string) returns (r: Result<Value, AppError>)
      requires registry.Valid()
      ensures r == Execute(registry.Model(), toolName, parameters, now)
    {
      if !registry.HasTool(toolName) {
        return Err(ToolNotFoundError(toolName, now));
      }
      var tool := registry.GetTool(toolName).value;
      var args := if parameters.Undefined? then Obj([]) else parameters;
      match tool.handler(args)
      case Returned(v) => r := Ok(Success(toolName, v));
      case Threw(m) => r := Err(ToolExecutionError(toolName, m, now));
    }

    /**
     * `executeTools`: a non-array or empty input gives `[]`; otherwise one
     * entry per call, in order, every call being run whatever the earlier
     * ones did; an entry's `success` is true exactly when its tool ran and
     * returned.
     */
    method ExecuteTools(toolCalls: Option<seq<CallRequest>>, now: string) returns (results: seq<Value>)
      requires registry.Valid()
      ensures toolCalls.None? ==> results == []
      ensures toolCalls.Some? ==> |results| == |toolCalls.value|
      ensures toolCalls.Some? ==> forall i :: 0 <= i < |results| ==>
        var c := toolCalls.value[i];
        results[i] == BatchEntry(c.name, Execute(registry.Model(), c.name, c.parameters, now))
        && Get(results[i], "success") == Bool(Execute(registry.Model(), c.name, c.parameters, now).Ok?)
    {
      results := [];
      if toolCalls.None? || |toolCalls.value| == 0 {
        return;
      }
      var calls := toolCalls.value;
      var i := 0;
      while i < |calls|
        invariant 0 <= i <= |calls|
        invariant |results| == i
        invariant forall j :: 0 <= j < i ==>
          results[j] == BatchEntry(calls[j].name, Execute(registry.Model(), calls[j].name, calls[j].parameters, now))
      {
        var r := ExecuteTool(calls[i].name, calls[i].parameters, now);
        results := results + [BatchEntry(calls[i].name, r)];
        i := i + 1;
      }
      forall j | 0 <= j < |calls| {
        EntrySuccess(registry.Model(), calls[j].name, calls[j].parameters, now);
      }
    }
  }

  /**
   * `parseToolCalls`: no reply or no tool-call array gives null; otherwise
   * each call's name with its JSON-parsed arguments, in order.  Arguments
   * that are not JSON make the whole parse fail with that text.
   */
  function ParseToolCalls(reply: Option<Adapter.ProviderReply>, parse: string -> Option<Value>)
    : (r: Result<Option<seq<CallRequest>>, string>)
    ensures reply.None? || reply.value.toolCalls.None? ==> r == Ok(None)
    ensures reply.Some? && reply.value.toolCalls.Some? ==>
      var calls := reply.value.toolCalls.value;
      (r.Ok? <==> forall i :: 0 <= i < |calls| ==> parse(calls[i].arguments).Some?)
      && (r.Ok? ==>
            r.value.Some? && |r.value.value| == |calls|
            && forall i :: 0 <= i < |calls| ==>
                 r.value.value[i] == CallRequest(calls[i].name, parse(calls[i].arguments).value))
  {
    if reply.None? || reply.value.toolCalls.None? then Ok(None)
    else
      match ParseCalls(reply.value.toolCalls.value, parse)
      case Ok(requests) => Ok(Some(requests))
      case Err(text) => Err(text)
  }

  /** The `.map` of `parseToolCalls`, failing at the first arguments text that does not parse. */
  function ParseCalls(calls: seq<Adapter.ToolCall>, parse: string -> Option<Value>): (r: Result<seq<CallRequest>, string>)
    ensures r.Ok? <==> forall i :: 0 <= i < |calls| ==> parse(calls[i].arguments).Some?
    ensures r.Ok? ==> |r.value| == |calls| && forall i :: 0 <= i < |calls| ==>
      r.value[i] == CallRequest(calls[i].name, parse(calls[i].arguments).value)
  {
    if |calls| == 0 then Ok([])
    else
      match parse(calls[0].arguments)
      case None => Err(calls[0].arguments)
      case Some(p) =>
        match ParseCalls(calls[1..], parse)
        case Err(text) => Err(text)
        case Ok(rest) =>
          assert forall i :: 1 <= i < |calls| ==> calls[i] == calls[1..][i - 1];
          Ok([CallRequest(calls[0].name, p)] + rest)
  }
}
