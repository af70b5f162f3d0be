/**
 * Parameter completeness checks and intent scoring
 * (tools/utils/param-validator.js): which required parameters a user
 * message already supplies, the guidance text that asks for the rest, and
 * the keyword score that suggests a tool.  The regular expressions of the
 * article-content branch are the oracle `scan`; everything else is spelled
 * out.
 */
module ParamValidator {
  import opened Results
  import opened JsValues
  import opened Text

  /** One entry of `parameters.properties`. */
  datatype ParamDef = ParamDef(description: Option<string>, typ: Value, default: Value)

  /**
   * What the content branch finds in a message: article text to use, a
   * placeholder (so nothing usable yet), or neither (fall through).
   */
  datatype ContentScan = Extracted(text: string) | HasPlaceholder | NoContent

  /** What reading a property of an undefined definition throws. */
  const UNDEFINED_DEFINITION := "TypeError: parameter definition is undefined"
  const NOT_ITERABLE := "TypeError: default is not iterable"

  // ---------------------------------------------------------------- numbers

  /** The end of the run of decimal digits starting at `i`. */
  function DigitRunEnd(s: string, i: nat): (j: nat)
    requires i <= |s|
    ensures i <= j <= |s| && AllDigits(s[i..j]) && (j == |s| || !IsDigit(s[j]))
    decreases |s| - i
  {
    if i < |s| && IsDigit(s[i]) then
      var j := DigitRunEnd(s, i + 1);
      assert s[i..j] == [s[i]] + s[i + 1..j];
      j
    else i
  }

  /** The end of the run of `\s` characters starting at `i`. */
  function SpaceRunEnd(s: string, i: nat): (j: nat)
    requires i <= |s|
    ensures i <= j <= |s| && AllSpace(s[i..j]) && (j == |s| || !IsSpace(s[j]))
    decreases |s| - i
  {
    if i < |s| && IsSpace(s[i]) then
      var j := SpaceRunEnd(s, i + 1);
      assert s[i..j] == [s[i]] + s[i + 1..j];
      j
    else i
  }

  /** A unit word `字`, `字符` or `长度` starts at `k` (`字符` begins with `字`). */
  predicate UnitAt(s: string, k: nat)
    requires k <= |s|
  {
    StartsWith(s[k..], "字") || StartsWith(s[k..], "长度")
  }

  /**
   * `/(\d+)\s*(字|字符|长度)/` matches at `i`: digits from `i`, then spaces,
   * then a unit.  The greedy `\d+` can take the whole run, and giving digits
   * back cannot help since a digit is neither a space nor a unit.
   */
  predicate MentionAt(s: string, i: nat) {
    i < |s| && IsDigit(s[i]) && UnitAt(s, SpaceRunEnd(s, DigitRunEnd(s, i)))
  }

  /** The leftmost match at or after `from`, as a regular expression search finds it. */
  function FirstMention(s: string, from: nat): (r: Option<nat>)
    ensures r.Some? ==> from <= r.value && MentionAt(s, r.value) && forall k :: from <= k < r.value ==> !MentionAt(s, k)
    ensures r.None? ==> forall k :: from <= k ==> !MentionAt(s, k)
    decreases |s| - from
  {
    if from >= |s| then None
    else if MentionAt(s, from) then Some(from)
    else FirstMention(s, from + 1)
  }

  /** The leftmost match starts a digit run, so the captured number is the whole run. */
  lemma FirstMentionStartsRun(s: string)
    ensures var r := FirstMention(s, 0);
      r.Some? ==> r.value == 0 || !IsDigit(s[r.value - 1])
  {
    var r := FirstMention(s, 0);
    if r.Some? && r.value > 0 {
      var i := r.value;
      assert IsDigit(s[i - 1]) ==> DigitRunEnd(s, i - 1) == DigitRunEnd(s, i);
      assert !MentionAt(s, i - 1);
    }
  }

  /** `parseInt(numberMatch[1], 10)` of the first match, if there is one. */
  function MentionedNumber(s: string): (r: Option<nat>)
    ensures r.Some? <==> FirstMention(s, 0).Some?
    ensures r.Some? ==> var i := FirstMention(s, 0).value;
      r.value == DigitsValue(s[i..DigitRunEnd(s, i)])
  {
    match FirstMention(s, 0)
    case None => None
    case Some(i) => Some(DigitsValue(s[i..DigitRunEnd(s, i)]))
  }

  // ----------------------------------------------------------------- arrays

  /** SameValueZero as a `Set` uses it: primitives by value, objects and arrays by identity (distinct here). */
  predicate Same(a: Value, b: Value) {
    a == b && !a.Arr? && !a.Obj?
  }

  /** No two entries a `Set` would treat as one. */
  predicate NoDuplicates(xs: seq<Value>) {
    forall i, j :: 0 <= i < j < |xs| ==> !Same(xs[i], xs[j])
  }

  /** `set.add(v)` on a set listed in insertion order. */
  function Insert(xs: seq<Value>, v: Value): (r: seq<Value>)
    ensures NoDuplicates(xs) ==> NoDuplicates(r)
    ensures |r| >= |xs| && r[..|xs|] == xs
    ensures forall x :: x in r <==> x in xs || x == v
  {
    if exists i :: 0 <= i < |xs| && Same(xs[i], v) then xs else xs + [v]
  }

  /** Adding several values in order. */
  function InsertAll(xs: seq<Value>, vs: seq<Value>): (r: seq<Value>)
    ensures NoDuplicates(xs) ==> NoDuplicates(r)
    ensures |r| >= |xs| && r[..|xs|] == xs
    ensures forall x :: x in r <==> x in xs || x in vs
  {
    if |vs| == 0 then xs
    else
      var before := InsertAll(xs, vs[..|vs| - 1]);
      var r := Insert(before, vs[|vs| - 1]);
      assert r[..|xs|] == before[..|before|][..|xs|] by {
        assert r[..|before|] == before;
      }
      assert forall x :: x in vs <==> x in vs[..|vs| - 1] || x == vs[|vs| - 1] by {
        assert vs == vs[..|vs| - 1] + [vs[|vs| - 1]];
      }
      r
  }

  /** The information-type keywords and the type each one stands for, in the table's order. */
  const TYPE_KEYWORDS: seq<(string, string)> := [
    ("人名", "人名"), ("姓名", "人名"), ("地名", "地名"), ("城市", "地名"), ("地点", "地名"),
    ("日期", "日期"), ("时间", "日期"), ("数字", "数字"), ("数据", "数字"), ("组织", "组织"), ("公司", "组织")
  ]

  /** The types named by the keywords a message contains, in table order. */
  function MentionedTypes(message: string, table: seq<(string, string)>): (r: seq<Value>)
    ensures forall x :: x in r <==> exists k :: 0 <= k < |table| && Contains(message, table[k].0) && x == Str(table[k].1)
  {
    if |table| == 0 then []
    else
      var earlier := MentionedTypes(message, table[..|table| - 1]);
      var last := table[|table| - 1];
      var r := earlier + (if Contains(message, last.0) then [Str(last.1)] else []);
      assert forall k :: 0 <= k < |table| - 1 ==> table[..|table| - 1][k] == table[k];
      r
  }

  /** A string iterated character by character. */
  function Chars(s: string): (r: seq<Value>)
    ensures |r| == |s| && forall i :: 0 <= i < |s| ==> r[i] == Str([s[i]])
  {
    if |s| == 0 then [] else [Str([s[0]])] + Chars(s[1..])
  }

  /** The elements of `new Set(paramDef.default || [])`, or the error a non-iterable default throws. */
  function DefaultItems(default: Value): (r: Result<seq<Value>, string>)
    ensures !Truthy(default) ==> r == Ok([])
    ensures default.Arr? ==> r == Ok(InsertAll([], default.items))
    ensures r.Ok? ==> NoDuplicates(r.value)
    ensures r.Err? <==> Truthy(default) && !default.Arr? && !default.Str?
  {
    if !Truthy(default) then Ok([])
    else match default
      case Arr(items) => Ok(InsertAll([], items))
      case Str(s) => Ok(InsertAll([], Chars(s)))
      case _ => Err(NOT_ITERABLE)
  }

  /** The array branch: the default's elements first, then each mentioned type not already present. */
  function CollectedTypes(defaults: seq<Value>, message: string): (r: seq<Value>)
  {
    InsertAll(defaults, MentionedTypes(message, TYPE_KEYWORDS))
  }

  /**
   * The array branch keeps the defaults first, adds exactly the types the
   * message mentions, and never holds the same value twice.
   */
  lemma CollectedTypesSpec(defaults: seq<Value>, message: string)
    requires NoDuplicates(defaults)
    ensures var r := CollectedTypes(defaults, message);
      |r| >= |defaults| && r[..|defaults|] == defaults
      && NoDuplicates(r)
      && forall t :: Str(t) in r <==>
           Str(t) in defaults || exists k :: 0 <= k < |TYPE_KEYWORDS| && Contains(message, TYPE_KEYWORDS[k].0) && t == TYPE_KEYWORDS[k].1
  {
  }

  /** One more keyword entry adds its type when the message contains the keyword. */
  lemma CollectStep(defaults: seq<Value>, message: string, table: seq<(string, string)>, k: nat)
    requires k < |table|
    ensures InsertAll(defaults, MentionedTypes(message, table[..k + 1]))
         == if Contains(message, table[k].0) then Insert(InsertAll(defaults, MentionedTypes(message, table[..k])), Str(table[k].1))
            else InsertAll(defaults, MentionedTypes(message, table[..k]))
  {
    assert table[..k + 1][..k] == table[..k];
    var earlier := MentionedTypes(message, table[..k]);
    if Contains(message, table[k].0) {
      assert MentionedTypes(message, table[..k + 1]) == earlier + [Str(table[k].1)];
      assert (earlier + [Str(table[k].1)])[..|earlier|] == earlier;
    } else {
      assert MentionedTypes(message, table[..k + 1]) == earlier;
    }
  }

  /** The `for … of Object.entries(typeKeywords)` loop adding to `foundTypes`. */
  method CollectTypes(defaults: seq<Value>, message: string) returns (found: seq<Value>)
    ensures found == CollectedTypes(defaults, message)
  {
    found := defaults;
    var k := 0;
    while k < |TYPE_KEYWORDS|
      invariant 0 <= k <= |TYPE_KEYWORDS|
      invariant found == InsertAll(defaults, MentionedTypes(message, TYPE_KEYWORDS[..k]))
    {
      var entry := TYPE_KEYWORDS[k];
      CollectStep(defaults, message, TYPE_KEYWORDS, k);
      if Contains(message, entry.0) {
        found := Insert(found, Str(entry.1));
      }
      k := k + 1;
    }
    assert TYPE_KEYWORDS[..k] == TYPE_KEYWORDS;
  }

  // ------------------------------------------------------------- extraction

  /** `paramNameLower === 'content' || paramDef.description?.includes('文章')`, or the throw of reading an undefined definition. */
  function IsContentParam(paramName: string, def: Option<ParamDef>): (r: Result<bool, string>)
    ensures Lower(paramName) == "content" ==> r == Ok(true)
    ensures Lower(paramName) != "content" && def.None? ==> r.Err?
  {
    if Lower(paramName) == "content" then Ok(true)
    else if def.None? then Err(UNDEFINED_DEFINITION)
    else Ok(def.value.description.Some? && Contains(def.value.description.value, "文章"))
  }

  /** `paramDef.type === 'number' || paramDef.type === 'integer'`. */
  predicate IsNumberType(def: ParamDef) {
    def.typ == Str("number") || def.typ == Str("integer")
  }

  /**
   * `extractParamValue(message, paramName, paramDef)`: null for an empty
   * message; the content branch's verdict for article-like parameters;
   * then the number and array branches; null for anything else.
   */
  function ExtractedValue(message: string, paramName: string, def: Option<ParamDef>,
                          scan: string -> ContentScan): (r: Result<Value, string>)
  {
    if message == "" then Ok(Null)
    else
      match IsContentParam(paramName, def)
      case Err(e) => Err(e)
      case Ok(isContent) =>
        var verdict := if isContent then scan(message) else NoContent;
        if verdict.Extracted? then Ok(Str(verdict.text))
        else if verdict.HasPlaceholder? then Ok(Null)
        else if def.None? then Err(UNDEFINED_DEFINITION)
        else if IsNumberType(def.value) then
          match MentionedNumber(message)
          case Some(n) => Ok(Num(n))
          case None => Ok(Or(def.value.default, Null))
        else if def.value.typ == Str("array") then
          match DefaultItems(def.value.default)
          case Err(e) => Err(e)
          case Ok(defaults) => Ok(Arr(CollectedTypes(defaults, message)))
        else Ok(Null)
  }

  /** An empty message supplies nothing. */
  lemma EmptyMessageSuppliesNothing(paramName: string, def: Option<ParamDef>, scan: string -> ContentScan)
    ensures ExtractedValue("", paramName, def, scan) == Ok(Null)
  {
  }

  /**
   * A parameter that is neither article content nor a number nor an array,
   * a plain string parameter say, is never extracted.
   */
  lemma PlainParamNeverExtracted(message: string, paramName: string, def: ParamDef, scan: string -> ContentScan)
    requires Lower(paramName) != "content" && !(def.description.Some? && Contains(def.description.value, "文章"))
    requires !IsNumberType(def) && def.typ != Str("array")
    ensures ExtractedValue(message, paramName, Some(def), scan) == Ok(Null)
  {
  }

  /** A numeric parameter takes the number of the first `<digits>字` mention, else its default, else null. */
  lemma NumberParamValue(message: string, paramName: string, def: ParamDef, scan: string -> ContentScan)
    requires message != "" && Lower(paramName) != "content" && !(def.description.Some? && Contains(def.description.value, "文章"))
    requires IsNumberType(def)
    ensures var r := ExtractedValue(message, paramName, Some(def), scan);
      match FirstMention(message, 0)
      case Some(i) => r == Ok(Num(DigitsValue(message[i..DigitRunEnd(message, i)])))
      case None => r == Ok(if Truthy(def.default) then def.default else Null)
  {
  }

  /** An array parameter of a non-empty message is always an array, so always found. */
  lemma ArrayParamAlwaysFound(message: string, paramName: string, def: ParamDef, scan: string -> ContentScan)
    requires message != "" && Lower(paramName) != "content" && !(def.description.Some? && Contains(def.description.value, "文章"))
    requires def.typ == Str("array") && (def.default.Arr? || !Truthy(def.default))
    ensures var r := ExtractedValue(message, paramName, Some(def), scan);
      r.Ok? && r.value.Arr? && Truthy(r.value)
  {
  }

  /** `extractParamValue`, returning from each branch as the source does. */
  method ExtractParamValue(message: string, paramName: string, def: Option<ParamDef>, scan: string -> ContentScan)
    returns (r: Result<Value, string>)
    ensures r == ExtractedValue(message, paramName, def, scan)
  {
    if message == "" {
      return Ok(Null);
    }
    var isContent :- IsContentParam(paramName, def);
    if isContent {
      var verdict := scan(message);
      if verdict.Extracted? {
        return Ok(Str(verdict.text));
      } else if verdict.HasPlaceholder? {
        return Ok(Null);
      }
    }
    if def.None? {
      return Err(UNDEFINED_DEFINITION);
    }
    var d := def.value;
    if IsNumberType(d) {
      var n := MentionedNumber(message);
      if n.Some? {
        return Ok(Num(n.value));
      }
      return Ok(Or(d.default, Null));
    }
    if d.typ == Str("array") {
      var defaults :- DefaultItems(d.default);
      var found := CollectTypes(defaults, message);
      return Ok(Arr(found));
    }
    return Ok(Null);
  }

  // ------------------------------------------------------------- validation

  /** The parts of a tool definition `validateParams` reads: `function.name`, `parameters.required`, `parameters.properties`. */
  datatype ToolDefinition = ToolDefinition(name: string, required: seq<string>, properties: map<string, ParamDef>)

  /** An entry of `missingParams`: `{name, description, type}`. */
  datatype MissingParam = MissingParam(name: string, description: string, typ: Value)

  /** The result of `validateParams`. */
  datatype Validation = Validation(isComplete: bool, missingParams: seq<MissingParam>,
                                   foundParams: seq<(string, Value)>, prompt: Option<string>)

  function Definition(def: ToolDefinition, paramName: string): Option<ParamDef> {
    if paramName in def.properties then Some(def.properties[paramName]) else None
  }

  /** `{name, description: paramDef.description || '', type: paramDef.type || 'string'}`. */
  function MissingEntry(paramName: string, d: ParamDef): MissingParam {
    MissingParam(paramName, if d.description.Some? then d.description.value else "", Or(d.typ, Str("string")))
  }

  /** The member names of an object, in order. */
  function FieldNames(fields: seq<(string, Value)>): (r: seq<string>)
    ensures |r| == |fields| && forall i :: 0 <= i < |fields| ==> r[i] == fields[i].0
  {
    if |fields| == 0 then [] else FieldNames(fields[..|fields| - 1]) + [fields[|fields| - 1].0]
  }

  /** The position of the first member named `key`. */
  function FirstIndex(fields: seq<(string, Value)>, key: string): (i: nat)
    requires key in FieldNames(fields)
    ensures i < |fields| && fields[i].0 == key && forall j :: 0 <= j < i ==> fields[j].0 != key
  {
    if fields[0].0 == key then 0
    else
      assert FieldNames(fields) == [fields[0].0] + FieldNames(fields[1..]);
      1 + FirstIndex(fields[1..], key)
  }

  /** `obj[key] = value`: an existing member keeps its place, a new one goes last. */
  function SetField(fields: seq<(string, Value)>, key: string, value: Value): (r: seq<(string, Value)>)
    ensures FieldNames(r) == if key in FieldNames(fields) then FieldNames(fields) else FieldNames(fields) + [key]
    ensures Lookup(r, key) == value
  {
    if key in FieldNames(fields) then
      var i := FirstIndex(fields, key);
      var r := fields[i := (key, value)];
      assert FieldNames(r) == FieldNames(fields);
      r
    else
      var r := fields + [(key, value)];
      assert FieldNames(r) == FieldNames(fields) + [key];
      r
  }

  /** The members of a non-empty sequence: those before the last, and the last. */
  lemma SnocMembers(names: seq<string>)
    requires |names| > 0
    ensures forall n :: n in names <==> n in names[..|names| - 1] || n == names[|names| - 1]
  {
    assert names == names[..|names| - 1] + [names[|names| - 1]];
  }

  /** Setting one member leaves the others' values alone. */
  lemma SetFieldKeeps(fields: seq<(string, Value)>, key: string, value: Value, other: string)
    requires other != key
    ensures Lookup(SetField(fields, key, value), other) == Lookup(fields, other)
  {
    var r := SetField(fields, key, value);
    if other in FieldNames(fields) {
      var j := FirstIndex(fields, other);
      assert r[j] == fields[j];
      assert forall k :: 0 <= k < j ==> r[k].0 == fields[k].0;
    } else {
      assert other !in FieldNames(r);
    }
  }

  /** How each required name is read from the message: its extracted value, or what the extraction throws. */
  type Extractor = string -> Result<Value, string>

  /** `extractParamValue(userMessage, paramName, properties[paramName])` as a function of the name. */
  function ExtractorOf(message: string, def: ToolDefinition, scan: string -> ContentScan): (extract: Extractor)
    ensures forall n :: extract(n) == ExtractedValue(message, n, Definition(def, n), scan)
  {
    n => ExtractedValue(message, n, Definition(def, n), scan)
  }

  /** Whether the message supplies a parameter: its extracted value is truthy. */
  predicate Supplied(extract: Extractor, paramName: string) {
    extract(paramName).Ok? && Truthy(extract(paramName).value)
  }

  /** The required parameters the message does not supply, in order. */
  function Unsupplied(extract: Extractor, names: seq<string>): (r: seq<string>)
    ensures forall n :: n in r <==> n in names && !Supplied(extract, n)
  {
    if |names| == 0 then []
    else
      var init := names[..|names| - 1];
      var last := names[|names| - 1];
      assert names == init + [last];
      Unsupplied(extract, init) + (if Supplied(extract, last) then [] else [last])
  }

  /**
   * The `requiredParams.forEach` pass over some required names: the
   * missing entries and the found values, or what a missing definition throws.
   */
  function Classify(def: ToolDefinition, names: seq<string>, extract: Extractor)
    : (r: Result<(seq<MissingParam>, seq<(string, Value)>), string>)
  {
    if |names| == 0 then Ok(([], []))
    else
      match Classify(def, names[..|names| - 1], extract)
      case Err(e) => Err(e)
      case Ok(sofar) =>
        var name := names[|names| - 1];
        var d := Definition(def, name);
        match extract(name)
        case Err(e) => Err(e)
        case Ok(v) =>
          if Truthy(v) then Ok((sofar.0, SetField(sofar.1, name, v)))
          else if d.None? then Err(UNDEFINED_DEFINITION)
          else Ok((sofar.0 + [MissingEntry(name, d.value)], sofar.1))
  }

  /** One more required name: `Classify` of a longer prefix from the shorter one. */
  lemma ClassifySnoc(def: ToolDefinition, names: seq<string>, i: nat, extract: Extractor)
    requires i < |names| && Classify(def, names[..i], extract).Ok?
    ensures var sofar := Classify(def, names[..i], extract).value;
      var name := names[i];
      var d := Definition(def, name);
      Classify(def, names[..i + 1], extract) ==
        match extract(name)
        case Err(e) => Err(e)
        case Ok(v) =>
          if Truthy(v) then Ok((sofar.0, SetField(sofar.1, name, v)))
          else if d.None? then Err(UNDEFINED_DEFINITION)
          else Ok((sofar.0 + [MissingEntry(name, d.value)], sofar.1))
  {
    assert names[..i + 1][..i] == names[..i];
  }

  function MissingNames(missing: seq<MissingParam>): (r: seq<string>)
    ensures |r| == |missing| && forall i :: 0 <= i < |missing| ==> r[i] == missing[i].name
  {
    if |missing| == 0 then [] else MissingNames(missing[..|missing| - 1]) + [missing[|missing| - 1].name]
  }

  /** The missing names are the unsupplied required names, in their order. */
  lemma {:induction false} ClassifyMissing(def: ToolDefinition, names: seq<string>, extract: Extractor)
    requires Classify(def, names, extract).Ok?
    ensures MissingNames(Classify(def, names, extract).value.0) == Unsupplied(extract, names)
  {
    if |names| > 0 {
      var init := names[..|names| - 1];
      var name := names[|names| - 1];
      ClassifyMissing(def, init, extract);
      var missing := Classify(def, init, extract).value.0;
      if !Supplied(extract, name) {
        assert MissingNames(missing + [MissingEntry(name, Definition(def, name).value)]) == MissingNames(missing) + [name];
      }
    }
  }

  /** The found members are exactly the supplied required names, each holding its extracted value. */
  lemma {:induction false} ClassifyFound(def: ToolDefinition, names: seq<string>, extract: Extractor)
    requires Classify(def, names, extract).Ok?
    ensures var found := Classify(def, names, extract).value.1;
      (forall n :: n in FieldNames(found) <==> n in names && Supplied(extract, n))
      && (forall n :: n in FieldNames(found) ==> Lookup(found, n) == extract(n).value)
  {
    if |names| > 0 {
      var init := names[..|names| - 1];
      var name := names[|names| - 1];
      ClassifyFound(def, init, extract);
      SnocMembers(names);
      var found := Classify(def, init, extract).value.1;
      if Supplied(extract, name) {
        var v := extract(name).value;
        var found' := SetField(found, name, v);
        assert Classify(def, names, extract).value.1 == found';
        assert forall n :: n in FieldNames(found') <==> n in FieldNames(found) || n == name;
        forall n | n in FieldNames(found')
          ensures Lookup(found', n) == extract(n).value
        {
          if n != name {
            SetFieldKeeps(found, name, v, n);
          }
        }
      } else {
        assert Classify(def, names, extract).value.1 == found;
      }
    }
  }

  /**
   * Every required parameter lands on exactly one side of the result of
   * `validateParams`, and the missing ones keep the order of `required`.
   */
  lemma ValidatedPartitions(def: ToolDefinition, message: string, scan: string -> ContentScan, n: string)
    requires Validated(def, message, scan).Ok? && n in def.required
    ensures var v := Validated(def, message, scan).value;
      var extract := ExtractorOf(message, def, scan);
      MissingNames(v.missingParams) == Unsupplied(extract, def.required)
      && (n in MissingNames(v.missingParams) <==> n !in FieldNames(v.foundParams))
  {
    var extract := ExtractorOf(message, def, scan);
    ClassifyMissing(def, def.required, extract);
    ClassifyFound(def, def.required, extract);
  }

  /** The result of `validateParams` as a function of its inputs. */
  function Validated(def: ToolDefinition, message: string, scan: string -> ContentScan): (r: Result<Validation, string>)
    ensures r.Ok? ==> (r.value.isComplete <==> |r.value.missingParams| == 0)
    ensures r.Ok? ==> (r.value.prompt.None? <==> r.value.isComplete)
    ensures r.Ok? && !r.value.isComplete ==>
      r.value.prompt == Some(GuidancePrompt(def.name, r.value.missingParams, r.value.foundParams))
    ensures r.Err? <==> Classify(def, def.required, ExtractorOf(message, def, scan)).Err?
  {
    match Classify(def, def.required, ExtractorOf(message, def, scan))
    case Err(e) => Err(e)
    case Ok((missing, found)) =>
      var complete := |missing| == 0;
      Ok(Validation(complete, missing, found, if complete then None else Some(GuidancePrompt(def.name, missing, found))))
  }

  /** `validateParams(toolDefinition, userMessage)`: the pass over the required names, then the prompt. */
  method ValidateParams(def: ToolDefinition, message: string, scan: string -> ContentScan) returns (r: Result<Validation, string>)
    ensures r == Validated(def, message, scan)
  {
    var classified := ClassifyRequired(def, message, scan);
    if classified.Err? {
      return Err(classified.error);
    }
    var (missing, found) := classified.value;
    var complete := |missing| == 0;
    var prompt: Option<string> := None;
    if !complete {
      var text := GenerateGuidancePrompt(def.name, missing, found);
      prompt := Some(text);
    }
    return Ok(Validation(complete, missing, found, prompt));
  }

  /** The `requiredParams.forEach` loop sorting each name into found or missing; a throw ends it. */
  method ClassifyRequired(def: ToolDefinition, message: string, scan: string -> ContentScan)
    returns (r: Result<(seq<MissingParam>, seq<(string, Value)>), string>)
    ensures r == Classify(def, def.required, ExtractorOf(message, def, scan))
  {
    ghost var extract := ExtractorOf(message, def, scan);
    var missing: seq<MissingParam> := [];
    var found: seq<(string, Value)> := [];
    var i := 0;
    while i < |def.required|
      invariant 0 <= i <= |def.required|
      invariant Classify(def, def.required[..i], extract) == Ok((missing, found))
    {
      var name := def.required[i];
      ClassifySnoc(def, def.required, i, extract);
      var d := Definition(def, name);
      var value := ExtractParamValue(message, name, d, scan);
      assert value == extract(name);
      if value.Err? {
        PrefixErrStays(def, def.required, i + 1, extract);
        return Err(value.error);
      }
      if Truthy(value.value) {
        found := SetField(found, name, value.value);
      } else if d.None? {
        PrefixErrStays(def, def.required, i + 1, extract);
        return Err(UNDEFINED_DEFINITION);
      } else {
        missing := missing + [MissingEntry(name, d.value)];
      }
      i := i + 1;
    }
    assert def.required[..i] == def.required;
    return Ok((missing, found));
  }

  /** A throw on one required name ends the pass: the whole classification throws the same. */
  lemma {:induction false} PrefixErrStays(def: ToolDefinition, names: seq<string>, k: nat, extract: Extractor)
    requires k <= |names| && Classify(def, names[..k], extract).Err?
    ensures Classify(def, names, extract) == Classify(def, names[..k], extract)
    decreases |names| - k
  {
    if k < |names| {
      assert names[..k + 1][..k] == names[..k];
      PrefixErrStays(def, names, k + 1, extract);
    } else {
      assert names[..k] == names;
    }
  }

  // --------------------------------------------------------------- guidance

  const CONTENT_REQUEST := "\n\n请提供你想处理的文章内容，你可以：\n" + "1. 直接粘贴文章内容\n" + "2. 提供文章链接（如果是网上的文章）"

  /** `toolDescriptions[toolName] || '执行此操作'`. */
  function Action(toolName: string): (a: string)
    ensures toolName != "summarizeArticle" && toolName != "extractKeyInfo" ==> a == "执行此操作"
  {
    if toolName == "summarizeArticle" then "总结文章"
    else if toolName == "extractKeyInfo" then "提取关键信息"
    else "执行此操作"
  }

  function Greeting(toolName: string): string {
    "好的，我可以帮你" + Action(toolName) + "。"
  }

  /** The line of the `index`-th missing parameter (counting from 0): `<index + 1>. <description>\n`. */
  function Item(index: nat, description: string): string {
    NatToString(index + 1) + ". " + description + "\n"
  }

  /** The numbered list of the missing parameters. */
  function NumberedList(missing: seq<MissingParam>): string {
    if |missing| == 0 then ""
    else NumberedList(missing[..|missing| - 1]) + Item(|missing| - 1, missing[|missing| - 1].description)
  }

  /** `String(v)` as a template literal prints a value. */
  function ToText(v: Value): string
    decreases v, 1, 0
  {
    match v
    case Undefined => "undefined"
    case Null => "null"
    case Bool(b) => if b then "true" else "false"
    case Num(n) => IntToString(n)
    case Str(s) => s
    case Arr(items) => JoinFrom(v, 0, ",")
    case Obj(_) => "[object Object]"
  }

  /** `items.slice(i).join(sep)` for the elements of the array `v`; null and undefined print as nothing. */
  function JoinFrom(v: Value, i: nat, sep: string): string
    requires v.Arr?
    decreases v, 0, |v.items| - i
  {
    if i >= |v.items| then ""
    else
      var item := v.items[i];
      var text := if item.Undefined? || item.Null? then "" else ToText(item);
      if i == |v.items| - 1 then text else text + sep + JoinFrom(v, i + 1, sep)
  }

  /**
   * One `\n- key: value` line of the recognised parameters.  A string longer
   * than 50 UTF-16 code units is cut to its first 30.
   */
  function FoundLine(key: string, value: Value): (line: string)
    ensures value.Str? && Utf16Length(value.s) > 50 ==>
      line == "\n- " + key + ": [" + Utf16Prefix(value.s, 30) + "...]"
    ensures value.Str? && Utf16Length(value.s) <= 50 ==> line == "\n- " + key + ": " + value.s
    ensures value.Str? ==> |line| <= |key| + 5 + 50
  {
    var shown := match value
      case Arr(_) => JoinFrom(value, 0, ", ")
      case Num(n) => IntToString(n)
      case Str(s) =>
        if Utf16Length(s) > 50 then
          Utf16PrefixFits(s, 30);
          "[" + Utf16Prefix(s, 30) + "...]"
        else s
      case _ => ToText(value);
    "\n- " + key + ": " + shown
  }

  function FoundLines(found: seq<(string, Value)>): string {
    if |found| == 0 then ""
    else FoundLines(found[..|found| - 1]) + FoundLine(found[|found| - 1].0, found[|found| - 1].1)
  }

  lemma FoundLinesSnoc(found: seq<(string, Value)>, k: nat)
    requires k < |found|
    ensures FoundLines(found[..k + 1]) == FoundLines(found[..k]) + FoundLine(found[k].0, found[k].1)
  {
    assert found[..k + 1][..k] == found[..k];
  }

  /** `generateGuidancePrompt(toolName, missingParams, foundParams)`. */
  function GuidancePrompt(toolName: string, missing: seq<MissingParam>, found: seq<(string, Value)>): (r: string)
    ensures StartsWith(r, Greeting(toolName))
  {
    var ask :=
      if |missing| == 1 then
        if missing[0].name == "content" then CONTENT_REQUEST else "\n\n请提供：" + missing[0].description
      else "\n\n请提供以下信息：\n" + NumberedList(missing);
    var recognised := if |found| > 0 then "\n\n我已识别到：" + FoundLines(found) else "";
    var r := Greeting(toolName) + (ask + recognised);
    assert r[..|Greeting(toolName)|] == Greeting(toolName);
    r
  }

  /**
   * Several missing parameters are listed one per line, numbered from 1 in
   * their order: splitting the list at line breaks gives exactly the items
   * (and the empty text after the last break), as long as no description
   * itself breaks a line.
   */
  lemma {:induction false} NumberedListLines(missing: seq<MissingParam>)
    requires forall i :: 0 <= i < |missing| ==> '\n' !in missing[i].description
    ensures var pieces := Split(NumberedList(missing), '\n');
      |pieces| == |missing| + 1 && pieces[|missing|] == ""
      && forall i :: 0 <= i < |missing| ==> pieces[i] == NatToString(i + 1) + ". " + missing[i].description
  {
    if |missing| > 0 {
      var init := missing[..|missing| - 1];
      var k := |missing| - 1;
      NumberedListLines(init);
      var line := NatToString(k + 1) + ". " + missing[k].description;
      assert '\n' !in NatToString(k + 1) by {
        assert AllDigits(NatToString(k + 1));
      }
      assert '\n' !in line;
      SplitAppend(NumberedList(init), Item(k, missing[k].description), '\n');
      SplitLine(line);
      var before := Split(NumberedList(init), '\n');
      assert Split(NumberedList(missing), '\n') == AllButLast(before) + [Last(before) + line] + [""];
    }
  }

  /** A line without breaks followed by one break splits into the line and the empty text. */
  lemma SplitLine(line: string)
    requires '\n' !in line
    ensures Split(line + "\n", '\n') == [line, ""]
  {
    SplitAppend(line, "\n", '\n');
    SplitOnePieceOf(line);
    assert Split("\n", '\n') == ["", ""] by {
      assert "\n"[1..] == "";
    }
    assert line + "" == line;
  }

  lemma {:induction false} SplitOnePieceOf(t: string)
    requires '\n' !in t
    ensures Split(t, '\n') == [t]
  {
    if |t| > 0 {
      assert '\n' !in t[1..];
      SplitOnePieceOf(t[1..]);
      assert t == [t[0]] + t[1..];
    }
  }

  /** The prompt built with `+=` as `generateGuidancePrompt` does. */
  method GenerateGuidancePrompt(toolName: string, missing: seq<MissingParam>, found: seq<(string, Value)>)
    returns (prompt: string)
    ensures prompt == GuidancePrompt(toolName, missing, found)
  {
    var ask: string;
    if |missing| == 1 {
      if missing[0].name == "content" {
        ask := CONTENT_REQUEST;
      } else {
        ask := "\n\n请提供：" + missing[0].description;
      }
    } else {
      ask := AppendNumberedList("\n\n请提供以下信息：\n", missing);
    }
    var recognised := "";
    if |found| > 0 {
      recognised := AppendFoundLines("\n\n我已识别到：", found);
    }
    prompt := Greeting(toolName) + (ask + recognised);
  }

  /** The `missingParams.forEach` loop appending one numbered line per parameter. */
  method AppendNumberedList(head: string, missing: seq<MissingParam>) returns (text: string)
    ensures text == head + NumberedList(missing)
  {
    text := head;
    for index := 0 to |missing|
      invariant text == head + NumberedList(missing[..index])
    {
      assert missing[..index + 1][..index] == missing[..index];
      text := text + Item(index, missing[index].description);
    }
    assert missing[..|missing|] == missing;
  }

  /** The `Object.entries(foundParams).forEach` loop appending one line per recognised parameter. */
  method AppendFoundLines(head: string, found: seq<(string, Value)>) returns (text: string)
    ensures text == head + FoundLines(found)
  {
    text := head;
    for k := 0 to |found|
      invariant text == head + FoundLines(found[..k])
    {
      var line := FoundLine(found[k].0, found[k].1);
      FoundLinesSnoc(found, k);
      AppendAssoc(head, FoundLines(found[..k]), line);
      text := text + line;
    }
    assert found[..|found|] == found;
  }

  // ----------------------------------------------------------------- intent

  const SUMMARIZE_KEYWORDS: seq<string> := ["总结", "摘要", "概括", "要点", "主旨", "大意", "浓缩"]
  const EXTRACT_KEYWORDS: seq<string> := ["提取", "关键信息", "人名", "地名", "日期", "数据", "信息提取"]
  /** Confidence above this suggests a tool. */
  const THRESHOLD: real := 0.3

  /** `toolKeywords[toolName]`: the keyword list of the two known tools (every weight is 1.0). */
  function KeywordsOf(toolName: Value): (r: Option<seq<string>>)
    ensures r.Some? ==> |r.value| == 7
  {
    if toolName == Str("summarizeArticle") then Some(SUMMARIZE_KEYWORDS)
    else if toolName == Str("extractKeyInfo") then Some(EXTRACT_KEYWORDS)
    else None
  }

  /** `tool.name || tool.function?.name`. */
  function ToolNameOf(tool: Value): Value {
    Or(Get(tool, "name"), Get(Get(tool, "function"), "name"))
  }

  /** How many of the keywords the text contains. */
  function MatchCount(text: string, keywords: seq<string>): (n: nat)
    ensures n <= |keywords|
  {
    if |keywords| == 0 then 0
    else MatchCount(text, keywords[..|keywords| - 1]) + (if Contains(text, keywords[|keywords| - 1]) then 1 else 0)
  }

  /** A candidate: the tool's name and its normalised score. */
  type Candidate = (Value, real)

  predicate InRange(c: Option<Candidate>) {
    c.Some? ==> 0.0 <= c.value.1 <= 1.0
  }

  /**
   * What one tool contributes: nothing when its name has no keyword entry,
   * otherwise its name and the matched keywords over the keyword count.
   */
  function CandidateOf(text: string, tool: Value): (c: Option<Candidate>)
    ensures InRange(c)
    ensures c.Some? <==> KeywordsOf(ToolNameOf(tool)).Some?
    ensures c.Some? ==> c.value.1 == MatchCount(text, KeywordsOf(ToolNameOf(tool)).value) as real / 7.0
  {
    var name := ToolNameOf(tool);
    match KeywordsOf(name)
    case None => None
    case Some(keywords) =>
      var score := MatchCount(text, keywords) as real / |keywords| as real;
      assert score == MatchCount(text, keywords) as real / 7.0 && 0.0 <= score <= 1.0 by {
        ScoreInRange(MatchCount(text, keywords), |keywords|);
      }
      Some((name, score))
  }

  /** A count of matched keywords over the number of keywords lies between zero and one. */
  lemma ScoreInRange(count: nat, total: nat)
    requires count <= total && total == 7
    ensures count as real / total as real == count as real / 7.0
    ensures 0.0 <= count as real / total as real <= 1.0
  {
    assert total as real == 7.0;
  }

  /** The candidates of all tools, in order. */
  function CandidatesOf(text: string, tools: seq<Value>): (r: seq<Option<Candidate>>)
    ensures |r| == |tools|
    ensures forall i :: 0 <= i < |tools| ==> r[i] == CandidateOf(text, tools[i])
  {
    if |tools| == 0 then []
    else CandidatesOf(text, tools[..|tools| - 1]) + [CandidateOf(text, tools[|tools| - 1])]
  }

  /** Candidate `i` is present, equals `b`, and every earlier candidate scored strictly lower. */
  predicate FirstBest(cands: seq<Option<Candidate>>, i: nat, b: Candidate)
    requires i < |cands|
  {
    cands[i] == Some(b) && forall j :: 0 <= j < i && cands[j].Some? ==> cands[j].value.1 < b.1
  }

  /**
   * The best match over the candidates in order: a candidate replaces the
   * current best only with a strictly higher score, starting from `(null, 0)`.
   * The result is the first candidate of the highest score, or `(null, 0)`
   * when no candidate scores above zero.
   */
  function BestOf(cands: seq<Option<Candidate>>): (b: Candidate)
    requires forall i :: 0 <= i < |cands| ==> InRange(cands[i])
    ensures 0.0 <= b.1 <= 1.0
    ensures forall j :: 0 <= j < |cands| && cands[j].Some? ==> cands[j].value.1 <= b.1
    ensures b.1 == 0.0 ==> b.0 == Null
    ensures b.1 > 0.0 ==> exists i :: 0 <= i < |cands| && FirstBest(cands, i, b)
  {
    if |cands| == 0 then (Null, 0.0)
    else
      var init := cands[..|cands| - 1];
      var before := BestOf(init);
      var c := cands[|cands| - 1];
      assert InRange(c);
      if c.Some? && c.value.1 > before.1 then
        assert FirstBest(cands, |cands| - 1, c.value);
        c.value
      else
        FirstBestExtends(init, cands, before);
        before
  }

  lemma FirstBestExtends(init: seq<Option<Candidate>>, cands: seq<Option<Candidate>>, b: Candidate)
    requires |init| <= |cands| && init == cands[..|init|]
    requires b.1 > 0.0 ==> exists i :: 0 <= i < |init| && FirstBest(init, i, b)
    ensures b.1 > 0.0 ==> exists i :: 0 <= i < |cands| && FirstBest(cands, i, b)
  {
    if b.1 > 0.0 {
      var i :| 0 <= i < |init| && FirstBest(init, i, b);
      assert FirstBest(cands, i, b);
    }
  }

  /** The result of `analyzeIntent`: `{needTool, toolName, confidence}`. */
  datatype Intent = Intent(needTool: bool, toolName: Value, confidence: real)

  /** `analyzeIntent(message, tools)` as a function of its inputs. */
  /** The best match among the tools for the lower-cased text. */
  function BestMatch(text: string, tools: seq<Value>): Candidate {
    BestOf(CandidatesOf(text, tools))
  }

  function IntentOf(message: string, tools: Option<seq<Value>>): (r: Intent)
    ensures message == "" || tools.None? || |tools.value| == 0 ==> r == Intent(false, Undefined, 0.0)
    ensures 0.0 <= r.confidence <= 1.0
    ensures r.needTool <==> r.confidence > THRESHOLD
  {
    if message == "" || tools.None? || |tools.value| == 0 then Intent(false, Undefined, 0.0)
    else
      var b := BestMatch(Lower(message), tools.value);
      Intent(b.1 > THRESHOLD, b.0, b.1)
  }

  /** With seven keywords per tool, a score beats the threshold exactly when at least three keywords match. */
  lemma ThresholdMeansThreeKeywords(n: nat)
    ensures n as real / 7.0 > THRESHOLD <==> n >= 3
  {
    if n >= 3 {
      assert n as real / 7.0 >= 3.0 / 7.0;
    } else {
      assert n as real / 7.0 <= 2.0 / 7.0;
    }
  }

  /** Some known tool has at least three of its keywords in the text. */
  predicate ThreeKeywordsOfSomeTool(text: string, tools: seq<Value>) {
    exists i :: 0 <= i < |tools| && KeywordsOf(ToolNameOf(tools[i])).Some?
      && MatchCount(text, KeywordsOf(ToolNameOf(tools[i])).value) >= 3
  }

  /**
   * `needTool` holds exactly when some known tool has at least three of
   * its keywords in the lower-cased message.
   */
  lemma NeedToolIffThreeKeywords(message: string, tools: seq<Value>)
    requires message != "" && |tools| > 0
    ensures IntentOf(message, Some(tools)).needTool <==> ThreeKeywordsOfSomeTool(Lower(message), tools)
  {
    var text := Lower(message);
    assert IntentOf(message, Some(tools)).needTool <==> BestMatch(text, tools).1 > THRESHOLD;
    if BestMatch(text, tools).1 > THRESHOLD {
      BestAboveThresholdHasThree(text, tools);
    }
    if ThreeKeywordsOfSomeTool(text, tools) {
      var i :| 0 <= i < |tools| && KeywordsOf(ToolNameOf(tools[i])).Some?
        && MatchCount(text, KeywordsOf(ToolNameOf(tools[i])).value) >= 3;
      ThreeKeywordsBeatThreshold(text, tools, i);
    }
  }

  /** The best match beats the threshold only through a tool with at least three keywords in the text. */
  lemma BestAboveThresholdHasThree(text: string, tools: seq<Value>)
    requires BestMatch(text, tools).1 > THRESHOLD
    ensures ThreeKeywordsOfSomeTool(text, tools)
  {
    var cands := CandidatesOf(text, tools);
    var b := BestOf(cands);
    var i :| 0 <= i < |cands| && FirstBest(cands, i, b);
    var n := MatchCount(text, KeywordsOf(ToolNameOf(tools[i])).value);
    assert b.1 == n as real / 7.0;
    ThresholdMeansThreeKeywords(n);
  }

  /** A tool with at least three of its keywords in the text lifts the best match above the threshold. */
  lemma ThreeKeywordsBeatThreshold(text: string, tools: seq<Value>, i: nat)
    requires i < |tools| && KeywordsOf(ToolNameOf(tools[i])).Some?
    requires MatchCount(text, KeywordsOf(ToolNameOf(tools[i])).value) >= 3
    ensures BestMatch(text, tools).1 > THRESHOLD
  {
    var n := MatchCount(text, KeywordsOf(ToolNameOf(tools[i])).value);
    ThresholdMeansThreeKeywords(n);
    var cands := CandidatesOf(text, tools);
    assert cands[i].Some? && cands[i].value.1 == n as real / 7.0;
  }

  /** The inner `for (const keyword of keywords.keywords)` loop, adding the weight 1.0 per match. */
  method CountMatches(text: string, keywords: seq<string>) returns (matchScore: real)
    ensures matchScore == MatchCount(text, keywords) as real
  {
    matchScore := 0.0;
    for k := 0 to |keywords|
      invariant matchScore == MatchCount(text, keywords[..k]) as real
    {
      assert keywords[..k + 1][..k] == keywords[..k];
      if Contains(text, keywords[k]) {
        matchScore := matchScore + 1.0;
      }
    }
    assert keywords[..|keywords|] == keywords;
  }

  /** `analyzeIntent(message, tools)`: the loop over the tools keeping the best match. */
  method AnalyzeIntent(message: string, tools: Option<seq<Value>>) returns (r: Intent)
    ensures r == IntentOf(message, tools)
  {
    if message == "" || tools.None? || |tools.value| == 0 {
      return Intent(false, Undefined, 0.0);
    }
    var messageLower := Lower(message);
    var list := tools.value;
    var bestName := Null;
    var bestConfidence := 0.0;
    for t := 0 to |list|
      invariant (bestName, bestConfidence) == BestMatch(messageLower, list[..t])
    {
      var candidate := ScoreTool(messageLower, list[t]);
      assert BestMatch(messageLower, list[..t + 1]) == Better(candidate, BestMatch(messageLower, list[..t])) by {
        BestOfLast(messageLower, list, t);
      }
      if candidate.Some? && candidate.value.1 > bestConfidence {
        bestName, bestConfidence := candidate.value.0, candidate.value.1;
      }
    }
    assert list[..|list|] == list;
    return Intent(bestConfidence > THRESHOLD, bestName, bestConfidence);
  }

  /** The body of the loop of `analyzeIntent` for one tool, up to the comparison with the best so far. */
  method ScoreTool(messageLower: string, tool: Value) returns (c: Option<Candidate>)
    ensures c == CandidateOf(messageLower, tool)
  {
    var toolName := ToolNameOf(tool);
    var keywords := KeywordsOf(toolName);
    if keywords.None? {
      return None;
    }
    var matchScore := CountMatches(messageLower, keywords.value);
    var normalizedScore := matchScore / |keywords.value| as real;
    return Some((toolName, normalizedScore));
  }

  /** A candidate replaces the best so far only with a strictly higher score. */
  function Better(c: Option<Candidate>, before: Candidate): Candidate {
    if c.Some? && c.value.1 > before.1 then c.value else before
  }

  /** Taking one more tool into account. */
  lemma BestOfLast(text: string, tools: seq<Value>, t: nat)
    requires t < |tools|
    ensures BestMatch(text, tools[..t + 1]) == Better(CandidateOf(text, tools[t]), BestMatch(text, tools[..t]))
  {
    var cands := CandidatesOf(text, tools[..t + 1]);
    assert tools[..t + 1][..t] == tools[..t];
    assert cands[..t] == CandidatesOf(text, tools[..t]);
  }
}
