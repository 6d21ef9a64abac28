/** AutomationConditionEvaluator, and the dry run of AutomationService, on conditions stored as JSON. */
module AutomationConditions {
  import opened Wrappers

  datatype Json =
    | Null | Bool(b: bool) | Num(n: real) | Str(s: string)
    | Arr(items: seq<Json>)
    | Obj(fields: seq<Field>)

  datatype Field = Field(key: string, value: Json)

  /** Evaluating a malformed node throws a TypeError. */
  datatype Thrown = TypeError

  type Outcome = Result<bool, Thrown>

  /** A payload, and how a property name that is not a string is turned into one. */
  datatype Env = Env(payload: map<string, Json>, keyOf: Json -> string)

  predicate IsPrimitive(v: Json) {
    !v.Arr? && !v.Obj?
  }

  /** JavaScript's falsy values. */
  predicate IsFalsy(v: Json) {
    v == Null || v == Bool(false) || v == Num(0.0) || v == Str("")
  }

  function IndexOfKey(fields: seq<Field>, key: string): (i: Option<nat>)
    ensures i.Some? ==> i.value < |fields| && fields[i.value].key == key
    ensures i.None? ==> forall k :: 0 <= k < |fields| ==> fields[k].key != key
  {
    if fields == [] then None
    else
      match IndexOfKey(fields[..|fields| - 1], key)
      case Some(i) => Some(i)
      case None => if fields[|fields| - 1].key == key then Some(|fields| - 1) else None
  }

  /** `object[key]`, None for undefined. */
  function Get(fields: seq<Field>, key: string): Option<Json> {
    var i := IndexOfKey(fields, key);
    if i.Some? then Some(fields[i.value].value) else None
  }

  function Lookup(payload: map<string, Json>, key: string): Option<Json> {
    if key in payload then Some(payload[key]) else None
  }

  /** `a === b`. Arrays and objects of a payload are never the ones of a stored condition. */
  predicate StrictlyEqual(a: Option<Json>, b: Option<Json>) {
    a == b && (a.Some? ==> IsPrimitive(a.value))
  }

  predicate Includes(text: string, part: string) {
    exists i :: 0 <= i <= |text| && part <= text[i..]
  }

  predicate BothNumbers(a: Option<Json>, b: Option<Json>) {
    a.Some? && a.value.Num? && b.Some? && b.value.Num?
  }

  // ---------------------------------------------------------------- evaluateConditionNode

  predicate IsCompound(node: Json) {
    node.Obj? && Get(node.fields, "operator") in {Some(Str("AND")), Some(Str("OR"))}
  }

  predicate IsSimple(node: Json) {
    node.Obj? && Get(node.fields, "field").Some? && Get(node.fields, "op").Some?
  }

  function NameOf(name: Json, env: Env): string {
    if name.Str? then name.s else env.keyOf(name)
  }

  function SimpleField(node: Json, env: Env): Option<Json>
    requires IsSimple(node)
  {
    Lookup(env.payload, NameOf(Get(node.fields, "field").value, env))
  }

  function EvalSimple(node: Json, env: Env): bool
    requires IsSimple(node)
  {
    var payloadVal, value, op := SimpleField(node, env), Get(node.fields, "value"), Get(node.fields, "op").value;
    if op == Str("eq") then StrictlyEqual(payloadVal, value)
    else if op == Str("neq") then !StrictlyEqual(payloadVal, value)
    else if op == Str("gt") then BothNumbers(payloadVal, value) && payloadVal.value.n > value.value.n
    else if op == Str("gte") then BothNumbers(payloadVal, value) && payloadVal.value.n >= value.value.n
    else if op == Str("lt") then BothNumbers(payloadVal, value) && payloadVal.value.n < value.value.n
    else if op == Str("lte") then BothNumbers(payloadVal, value) && payloadVal.value.n <= value.value.n
    else if op == Str("contains") then
      payloadVal.Some? && payloadVal.value.Str? && value.Some? && value.value.Str?
      && Includes(payloadVal.value.s, value.value.s)
    else false
  }

  /** A property of a legacy condition; the properties of an array are its indexes. */
  datatype Entry = Entry(name: Json, value: Json)

  /** `Object.entries`. */
  function Entries(node: Json): (r: seq<Entry>)
    requires !IsPrimitive(node)
    ensures |r| == if node.Arr? then |node.items| else |node.fields|
  {
    match node
    case Arr(items) => seq(|items|, i requires 0 <= i < |items| => Entry(Num(i as real), items[i]))
    case Obj(fields) => seq(|fields|, i requires 0 <= i < |fields| => Entry(Str(fields[i].key), fields[i].value))
  }

  predicate EntryHolds(e: Entry, env: Env) {
    StrictlyEqual(Lookup(env.payload, NameOf(e.name, env)), Some(e.value))
  }

  predicate EvalLegacy(entries: seq<Entry>, env: Env) {
    forall i :: 0 <= i < |entries| ==> EntryHolds(entries[i], env)
  }

  function Eval(node: Json, env: Env): Outcome
    decreases node, 1
  {
    if IsPrimitive(node) then Err(TypeError)
    else if IsCompound(node) then
      var i := IndexOfKey(node.fields, "conditions");
      if i.None? || !node.fields[i.value].value.Arr? then Err(TypeError)
      else
        var conditions := node.fields[i.value].value.items;
        if Get(node.fields, "operator") == Some(Str("AND")) then Every(conditions, env) else Any(conditions, env)
    else if IsSimple(node) then Ok(EvalSimple(node, env))
    else Ok(EvalLegacy(Entries(node), env))
  }

  /** `conditions.every(...)`: stops at the first false, and at the first exception. */
  function Every(conditions: seq<Json>, env: Env): Outcome
    decreases conditions, 0
  {
    if conditions == [] then Ok(true)
    else
      var first := Eval(conditions[0], env);
      if first == Ok(true) then Every(conditions[1..], env) else first
  }

  function Any(conditions: seq<Json>, env: Env): Outcome
    decreases conditions, 0
  {
    if conditions == [] then Ok(false)
    else
      var first := Eval(conditions[0], env);
      if first == Ok(false) then Any(conditions[1..], env) else first
  }

  /** `every` answers true exactly when every condition does; a first failure or exception decides otherwise. */
  lemma {:induction false} EveryMeans(conditions: seq<Json>, env: Env)
    ensures Every(conditions, env) == Ok(true) <==>
            forall k :: 0 <= k < |conditions| ==> Eval(conditions[k], env) == Ok(true)
    ensures Every(conditions, env) != Ok(true) ==>
              exists k :: 0 <= k < |conditions| && Every(conditions, env) == Eval(conditions[k], env) != Ok(true)
                          && forall j :: 0 <= j < k ==> Eval(conditions[j], env) == Ok(true)
  {
    if conditions != [] {
      var rest := conditions[1..];
      EveryMeans(rest, env);
      assert forall k :: 1 <= k < |conditions| ==> rest[k - 1] == conditions[k];
      if Eval(conditions[0], env) == Ok(true) && Every(rest, env) != Ok(true) {
        var k :| 0 <= k < |rest| && Every(rest, env) == Eval(rest[k], env) != Ok(true)
                 && forall j :: 0 <= j < k ==> Eval(rest[j], env) == Ok(true);
        assert Eval(conditions[k + 1], env) == Eval(rest[k], env);
        assert forall j :: 0 < j < k + 1 ==> conditions[j] == rest[j - 1];
      }
    }
  }

  /** `some` answers false exactly when every condition does; a first success or exception decides otherwise. */
  lemma {:induction false} AnyMeans(conditions: seq<Json>, env: Env)
    ensures Any(conditions, env) == Ok(false) <==>
            forall k :: 0 <= k < |conditions| ==> Eval(conditions[k], env) == Ok(false)
    ensures Any(conditions, env) != Ok(false) ==>
              exists k :: 0 <= k < |conditions| && Any(conditions, env) == Eval(conditions[k], env) != Ok(false)
                          && forall j :: 0 <= j < k ==> Eval(conditions[j], env) == Ok(false)
  {
    if conditions != [] {
      var rest := conditions[1..];
      AnyMeans(rest, env);
      assert forall k :: 1 <= k < |conditions| ==> rest[k - 1] == conditions[k];
      if Eval(conditions[0], env) == Ok(false) && Any(rest, env) != Ok(false) {
        var k :| 0 <= k < |rest| && Any(rest, env) == Eval(rest[k], env) != Ok(false)
                 && forall j :: 0 <= j < k ==> Eval(rest[j], env) == Ok(false);
        assert Eval(conditions[k + 1], env) == Eval(rest[k], env);
        assert forall j :: 0 < j < k + 1 ==> conditions[j] == rest[j - 1];
      }
    }
  }

  /** An AND node is true exactly if all its conditions are; otherwise the first that is not decides. */
  lemma AndNodeMeans(node: Json, items: seq<Json>, env: Env)
    requires node.Obj? && Get(node.fields, "operator") == Some(Str("AND"))
    requires Get(node.fields, "conditions") == Some(Arr(items))
    ensures Eval(node, env) == Ok(true) <==> forall k :: 0 <= k < |items| ==> Eval(items[k], env) == Ok(true)
    ensures Eval(node, env) != Ok(true) ==>
              exists k :: 0 <= k < |items| && Eval(node, env) == Eval(items[k], env) != Ok(true)
                          && forall j :: 0 <= j < k ==> Eval(items[j], env) == Ok(true)
  {
    EveryMeans(items, env);
  }

  /** An OR node is false exactly if all its conditions are; otherwise the first that is not decides. */
  lemma OrNodeMeans(node: Json, items: seq<Json>, env: Env)
    requires node.Obj? && Get(node.fields, "operator") == Some(Str("OR"))
    requires Get(node.fields, "conditions") == Some(Arr(items))
    ensures Eval(node, env) == Ok(false) <==> forall k :: 0 <= k < |items| ==> Eval(items[k], env) == Ok(false)
    ensures Eval(node, env) != Ok(false) ==>
              exists k :: 0 <= k < |items| && Eval(node, env) == Eval(items[k], env) != Ok(false)
                          && forall j :: 0 <= j < k ==> Eval(items[j], env) == Ok(false)
  {
    AnyMeans(items, env);
  }

  predicate HasList(node: Json)
    requires node.Obj?
  {
    Get(node.fields, "conditions").Some? && Get(node.fields, "conditions").value.Arr?
  }

  /** Nodes throw themselves exactly if they are primitive values, or compound without a list of conditions. */
  lemma MalformedNodesThrow(node: Json, env: Env)
    ensures IsPrimitive(node) ==> Eval(node, env) == Err(TypeError)
    ensures node.Obj? && Get(node.fields, "operator") in {Some(Str("AND")), Some(Str("OR"))} && !HasList(node) ==>
              Eval(node, env) == Err(TypeError)
    ensures node.Obj? && Get(node.fields, "operator") !in {Some(Str("AND")), Some(Str("OR"))} ==> Eval(node, env).Ok?
    ensures node.Arr? ==> Eval(node, env).Ok?
  {
  }

  /** The payload has this very primitive value under the key. */
  predicate Carries(env: Env, key: string, value: Json) {
    key in env.payload && env.payload[key] == value && IsPrimitive(value)
  }

  /** A map that is neither compound nor simple is true exactly if the payload carries all its entries. */
  lemma LegacyMapMeans(fields: seq<Field>, env: Env)
    requires Get(fields, "operator") !in {Some(Str("AND")), Some(Str("OR"))}
    requires Get(fields, "field").None? || Get(fields, "op").None?
    ensures Eval(Obj(fields), env) == Ok(forall k :: 0 <= k < |fields| ==> Carries(env, fields[k].key, fields[k].value))
  {
    var entries := Entries(Obj(fields));
    assert forall k :: 0 <= k < |fields| ==>
        EntryHolds(entries[k], env) == Carries(env, fields[k].key, fields[k].value);
  }

  /** So is an array, with its indexes for keys. */
  lemma LegacyArrayMeans(items: seq<Json>, env: Env)
    ensures Eval(Arr(items), env) ==
            Ok(forall k :: 0 <= k < |items| ==> Carries(env, env.keyOf(Num(k as real)), items[k]))
  {
    var entries := Entries(Arr(items));
    assert forall k :: 0 <= k < |items| ==>
        EntryHolds(entries[k], env) == Carries(env, env.keyOf(Num(k as real)), items[k]);
  }

  /** `{ field, op, value }` with the operator left open. */
  function Comparison(field: Json, op: string, value: Json): Json {
    Obj([Field("field", field), Field("op", Str(op)), Field("value", value)])
  }

  predicate Holds(field: string, op: string, value: Json, env: Env) {
    Eval(Comparison(Str(field), op, value), env) == Ok(true)
  }

  lemma ComparisonMeans(field: Json, op: string, value: Json, env: Env)
    ensures IsSimple(Comparison(field, op, value))
    ensures Eval(Comparison(field, op, value), env) == Ok(EvalSimple(Comparison(field, op, value), env))
    ensures SimpleField(Comparison(field, op, value), env) == Lookup(env.payload, NameOf(field, env))
    ensures Get(Comparison(field, op, value).fields, "op") == Some(Str(op))
    ensures Get(Comparison(field, op, value).fields, "value") == Some(value)
  {
    var a, b, c := Field("field", field), Field("op", Str(op)), Field("value", value);
    GetThree(a, b, c, "operator");
    GetThree(a, b, c, "field");
    GetThree(a, b, c, "op");
    GetThree(a, b, c, "value");
  }

  /** On numbers exactly one of lt, eq and gt holds, the others follow from them, and greater values satisfy gt. */
  lemma NumbersAreOrdered(field: string, n: real, env: Env)
    requires field in env.payload && env.payload[field].Num?
    ensures Holds(field, "gt", Num(n), env) <==> env.payload[field].n > n
    ensures Holds(field, "lt", Num(n), env) <==> !Holds(field, "gt", Num(n), env) && !Holds(field, "eq", Num(n), env)
    ensures Holds(field, "gte", Num(n), env) <==> !Holds(field, "lt", Num(n), env)
    ensures Holds(field, "lte", Num(n), env) <==> !Holds(field, "gt", Num(n), env)
    ensures Holds(field, "neq", Num(n), env) <==> !Holds(field, "eq", Num(n), env)
  {
    hide Eval, IsSimple, SimpleField, Get;
    ComparisonMeans(Str(field), "gt", Num(n), env);
    ComparisonMeans(Str(field), "lt", Num(n), env);
    ComparisonMeans(Str(field), "gte", Num(n), env);
    ComparisonMeans(Str(field), "lte", Num(n), env);
    ComparisonMeans(Str(field), "eq", Num(n), env);
    ComparisonMeans(Str(field), "neq", Num(n), env);
  }

  /** eq holds exactly if the payload carries the value; neq exactly if it does not. */
  lemma EqualityMeans(field: string, value: Json, env: Env)
    ensures Holds(field, "eq", value, env) <==> Carries(env, field, value)
    ensures Holds(field, "neq", value, env) <==> !Carries(env, field, value)
  {
    hide Eval, IsSimple, Get;
    ComparisonMeans(Str(field), "eq", value, env);
    ComparisonMeans(Str(field), "neq", value, env);
  }

  /** contains holds exactly if the payload has a string that the value is part of. */
  lemma ContainsMeans(field: string, part: string, env: Env)
    ensures Holds(field, "contains", Str(part), env) <==>
            exists a: string, b: string :: field in env.payload && env.payload[field] == Str(a + part + b)
  {
    hide Eval, IsSimple, Get;
    ComparisonMeans(Str(field), "contains", Str(part), env);
    if field in env.payload && env.payload[field].Str? {
      IncludesSplits(env.payload[field].s, part);
    }
  }

  lemma IncludesSplits(text: string, part: string)
    ensures Includes(text, part) <==> exists a: string, b: string :: text == a + part + b
  {
    if Includes(text, part) {
      var i :| 0 <= i <= |text| && part <= text[i..];
      assert text == text[..i] + part + text[i + |part|..];
    }
    if a: string, b: string :| text == a + part + b {
      assert text[|a|..] == part + b;
    }
  }

  /** Orderings hold on numbers only, contains on strings only, and no other operator holds at all. */
  lemma OperatorsNeedTheirTypes(field: string, op: string, value: Json, env: Env)
    ensures op in {"gt", "gte", "lt", "lte"} && Holds(field, op, value, env) ==>
              value.Num? && field in env.payload && env.payload[field].Num?
    ensures op == "contains" && Holds(field, op, value, env) ==>
              value.Str? && field in env.payload && env.payload[field].Str?
    ensures op !in {"eq", "neq", "gt", "gte", "lt", "lte", "contains"} ==> !Holds(field, op, value, env)
  {
    hide Eval, IsSimple, Get;
    ComparisonMeans(Str(field), op, value, env);
  }

  // ---------------------------------------------------------------- rewriting legacy conditions

  function EqCondition(e: Entry): Json {
    Comparison(e.name, "eq", e.value)
  }

  function EqConditions(entries: seq<Entry>): (r: seq<Json>)
    ensures |r| == |entries|
  {
    seq(|entries|, i requires 0 <= i < |entries| => EqCondition(entries[i]))
  }

  function Conjunction(conditions: seq<Json>): Json {
    Obj([Field("operator", Str("AND")), Field("conditions", Arr(conditions))])
  }

  /** The same tree with every legacy map replaced by the AND of its eq conditions. */
  function Modernize(node: Json): Json
    decreases node, 1
  {
    if IsPrimitive(node) then node
    else if IsCompound(node) then
      var i := IndexOfKey(node.fields, "conditions");
      if i.None? || !node.fields[i.value].value.Arr? then node
      else
        var conditions := ModernizeAll(node.fields[i.value].value.items);
        Obj(node.fields[i.value := Field("conditions", Arr(conditions))])
    else if IsSimple(node) then node
    else Conjunction(EqConditions(Entries(node)))
  }

  function ModernizeAll(nodes: seq<Json>): (r: seq<Json>)
    ensures |r| == |nodes|
    decreases nodes, 0
  {
    if nodes == [] then [] else [Modernize(nodes[0])] + ModernizeAll(nodes[1..])
  }

  lemma GetTwo(a: Field, b: Field, key: string)
    ensures Get([a, b], key) ==
            if a.key == key then Some(a.value) else if b.key == key then Some(b.value) else None
  {
    assert [a, b][..1] == [a] && [a][..0] == [];
    assert IndexOfKey([a], key) == if a.key == key then Some(0) else None;
  }

  lemma GetThree(a: Field, b: Field, c: Field, key: string)
    ensures Get([a, b, c], key) ==
            if a.key == key then Some(a.value) else if b.key == key then Some(b.value)
            else if c.key == key then Some(c.value) else None
  {
    GetTwo(a, b, key);
    assert [a, b, c][..2] == [a, b];
  }

  lemma EqConditionMeans(e: Entry, env: Env)
    ensures Eval(EqCondition(e), env) == Ok(EntryHolds(e, env))
  {
    ComparisonMeans(e.name, "eq", e.value, env);
  }

  lemma {:induction false} EqConditionsMean(entries: seq<Entry>, env: Env)
    ensures Every(EqConditions(entries), env) == Ok(EvalLegacy(entries, env))
  {
    if entries != [] {
      EqConditionMeans(entries[0], env);
      EqConditionsMean(entries[1..], env);
      assert EqConditions(entries)[0] == EqCondition(entries[0]);
      assert EqConditions(entries)[1..] == EqConditions(entries[1..]);
      LegacySplits(entries, env);
    }
  }

  lemma LegacySplits(entries: seq<Entry>, env: Env)
    requires entries != []
    ensures EvalLegacy(entries, env) <==> EntryHolds(entries[0], env) && EvalLegacy(entries[1..], env)
  {
  }

  lemma ConjunctionMeans(conditions: seq<Json>, env: Env)
    ensures IsCompound(Conjunction(conditions)) && Eval(Conjunction(conditions), env) == Every(conditions, env)
  {
    var a, b := Field("operator", Str("AND")), Field("conditions", Arr(conditions));
    GetTwo(a, b, "operator");
    GetTwo(a, b, "conditions");
    assert IndexOfKey([a, b], "conditions") == Some(1);
  }

  lemma {:induction false} KeysDecideIndex(f: seq<Field>, g: seq<Field>, key: string)
    requires |f| == |g| && forall k :: 0 <= k < |f| ==> f[k].key == g[k].key
    ensures IndexOfKey(f, key) == IndexOfKey(g, key)
  {
    if f != [] {
      KeysDecideIndex(f[..|f| - 1], g[..|g| - 1], key);
    }
  }

  lemma ReplacedConditions(fields: seq<Field>, i: nat, conditions: seq<Json>)
    requires IndexOfKey(fields, "conditions") == Some(i)
    ensures var fields' := fields[i := Field("conditions", Arr(conditions))];
            && IndexOfKey(fields', "conditions") == Some(i)
            && Get(fields', "operator") == Get(fields, "operator")
  {
    var fields' := fields[i := Field("conditions", Arr(conditions))];
    KeysDecideIndex(fields, fields', "conditions");
    KeysDecideIndex(fields, fields', "operator");
  }

  /** Rewriting every legacy map as an AND of eq conditions changes the outcome for no payload, exceptions included. */
  lemma {:induction false} ModernizePreserves(node: Json, env: Env)
    ensures Eval(Modernize(node), env) == Eval(node, env)
    decreases node, 1
  {
    if !IsPrimitive(node) {
      if IsCompound(node) {
        var i := IndexOfKey(node.fields, "conditions");
        if i.Some? && node.fields[i.value].value.Arr? {
          var items := node.fields[i.value].value.items;
          ModernizeAllPreserves(items, env);
          ReplacedConditions(node.fields, i.value, ModernizeAll(items));
        }
      } else if !IsSimple(node) {
        EqConditionsMean(Entries(node), env);
        ConjunctionMeans(EqConditions(Entries(node)), env);
      }
    }
  }

  lemma {:induction false} ModernizeAllPreserves(nodes: seq<Json>, env: Env)
    ensures Every(ModernizeAll(nodes), env) == Every(nodes, env)
    ensures Any(ModernizeAll(nodes), env) == Any(nodes, env)
    decreases nodes, 0
  {
    if nodes != [] {
      ModernizePreserves(nodes[0], env);
      ModernizeAllPreserves(nodes[1..], env);
      assert ModernizeAll(nodes)[1..] == ModernizeAll(nodes[1..]);
    }
  }

  /** No node that evaluation can reach is a legacy condition. */
  predicate IsModern(node: Json)
    decreases node, 1
  {
    if IsPrimitive(node) then true
    else if IsCompound(node) then
      var i := IndexOfKey(node.fields, "conditions");
      i.Some? && node.fields[i.value].value.Arr? ==> AllModern(node.fields[i.value].value.items)
    else IsSimple(node)
  }

  predicate AllModern(nodes: seq<Json>)
    decreases nodes, 0
  {
    nodes == [] || (IsModern(nodes[0]) && AllModern(nodes[1..]))
  }

  lemma {:induction false} ModernizeIsModern(node: Json)
    ensures IsModern(Modernize(node))
    decreases node, 1
  {
    if !IsPrimitive(node) {
      if IsCompound(node) {
        var i := IndexOfKey(node.fields, "conditions");
        if i.Some? && node.fields[i.value].value.Arr? {
          var items := node.fields[i.value].value.items;
          ModernizeAllIsModern(items);
          ReplacedConditions(node.fields, i.value, ModernizeAll(items));
        }
      } else if !IsSimple(node) {
        EqConditionsAreModern(Entries(node));
        var a, b := Field("operator", Str("AND")), Field("conditions", Arr(EqConditions(Entries(node))));
        GetTwo(a, b, "operator");
        GetTwo(a, b, "conditions");
      }
    }
  }

  lemma {:induction false} ModernizeAllIsModern(nodes: seq<Json>)
    ensures AllModern(ModernizeAll(nodes))
    decreases nodes, 0
  {
    if nodes != [] {
      ModernizeIsModern(nodes[0]);
      ModernizeAllIsModern(nodes[1..]);
      assert ModernizeAll(nodes)[1..] == ModernizeAll(nodes[1..]);
    }
  }

  lemma {:induction false} EqConditionsAreModern(entries: seq<Entry>)
    ensures AllModern(EqConditions(entries))
  {
    if entries != [] {
      EqConditionsAreModern(entries[1..]);
      assert EqConditions(entries)[1..] == EqConditions(entries[1..]);
      var a, b, c := Field("field", entries[0].name), Field("op", Str("eq")), Field("value", entries[0].value);
      GetThree(a, b, c, "operator");
      GetThree(a, b, c, "field");
      GetThree(a, b, c, "op");
    }
  }

  // ---------------------------------------------------------------- evaluateTriggers and the dry run

  datatype Trigger = Trigger(eventType: string, condition: Json)

  /** The primitive entries of a payload. */
  function Flat(payload: map<string, Json>): map<string, Json> {
    map k | k in payload && IsPrimitive(payload[k]) :: payload[k]
  }

  method FlattenPayload(payload: map<string, Json>) returns (flat: map<string, Json>)
    ensures flat == Flat(payload)
  {
    flat := map[];
    var rest := payload.Keys;
    while rest != {}
      invariant rest <= payload.Keys
      invariant flat == map k | k in payload && k !in rest && IsPrimitive(payload[k]) :: payload[k]
      decreases |rest|
    {
      var key :| key in rest;
      if IsPrimitive(payload[key]) {
        flat := flat[key := payload[key]];
      }
      rest := rest - {key};
    }
  }

  /** What one trigger of the right event type says. */
  function Matches(t: Trigger, env: Env): Outcome {
    if IsFalsy(t.condition) then Ok(true) else Eval(t.condition, env)
  }

  /** A trigger without a condition always matches; so do null, false, zero and the empty string for a condition. */
  lemma EmptyConditionMatches(t: Trigger, env: Env)
    ensures t.condition in {Null, Bool(false), Num(0.0), Str("")} ==> Matches(t, env) == Ok(true)
    ensures t.condition !in {Null, Bool(false), Num(0.0), Str("")} ==> Matches(t, env) == Eval(t.condition, env)
  {
  }

  /** None of the first n triggers that listen to the event matches or throws. */
  predicate Silent(triggers: seq<Trigger>, eventPrefix: string, env: Env, n: nat)
    requires n <= |triggers|
  {
    forall k :: 0 <= k < n && triggers[k].eventType == eventPrefix ==> Matches(triggers[k], env) == Ok(false)
  }

  /** The first trigger, in order, that matches or throws decides. */
  ghost predicate FirstDecides(triggers: seq<Trigger>, eventPrefix: string, env: Env, r: Outcome) {
    if r == Ok(false) then Silent(triggers, eventPrefix, env, |triggers|)
    else exists k :: 0 <= k < |triggers| && triggers[k].eventType == eventPrefix
                     && Matches(triggers[k], env) == r && Silent(triggers, eventPrefix, env, k)
  }

  method EvaluateTriggers(triggers: seq<Trigger>, eventPrefix: string, env: Env) returns (r: Outcome)
    ensures FirstDecides(triggers, eventPrefix, env.(payload := Flat(env.payload)), r)
  {
    var flatPayload := FlattenPayload(env.payload);
    var flatEnv := env.(payload := flatPayload);
    for i := 0 to |triggers|
      invariant Silent(triggers, eventPrefix, flatEnv, i)
    {
      var t := triggers[i];
      if t.eventType == eventPrefix {
        if IsFalsy(t.condition) {
          return Ok(true);
        }
        var matched := Eval(t.condition, flatEnv);
        if matched != Ok(false) {
          return matched;
        }
      }
    }
    r := Ok(false);
  }

  /** `dryRunRule`'s filter: every trigger is tried, on the raw payload and without looking at its event type. */
  function DryRun(triggers: seq<Trigger>, env: Env): Result<seq<Trigger>, Thrown> {
    if triggers == [] then Ok([])
    else
      match DryRun(triggers[..|triggers| - 1], env)
      case Err(e) => Err(e)
      case Ok(front) =>
        var last := triggers[|triggers| - 1];
        match Matches(last, env)
        case Err(e) => Err(e)
        case Ok(b) => Ok(front + if b then [last] else [])
  }

  lemma InFrontOrLast(triggers: seq<Trigger>)
    requires triggers != []
    ensures forall t :: t in triggers <==> t in triggers[..|triggers| - 1] || t == triggers[|triggers| - 1]
  {
    assert triggers == triggers[..|triggers| - 1] + [triggers[|triggers| - 1]];
  }

  lemma {:induction false} DryRunTries(triggers: seq<Trigger>, env: Env)
    ensures var d := DryRun(triggers, env);
            && (d.Ok? <==> forall k :: 0 <= k < |triggers| ==> Matches(triggers[k], env).Ok?)
            && (d.Ok? ==> forall t :: t in d.value <==> t in triggers && Matches(t, env) == Ok(true))
  {
    if triggers != [] {
      hide Matches;
      var front, last := triggers[..|triggers| - 1], triggers[|triggers| - 1];
      DryRunTries(front, env);
      InFrontOrLast(triggers);
      assert forall k :: 0 <= k < |front| ==> triggers[k] == front[k];
    }
  }

  function FlatEnv(env: Env): Env {
    env.(payload := Flat(env.payload))
  }

  /** The comparison is with undefined, and the payload holds an array or an object, which flattening drops. */
  predicate SeesNesting(node: Json, env: Env)
    requires IsSimple(node)
  {
    && Get(node.fields, "value").None? && Get(node.fields, "op").value in {Str("eq"), Str("neq")}
    && SimpleField(node, env).Some? && !IsPrimitive(SimpleField(node, env).value)
  }

  /**
   Exactly the simple conditions that tell a payload from its flat form: there the dry run disagrees with the engine.
   */
  lemma SimpleSeesFlatteningIff(node: Json, env: Env)
    requires IsSimple(node)
    ensures EvalSimple(node, FlatEnv(env)) != EvalSimple(node, env) <==> SeesNesting(node, env)
  {
  }

  /** No simple condition that evaluation can reach sees nesting in this payload. */
  predicate Unseeing(node: Json, env: Env)
    decreases node, 1
  {
    if !node.Obj? then true
    else if IsCompound(node) then
      var i := IndexOfKey(node.fields, "conditions");
      i.Some? && node.fields[i.value].value.Arr? ==> AllUnseeing(node.fields[i.value].value.items, env)
    else IsSimple(node) ==> !SeesNesting(node, env)
  }

  predicate AllUnseeing(nodes: seq<Json>, env: Env)
    decreases nodes, 0
  {
    nodes == [] || (Unseeing(nodes[0], env) && AllUnseeing(nodes[1..], env))
  }

  lemma LegacyIgnoresFlattening(entries: seq<Entry>, env: Env)
    ensures EvalLegacy(entries, FlatEnv(env)) == EvalLegacy(entries, env)
  {
    assert forall i :: 0 <= i < |entries| ==> EntryHolds(entries[i], FlatEnv(env)) == EntryHolds(entries[i], env);
  }

  /** Trees without such a condition cannot tell a payload from its flat form. */
  lemma {:induction false} FlatteningIsInvisible(node: Json, env: Env)
    requires Unseeing(node, env)
    ensures Eval(node, FlatEnv(env)) == Eval(node, env)
    decreases node, 1
  {
    hide SeesNesting, Flat, EvalLegacy, Entries, EvalSimple, IsSimple, Get;
    if IsCompound(node) {
      var i := IndexOfKey(node.fields, "conditions");
      if i.Some? && node.fields[i.value].value.Arr? {
        FlatteningIsInvisibleToAll(node.fields[i.value].value.items, env);
      }
    } else if IsSimple(node) {
      SimpleIsObject(node);
      SimpleSeesFlatteningIff(node, env);
    } else if !IsPrimitive(node) {
      LegacyIgnoresFlattening(Entries(node), env);
    }
  }

  lemma SimpleIsObject(node: Json)
    requires IsSimple(node)
    ensures node.Obj?
  {
  }

  lemma {:induction false} FlatteningIsInvisibleToAll(nodes: seq<Json>, env: Env)
    requires AllUnseeing(nodes, env)
    ensures Every(nodes, FlatEnv(env)) == Every(nodes, env)
    ensures Any(nodes, FlatEnv(env)) == Any(nodes, env)
    decreases nodes, 0
  {
    if nodes != [] {
      FlatteningIsInvisible(nodes[0], env);
      FlatteningIsInvisibleToAll(nodes[1..], env);
    }
  }

  /** In a payload of primitive values there is nothing to see. */
  lemma {:induction false} PrimitivePayloadsAreFlat(node: Json, env: Env)
    requires Flat(env.payload) == env.payload
    ensures Unseeing(node, env)
    decreases node, 1
  {
    if IsCompound(node) {
      var i := IndexOfKey(node.fields, "conditions");
      if i.Some? && node.fields[i.value].value.Arr? {
        PrimitivePayloadsAreFlatForAll(node.fields[i.value].value.items, env);
      }
    } else if IsSimple(node) {
      SimpleSeesFlatteningIff(node, env);
    }
  }

  lemma {:induction false} PrimitivePayloadsAreFlatForAll(nodes: seq<Json>, env: Env)
    requires Flat(env.payload) == env.payload
    ensures AllUnseeing(nodes, env)
    decreases nodes, 0
  {
    if nodes != [] {
      PrimitivePayloadsAreFlat(nodes[0], env);
      PrimitivePayloadsAreFlatForAll(nodes[1..], env);
    }
  }

  predicate Agreeable(triggers: seq<Trigger>, env: Env) {
    forall k :: 0 <= k < |triggers| ==> IsFalsy(triggers[k].condition) || Unseeing(triggers[k].condition, env)
  }

  ghost predicate EngineMatches(triggers: seq<Trigger>, env: Env) {
    exists e :: FirstDecides(triggers, e, FlatEnv(env), Ok(true))
  }

  /** The dry run lists some trigger exactly when, for some event type, evaluateTriggers answers true. */
  ghost predicate Predicts(triggers: seq<Trigger>, env: Env) {
    (DryRun(triggers, env).Ok? && DryRun(triggers, env).value != []) <==> EngineMatches(triggers, env)
  }

  /** An earlier trigger of the same event type throws, so the engine never gets to trigger k. */
  predicate Shadowed(triggers: seq<Trigger>, env: Env, k: nat)
    requires k < |triggers|
  {
    exists j | 0 <= j < k :: triggers[j].eventType == triggers[k].eventType && Matches(triggers[j], env).Err?
  }

  predicate AllMatchesShadowed(triggers: seq<Trigger>, env: Env) {
    forall k :: 0 <= k < |triggers| && Matches(triggers[k], env) == Ok(true) ==> Shadowed(triggers, env, k)
  }

  lemma MatchesAgree(triggers: seq<Trigger>, env: Env)
    requires Agreeable(triggers, env)
    ensures forall k :: 0 <= k < |triggers| ==> Matches(triggers[k], FlatEnv(env)) == Matches(triggers[k], env)
  {
    forall k | 0 <= k < |triggers| ensures Matches(triggers[k], FlatEnv(env)) == Matches(triggers[k], env) {
      if !IsFalsy(triggers[k].condition) {
        FlatteningIsInvisible(triggers[k].condition, env);
      }
    }
  }

  /** The engine matches for some event type exactly when a matching trigger has no throwing one before it. */
  lemma EngineMatchesIff(triggers: seq<Trigger>, env: Env)
    ensures EngineMatches(triggers, env) <==> !AllMatchesShadowed(triggers, FlatEnv(env))
  {
    hide Matches, FlatEnv;
    var flat := FlatEnv(env);
    if !AllMatchesShadowed(triggers, flat) {
      var k :| 0 <= k < |triggers| && Matches(triggers[k], flat) == Ok(true) && !Shadowed(triggers, flat, k);
      FirstMatch(triggers, flat, triggers[k].eventType, k);
    }
    if EngineMatches(triggers, env) {
      var e :| FirstDecides(triggers, e, flat, Ok(true));
      var k :| 0 <= k < |triggers| && triggers[k].eventType == e && Matches(triggers[k], flat) == Ok(true)
               && Silent(triggers, e, flat, k);
      assert !Shadowed(triggers, flat, k);
    }
  }

  lemma ShadowsAgree(triggers: seq<Trigger>, env: Env)
    requires Agreeable(triggers, env)
    ensures AllMatchesShadowed(triggers, FlatEnv(env)) <==> AllMatchesShadowed(triggers, env)
  {
    hide Matches, FlatEnv, Agreeable;
    MatchesAgree(triggers, env);
    forall k | 0 <= k < |triggers| ensures Shadowed(triggers, FlatEnv(env), k) <==> Shadowed(triggers, env, k) {
    }
  }

  lemma DryRunFinds(triggers: seq<Trigger>, env: Env)
    requires DryRun(triggers, env).Ok?
    ensures DryRun(triggers, env).value == [] <==> AllMatchesShadowed(triggers, env)
  {
    hide Matches;
    var d := DryRun(triggers, env).value;
    DryRunTries(triggers, env);
    forall k | 0 <= k < |triggers| ensures !Shadowed(triggers, env, k) {
    }
    if d != [] {
      assert d[0] in triggers;
      var k :| 0 <= k < |triggers| && triggers[k] == d[0];
      assert !Shadowed(triggers, env, k);
    }
    forall k | 0 <= k < |triggers| && Matches(triggers[k], env) == Ok(true) ensures d != [] {
      assert triggers[k] in d;
    }
  }

  /**
   On primitive payloads, and on others where no condition sees nesting, a dry run predicts the engine if and only if
   it does not throw, or every match of the engine is cut off by an exception as well.
   */
  lemma DryRunPredictsEngineIff(triggers: seq<Trigger>, env: Env)
    requires Flat(env.payload) == env.payload || Agreeable(triggers, env)
    ensures Predicts(triggers, env) <==> DryRun(triggers, env).Ok? || AllMatchesShadowed(triggers, env)
  {
    if Flat(env.payload) == env.payload {
      forall k | 0 <= k < |triggers| ensures Unseeing(triggers[k].condition, env) {
        PrimitivePayloadsAreFlat(triggers[k].condition, env);
      }
    }
    hide Matches, Agreeable, Flat;
    ShadowsAgree(triggers, env);
    EngineMatchesIff(triggers, env);
    if DryRun(triggers, env).Ok? {
      DryRunFinds(triggers, env);
    }
  }

  lemma OneTriggerDryRun(t: Trigger, env: Env)
    requires Matches(t, env).Ok?
    ensures DryRun([t], env).Ok? && (DryRun([t], env).value != [] <==> Matches(t, env) == Ok(true))
  {
    hide Matches;
    DryRunTries([t], env);
    var d := DryRun([t], env);
    assert d.value == [] || d.value[0] in d.value;
    if Matches(t, env) == Ok(true) {
      assert t in [t] && t in d.value;
    }
  }

  lemma OneTriggerEngine(t: Trigger, env: Env)
    ensures EngineMatches([t], env) <==> Matches(t, FlatEnv(env)) == Ok(true)
  {
    hide Matches, FlatEnv;
    var ts, flat := [t], FlatEnv(env);
    if Matches(t, flat) == Ok(true) {
      assert ts[0].eventType == t.eventType && Matches(ts[0], flat) == Ok(true) && Silent(ts, t.eventType, flat, 0);
      assert FirstDecides(ts, t.eventType, flat, Ok(true));
    }
  }

  lemma SimpleTriggerMatches(t: Trigger, env: Env)
    requires IsSimple(t.condition) && !IsCompound(t.condition)
    ensures Matches(t, env) == Ok(EvalSimple(t.condition, env))
  {
  }

  /** For a rule with one simple condition the prediction is right exactly when the condition does not see nesting. */
  lemma SingleConditionPredictedIff(t: Trigger, env: Env)
    requires IsSimple(t.condition) && !IsCompound(t.condition)
    ensures Predicts([t], env) <==> !SeesNesting(t.condition, env)
  {
    hide Matches, SeesNesting, EvalSimple, FlatEnv, DryRun, EngineMatches;
    SimpleSeesFlatteningIff(t.condition, env);
    SimpleTriggerMatches(t, env);
    SimpleTriggerMatches(t, FlatEnv(env));
    OneTriggerDryRun(t, env);
    OneTriggerEngine(t, env);
  }

  /** Both failures exist: a comparison with a missing value on a nested field, */
  lemma MissingValueSeesFlattening(env: Env)
    requires env.payload == map["nested" := Obj([])]
    ensures var node := Obj([Field("field", Str("nested")), Field("op", Str("eq"))]);
            IsSimple(node) && !IsCompound(node) && SeesNesting(node, env)
  {
    var a, b := Field("field", Str("nested")), Field("op", Str("eq"));
    GetTwo(a, b, "operator");
    GetTwo(a, b, "field");
    GetTwo(a, b, "op");
    GetTwo(a, b, "value");
  }

  /** and a malformed condition of another event type. */
  lemma MalformedConditionSpoilsDryRun(env: Env)
    ensures var ts := [Trigger("a", Bool(true)), Trigger("b", Null)];
            Agreeable(ts, env) && !DryRun(ts, env).Ok? && !AllMatchesShadowed(ts, env)
  {
    var ts := [Trigger("a", Bool(true)), Trigger("b", Null)];
    DryRunTries(ts, env);
    assert Matches(ts[0], env) == Err(TypeError) && Matches(ts[1], env) == Ok(true);
    assert !Shadowed(ts, env, 1);
  }

  lemma {:induction false} FirstMatch(triggers: seq<Trigger>, env: Env, e: string, k: nat)
    requires k < |triggers| && triggers[k].eventType == e && Matches(triggers[k], env) == Ok(true)
    requires forall j :: 0 <= j < k && triggers[j].eventType == e ==> Matches(triggers[j], env).Ok?
    ensures FirstDecides(triggers, e, env, Ok(true))
    decreases k
  {
    hide Matches;
    if Silent(triggers, e, env, k) {
    } else {
      var j: nat :| j < k && triggers[j].eventType == e && Matches(triggers[j], env) != Ok(false);
      var Ok(matched) := Matches(triggers[j], env);
      assert matched;
      FirstMatch(triggers, env, e, j);
    }
  }
}
