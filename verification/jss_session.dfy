/**
 A session: an engine driven through a sequence of its public operations.
 The lemmas here state what holds however the calls are interleaved:
 registration order, internal plugins first, configuration replaced only by
 `setup`, and one plugin pass per created rule.
 */
module JssSession {
  import opened JsValue
  import opened Collaborators
  import opened Jss

  /** One call of the engine's public interface. */
  datatype Op =
    | UseOp(ps: seq<Value>)
    | SetupOp(arg: Value)
    | CreateRuleOp(name: Value, style: Value, options: Value)
    | CreateSheetOp(styles: Value, options: Value)
    | RemoveSheetOp(sheet: Value)

  /** The calls whose preconditions hold (only `setup` has any). */
  predicate OpOk(env: Env, op: Op) {
    op.SetupOp? ==> op.arg != Null && PluginListOk(Prop(env.host, op.arg, "plugins"))
  }

  predicate AllOk(env: Env, ops: seq<Op>) {
    forall i :: 0 <= i < |ops| ==> OpOk(env, ops[i])
  }

  /** The engine after one call, and the calls it made. */
  function Apply(env: Env, e: Engine, op: Op): Step
    requires OpOk(env, op)
  {
    match op
    case UseOp(ps) => Step(Use(e, ps), [])
    case SetupOp(arg) => Step(Setup(env, e, arg), [])
    case CreateRuleOp(name, style, options) => Step(e, CreateRule(env, e, name, style, options).trace)
    case CreateSheetOp(styles, options) => Step(e, CreateStyleSheet(env, e, styles, options).trace)
    case RemoveSheetOp(sheet) => RemoveStyleSheet(e, sheet)
  }

  /** Runs the calls in order, concatenating their traces. */
  function Run(env: Env, e: Engine, ops: seq<Op>): Step
    requires AllOk(env, ops)
    decreases |ops|
  {
    if ops == [] then Step(e, [])
    else
      var first := Apply(env, e, ops[0]);
      var rest := Run(env, first.engine, ops[1..]);
      Step(rest.engine, first.trace + rest.trace)
  }

  /** Running a non-empty sequence is running its first call, then the rest. */
  lemma RunUnfolds(env: Env, e: Engine, ops: seq<Op>)
    requires AllOk(env, ops)
    requires ops != []
    ensures var first := Apply(env, e, ops[0]);
      var rest := Run(env, first.engine, ops[1..]);
      Run(env, e, ops).engine == rest.engine && Run(env, e, ops).trace == first.trace + rest.trace
  {
  }

  /** The plugins a call registers, as its arguments say. */
  function Installs(env: Env, op: Op): seq<Value> {
    match op
    case UseOp(ps) => ps
    case SetupOp(arg) => PluginList(Prop(env.host, arg, "plugins"))
    case _ => []
  }

  function InstalledBy(env: Env, ops: seq<Op>): seq<Value>
    decreases |ops|
  {
    if ops == [] then [] else Installs(env, ops[0]) + InstalledBy(env, ops[1..])
  }

  /** One call registers exactly the plugins its arguments name, after the
      ones already there, and leaves the engine's identity alone. */
  lemma ApplyRegisters(env: Env, e: Engine, op: Op)
    requires OpOk(env, op)
    ensures Apply(env, e, op).engine.plugins == e.plugins + Installs(env, op)
    ensures Apply(env, e, op).engine.id == e.id
  {
    match op
    case UseOp(ps) =>
    case SetupOp(arg) =>
    case CreateRuleOp(name, style, options) =>
    case CreateSheetOp(styles, options) =>
    case RemoveSheetOp(sheet) =>
  }

  /** The registry ends up holding the starting plugins followed by every
      plugin the calls named, in call order and argument order, duplicates
      included; the engine's identity never changes. */
  lemma {:induction false} RunRegistersInOrder(env: Env, e: Engine, ops: seq<Op>)
    requires AllOk(env, ops)
    ensures Run(env, e, ops).engine.plugins == e.plugins + InstalledBy(env, ops)
    ensures Run(env, e, ops).engine.id == e.id
    decreases |ops|
  {
    if ops != [] {
      var first := Apply(env, e, ops[0]);
      var rest := Run(env, first.engine, ops[1..]);
      ApplyRegisters(env, e, ops[0]);
      RunRegistersInOrder(env, first.engine, ops[1..]);
      RunUnfolds(env, e, ops);
      assert InstalledBy(env, ops) == Installs(env, ops[0]) + InstalledBy(env, ops[1..]);
      AppendChains(e.plugins, first.engine.plugins, rest.engine.plugins,
                   Installs(env, ops[0]), InstalledBy(env, ops[1..]));
    }
  }

  lemma AppendChains(a: seq<Value>, b: seq<Value>, c: seq<Value>, x: seq<Value>, y: seq<Value>)
    requires b == a + x && c == b + y
    ensures c == a + (x + y)
  {
  }

  /** Whatever was registered first stays first: later calls only append. */
  lemma RunKeepsPrefix(env: Env, e: Engine, ops: seq<Op>, prefix: seq<Value>)
    requires AllOk(env, ops)
    requires prefix <= e.plugins
    ensures prefix <= Run(env, e, ops).engine.plugins
  {
    RunRegistersInOrder(env, e, ops);
    var final := Run(env, e, ops).engine.plugins;
    assert final[..|e.plugins|] == e.plugins;
    assert final[..|prefix|] == e.plugins[..|prefix|];
  }

  /** The internal plugins an engine installs on construction stay in front of
      every plugin registered later, by `use` or by `setup`. */
  lemma InternalPluginsStayFirst(env: Env, id: nat, arg: Value, ops: seq<Op>)
    requires arg != Null
    requires PluginListOk(Prop(env.host, arg, "plugins"))
    requires AllOk(env, ops)
    ensures env.internalPlugins <= Run(env, NewEngine(env, id, arg), ops).engine.plugins
  {
    var e := NewEngine(env, id, arg);
    assert e.plugins == env.internalPlugins + PluginList(Prop(env.host, arg, "plugins"));
    RunKeepsPrefix(env, e, ops, env.internalPlugins);
  }

  datatype Option<T> = None | Some(value: T)

  /** The argument of the last `setup` among the calls, if there is one. */
  function LastSetup(ops: seq<Op>): Option<Value>
    decreases |ops|
  {
    if ops == [] then None
    else
      var later := LastSetup(ops[1..]);
      if later.Some? then later
      else if ops[0].SetupOp? then Some(ops[0].arg)
      else None
  }

  /** One call keeps the configuration, unless it is a `setup`, which
      replaces it with the one built from its argument. */
  lemma ApplyConfigures(env: Env, e: Engine, op: Op)
    requires OpOk(env, op)
    ensures op.SetupOp? ==> Apply(env, e, op).engine.options == SetupOptions(env.host, op.arg)
    ensures !op.SetupOp? ==> Apply(env, e, op).engine.options == e.options
  {
    match op
    case UseOp(ps) =>
    case SetupOp(arg) =>
    case CreateRuleOp(name, style, options) =>
    case CreateSheetOp(styles, options) =>
    case RemoveSheetOp(sheet) =>
  }

  /** Only `setup` changes the configuration, and it replaces it wholesale:
      after any calls, the configuration is the one the last `setup` built,
      or the starting one when no call was a `setup`. */
  lemma {:induction false} ConfigurationComesFromLastSetup(env: Env, e: Engine, ops: seq<Op>)
    requires AllOk(env, ops)
    ensures LastSetup(ops).None? ==> Run(env, e, ops).engine.options == e.options
    ensures LastSetup(ops).Some? ==>
      Run(env, e, ops).engine.options == SetupOptions(env.host, LastSetup(ops).value)
    decreases |ops|
  {
    if ops != [] {
      var first := Apply(env, e, ops[0]);
      ApplyConfigures(env, e, ops[0]);
      ConfigurationComesFromLastSetup(env, first.engine, ops[1..]);
      RunUnfolds(env, e, ops);
    }
  }

  /** The number of plugin passes over a rule in a trace. */
  function RulePasses(trace: seq<Event>): nat
    decreases |trace|
  {
    if trace == [] then 0
    else (if trace[0].ProcessRule? then 1 else 0) + RulePasses(trace[1..])
  }

  lemma {:induction false} RulePassesAdd(a: seq<Event>, b: seq<Event>)
    ensures RulePasses(a + b) == RulePasses(a) + RulePasses(b)
    decreases |a|
  {
    if a != [] {
      assert (a + b)[0] == a[0];
      assert (a + b)[1..] == a[1..] + b;
      RulePassesAdd(a[1..], b);
    } else {
      assert a + b == b;
    }
  }

  /** The number of `createRule` calls. */
  function RulesCreated(ops: seq<Op>): nat
    decreases |ops|
  {
    if ops == [] then 0
    else (if ops[0].CreateRuleOp? then 1 else 0) + RulesCreated(ops[1..])
  }

  /** One call makes one plugin pass if it is a `createRule`, and none otherwise. */
  lemma ApplyPasses(env: Env, e: Engine, op: Op)
    requires OpOk(env, op)
    ensures RulePasses(Apply(env, e, op).trace) == if op.CreateRuleOp? then 1 else 0
  {
    var t := Apply(env, e, op).trace;
    match op
    case CreateRuleOp(name, style, options) =>
      CreateRulePassesOnce(env, e, name, style, options);
    case CreateSheetOp(styles, options) =>
      assert RulePasses(t) == RulePasses(t[1..]);
    case RemoveSheetOp(sheet) =>
      assert RulePasses(t) == RulePasses(t[1..]);
      assert RulePasses(t[1..]) == RulePasses(t[2..]);
    case UseOp(ps) =>
    case SetupOp(arg) =>
  }

  lemma CreateRulePassesOnce(env: Env, e: Engine, name: Value, style: Value, options: Value)
    ensures RulePasses(CreateRule(env, e, name, style, options).trace) == 1
  {
    var t := CreateRule(env, e, name, style, options).trace;
    var n := |t| - 1;
    assert t == t[..n] + [t[n]];
    RulePassesAdd(t[..n], [t[n]]);
    NoPassesWithoutProcessRule(t[..n]);
    assert RulePasses([t[n]]) == 1 + RulePasses([]);
  }

  /** Every `createRule` sends its rule through the plugins exactly once, and
      no other call of the engine does so itself: the `onProcessRule` calls
      the engine makes in a session are as many as its `createRule` calls.
      Rules a StyleSheet builds inside its constructor are not counted. */
  lemma {:induction false} OnePluginPassPerRule(env: Env, e: Engine, ops: seq<Op>)
    requires AllOk(env, ops)
    ensures RulePasses(Run(env, e, ops).trace) == RulesCreated(ops)
    decreases |ops|
  {
    if ops != [] {
      var first := Apply(env, e, ops[0]);
      var rest := Run(env, first.engine, ops[1..]);
      RunUnfolds(env, e, ops);
      RulePassesAdd(first.trace, rest.trace);
      ApplyPasses(env, e, ops[0]);
      OnePluginPassPerRule(env, first.engine, ops[1..]);
    }
  }

  lemma {:induction false} NoPassesWithoutProcessRule(trace: seq<Event>)
    requires forall i :: 0 <= i < |trace| ==> !trace[i].ProcessRule?
    ensures RulePasses(trace) == 0
    decreases |trace|
  {
    if trace != [] {
      NoPassesWithoutProcessRule(trace[1..]);
    }
  }
}
