/**
 The Jss engine (src/Jss.js): an immutable record of its registered plugins
 and its configuration, with `use`, `setup`, the constructor, `createRule`,
 `createStyleSheet` and `removeStyleSheet` as pure functions. Operations that
 call collaborators return the calls they made, in order, as a trace.
 */
module Jss {
  import opened JsValue
  import opened Collaborators

  /** A Jss instance: its identity, the plugins its PluginsRegistry holds in
      registration order, and its current configuration (`this.options`). */
  datatype Engine = Engine(id: nat, plugins: seq<Value>, options: map<string, Value>)

  /** What an operation returning a value produced, with the calls it made. */
  datatype Call = Call(result: Value, trace: seq<Event>)

  /** What an operation returning the engine (for chaining) produced, with the
      calls it made. */
  datatype Step = Step(engine: Engine, trace: seq<Event>)

  /** The arguments of `createRule` once the inline form has been recognised. */
  datatype RuleArgs = RuleArgs(name: Value, style: Value, options: Value)

  /** The options a rule is built with, and the calls made to find them. */
  datatype Resolution = Resolution(options: Value, trace: seq<Event>)

  /** `this`, as a value stored under the `jss` option. */
  function SelfRef(e: Engine): Value {
    Ref(e.id)
  }

  /** `this.options[key]`. */
  function Setting(e: Engine, key: string): Value {
    if key in e.options then e.options[key] else Undefined
  }

  /** PluginsRegistry.use: append, with no de-duplication and no check of
      which hooks the plugin implements. */
  function Register(registry: seq<Value>, plugin: Value): seq<Value> {
    registry + [plugin]
  }

  /** `use(...plugins)`: registers each plugin in turn (src/Jss.js:86-89). */
  function Use(e: Engine, ps: seq<Value>): (r: Engine)
    ensures r.plugins == e.plugins + ps
    ensures r.id == e.id && r.options == e.options
    decreases |ps|
  {
    if ps == [] then e
    else
      var r := Use(e.(plugins := Register(e.plugins, ps[0])), ps[1..]);
      assert ps == [ps[0]] + ps[1..];
      r
  }

  /** The `plugins` values `setup` can install: none, or an array of plugins
      (any falsy value installs nothing). */
  predicate PluginListOk(v: Value) {
    !IsTruthy(v) || v.Arr?
  }

  /** The plugins a `plugins` option value installs. */
  function PluginList(v: Value): seq<Value> {
    if IsTruthy(v) && v.Arr? then v.elems else []
  }

  /** The configuration `setup(options)` stores: every own property of the
      argument, with `generateClassName` made truthy by falling back to the
      built-in generator. */
  function SetupOptions(host: HostProps, options: Value): (c: map<string, Value>)
    ensures c.Keys == OwnProps(host, options).Keys + {"generateClassName"}
    ensures forall k :: k in OwnProps(host, options) && k != "generateClassName" ==>
      c[k] == OwnProps(host, options)[k]
    ensures IsTruthy(c["generateClassName"])
    ensures IsTruthy(Prop(host, options, "generateClassName")) ==>
      c["generateClassName"] == Prop(host, options, "generateClassName")
    ensures !IsTruthy(Prop(host, options, "generateClassName")) ==>
      c["generateClassName"] == GenerateClassNameDefault
  {
    OwnProps(host, options)["generateClassName" :=
      Or(Prop(host, options, "generateClassName"), GenerateClassNameDefault)]
  }

  /** `setup(options)` (src/Jss.js:25-33). `setup(null)` throws and is
      excluded; a truthy `plugins` option must be an array. */
  function Setup(env: Env, e: Engine, arg: Value): (r: Engine)
    requires arg != Null
    requires PluginListOk(Prop(env.host, arg, "plugins"))
    ensures r.id == e.id
    ensures r.options == SetupOptions(env.host, arg)
    ensures r.plugins == e.plugins + PluginList(Prop(env.host, arg, "plugins"))
  {
    var options := if arg == Undefined then Obj(map[]) else arg;
    var configured := e.(options := SetupOptions(env.host, options));
    var plugins := Setting(configured, "plugins");
    if IsTruthy(plugins) then Use(configured, plugins.elems) else configured
  }

  /** `new Jss(options)` (src/Jss.js:20-23): installs the internal plugins,
      then runs `setup(options)`. The fresh instance's identity is `id`. */
  function NewEngine(env: Env, id: nat, arg: Value): (r: Engine)
    requires arg != Null
    requires PluginListOk(Prop(env.host, arg, "plugins"))
    ensures r.id == id
    ensures r.plugins == env.internalPlugins + PluginList(Prop(env.host, arg, "plugins"))
    ensures r.options == SetupOptions(env.host, arg)
  {
    Setup(env, Use(Engine(id, [], map[]), env.internalPlugins), arg)
  }

  /** The options `createStyleSheet` hands to StyleSheet: the engine reference
      and its class-name generator, each overridden by a caller key. */
  function SheetOptions(env: Env, e: Engine, options: Value): (m: map<string, Value>)
    ensures m.Keys == {"jss", "generateClassName"} + OwnProps(env.host, options).Keys
    ensures forall k :: k in OwnProps(env.host, options) ==> m[k] == OwnProps(env.host, options)[k]
    ensures "jss" !in OwnProps(env.host, options) ==> m["jss"] == SelfRef(e)
    ensures "generateClassName" !in OwnProps(env.host, options) ==>
      m["generateClassName"] == Setting(e, "generateClassName")
  {
    map["jss" := SelfRef(e), "generateClassName" := Setting(e, "generateClassName")]
      + OwnProps(env.host, options)
  }

  /** `createStyleSheet(styles, options)` (src/Jss.js:38-44): one StyleSheet
      construction, whose result is returned. */
  function CreateStyleSheet(env: Env, e: Engine, styles: Value, options: Value): (c: Call)
    ensures |c.trace| == 1 && c.trace[0].NewStyleSheet?
    ensures c.trace[0].styles == styles && c.trace[0].sheet == c.result
    ensures c.trace[0].options == Obj(SheetOptions(env, e, options))
    ensures c.result == env.newStyleSheet(styles, c.trace[0].options)
  {
    var opts := Obj(SheetOptions(env, e, options));
    var sheet := env.newStyleSheet(styles, opts);
    Call(sheet, [NewStyleSheet(styles, opts, sheet)])
  }

  /** `removeStyleSheet(sheet)` (src/Jss.js:49-53): detach first, deregister
      second, and hand back the engine as it was. */
  function RemoveStyleSheet(e: Engine, sheet: Value): (s: Step)
    ensures s.engine == e
    ensures s.trace == [Detach(sheet), RemoveSheet(sheet)]
  {
    Step(e, [Detach(sheet), RemoveSheet(sheet)])
  }

  /** The inline form of `createRule` (src/Jss.js:60-64): an object-typed first
      argument (including `null`) is the style, and the arguments shift. */
  function Disambiguate(name: Value, style: Value, options: Value): (a: RuleArgs)
    ensures TypeOf(a.name) != "object"
    ensures TypeOf(name) != "object" ==> a == RuleArgs(name, style, options)
    ensures TypeOf(name) == "object" ==> a.name == Undefined && a.style == name && a.options == style
  {
    if TypeOf(name) == "object" then RuleArgs(Undefined, name, style)
    else RuleArgs(name, style, options)
  }

  /** The test of src/Jss.js:67-68: the options must be built unless the
      caller gave options with a truthy Renderer and generateClassName. */
  predicate NeedsDefaults(host: HostProps, options: Value) {
    var given := Or(options, Obj(map[]));
    || !IsTruthy(options)
    || !IsTruthy(Prop(host, given, "Renderer"))
    || !IsTruthy(Prop(host, given, "generateClassName"))
  }

  /** The options `createRule` builds the rule with (src/Jss.js:66-75). */
  function ResolveOptions(env: Env, e: Engine, options: Value): (r: Resolution)
    ensures !NeedsDefaults(env.host, options) ==> r == Resolution(options, [])
    ensures NeedsDefaults(env.host, options) ==>
      && r.trace == [FindRenderer(options)]
      && r.options.Obj?
      && r.options.props.Keys
         == {"jss", "Renderer", "generateClassName"} + OwnProps(env.host, options).Keys
      && (forall k :: k in OwnProps(env.host, options) ==>
            r.options.props[k] == OwnProps(env.host, options)[k])
      && ("jss" !in OwnProps(env.host, options) ==> r.options.props["jss"] == SelfRef(e))
      && ("Renderer" !in OwnProps(env.host, options) ==>
            r.options.props["Renderer"] == env.findRenderer(options))
      && ("generateClassName" !in OwnProps(env.host, options) ==>
            r.options.props["generateClassName"] == Setting(e, "generateClassName"))
  {
    var given := Or(options, Obj(map[]));
    var renderer := Prop(env.host, given, "Renderer");
    var generateClassName := Prop(env.host, given, "generateClassName");
    if !IsTruthy(options) || !IsTruthy(renderer) || !IsTruthy(generateClassName) then
      var defaults := map[
        "jss" := SelfRef(e),
        "Renderer" := env.findRenderer(options),
        "generateClassName" := Or(generateClassName, Setting(e, "generateClassName"))];
      Resolution(Obj(defaults + OwnProps(env.host, options)), [FindRenderer(options)])
    else
      Resolution(options, [])
  }

  /** Whether a trace contains a call to findRenderer. */
  predicate CallsFindRenderer(trace: seq<Event>) {
    exists i :: 0 <= i < |trace| && trace[i].FindRenderer?
  }

  /** `createRule(name, style, options)` (src/Jss.js:58-81). */
  function CreateRule(env: Env, e: Engine, name: Value, style: Value, options: Value): (c: Call)
    ensures 2 <= |c.trace|
    ensures c.trace[|c.trace| - 1] == ProcessRule(c.result)
    ensures forall i :: 0 <= i < |c.trace| - 1 ==> !c.trace[i].ProcessRule?
    ensures var a := Disambiguate(name, style, options);
      var resolved := ResolveOptions(env, e, a.options);
      && c.trace == resolved.trace + [MakeRule(a.name, a.style, resolved.options), ProcessRule(c.result)]
      && c.trace[|c.trace| - 2] == MakeRule(a.name, a.style, resolved.options)
      && c.result == env.makeRule(a.name, a.style, resolved.options)
      && (CallsFindRenderer(c.trace) <==> NeedsDefaults(env.host, a.options))
  {
    var a := Disambiguate(name, style, options);
    var resolved := ResolveOptions(env, e, a.options);
    var rule := env.makeRule(a.name, a.style, resolved.options);
    var trace := resolved.trace + [MakeRule(a.name, a.style, resolved.options), ProcessRule(rule)];
    assert trace[0].FindRenderer? <==> NeedsDefaults(env.host, a.options);
    Call(rule, trace)
  }
}
