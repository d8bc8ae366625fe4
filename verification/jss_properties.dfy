/**
 Properties relating several calls of the engine: the inline form of
 `createRule`, what the options fast path skips and what it keeps, the
 precedence of caller options, and how `setup` and `use` compose.
 */
module JssProperties {
  import opened JsValue
  import opened Collaborators
  import opened Jss

  /** An independent, key-by-key statement of the options a rule sees: the
      caller's own value when the caller gave the key (even a falsy one),
      otherwise the engine's default for that key, otherwise undefined. */
  function ExpectedRuleOption(env: Env, e: Engine, options: Value, key: string): Value {
    var own := OwnProps(env.host, options);
    if key in own then own[key]
    else if key == "jss" then SelfRef(e)
    else if key == "Renderer" then env.findRenderer(options)
    else if key == "generateClassName" then Setting(e, "generateClassName")
    else Undefined
  }

  /** On the slow path, every key of the built options is the caller's value if
      the caller gave one and the default otherwise. */
  lemma BuiltOptionsFollowCallerPrecedence(env: Env, e: Engine, options: Value)
    requires NeedsDefaults(env.host, options)
    ensures forall key :: Prop(env.host, ResolveOptions(env, e, options).options, key)
                          == ExpectedRuleOption(env, e, options, key)
  {
  }

  /** The fast path is an optimisation that changes one thing only: every key
      but `jss` reads as the slow path would have built it, while `jss` is
      whatever the caller's options hold (nothing is added). */
  lemma FastPathDiffersOnlyInJss(env: Env, e: Engine, options: Value)
    requires !NeedsDefaults(env.host, options)
    ensures forall key :: key != "jss" ==>
      Prop(env.host, ResolveOptions(env, e, options).options, key)
      == ExpectedRuleOption(env, e, options, key)
    ensures Prop(env.host, ResolveOptions(env, e, options).options, "jss")
            == Prop(env.host, options, "jss")
  {
  }

  /** A caller key that is present but falsy still wins over the default: the
      `||` fallback for generateClassName only takes effect when the key is
      absent. */
  lemma FalsyCallerGeneratorWins(env: Env, e: Engine, options: Value)
    requires "generateClassName" in OwnProps(env.host, options)
    requires !IsTruthy(OwnProps(env.host, options)["generateClassName"])
    ensures NeedsDefaults(env.host, options)
    ensures Prop(env.host, ResolveOptions(env, e, options).options, "generateClassName")
            == OwnProps(env.host, options)["generateClassName"]
  {
  }

  /** `createRule(style, options)` with an object-typed style is the same call
      as `createRule(undefined, style, options)`: same calls, same rule; a third
      argument is ignored. */
  lemma InlineFormIsAnonymous(env: Env, e: Engine, style: Value, options: Value, ignored: Value)
    requires TypeOf(style) == "object"
    ensures CreateRule(env, e, style, options, ignored) == CreateRule(env, e, Undefined, style, options)
  {
  }

  /** Caller options carrying a truthy Renderer and generateClassName reach
      the rule constructor as given (so the rule sees the caller's Renderer
      and generator), and findRenderer is never asked. */
  lemma FastPathKeepsCallerOptions(env: Env, e: Engine, name: Value, style: Value, options: Value)
    requires TypeOf(name) != "object"
    requires IsTruthy(options)
    requires IsTruthy(Prop(env.host, options, "Renderer"))
    requires IsTruthy(Prop(env.host, options, "generateClassName"))
    ensures var c := CreateRule(env, e, name, style, options);
      && c.trace == [MakeRule(name, style, options), ProcessRule(c.result)]
      && !CallsFindRenderer(c.trace)
  {
  }

  /** The configuration `setup` stores depends on its argument only: nothing
      of the previous configuration survives. */
  lemma SetupReplacesConfiguration(env: Env, e1: Engine, e2: Engine, arg: Value)
    requires arg != Null
    requires PluginListOk(Prop(env.host, arg, "plugins"))
    ensures Setup(env, e1, arg).options == Setup(env, e2, arg).options
  {
  }

  /** `setup()` behaves as `setup({})`. */
  lemma SetupWithoutArgumentIsEmptySetup(env: Env, e: Engine)
    ensures Setup(env, e, Undefined) == Setup(env, e, Obj(map[]))
  {
  }

  /** A `setup` without a generateClassName brings back the built-in generator,
      whatever generator an earlier `setup` installed. */
  lemma SetupForgetsEarlierGenerator(env: Env, e: Engine, earlier: Value, later: Value)
    requires earlier != Null && later != Null
    requires PluginListOk(Prop(env.host, earlier, "plugins"))
    requires PluginListOk(Prop(env.host, later, "plugins"))
    requires "generateClassName" !in OwnProps(env.host, later)
    ensures Setting(Setup(env, Setup(env, e, earlier), later), "generateClassName")
            == GenerateClassNameDefault
  {
  }

  /** Plugins accumulate over `setup` calls: the second call appends its list
      after the first call's, without removing or de-duplicating. */
  lemma SetupAccumulatesPlugins(env: Env, e: Engine, first: Value, second: Value)
    requires first != Null && second != Null
    requires PluginListOk(Prop(env.host, first, "plugins"))
    requires PluginListOk(Prop(env.host, second, "plugins"))
    ensures Setup(env, Setup(env, e, first), second).plugins
            == e.plugins + PluginList(Prop(env.host, first, "plugins"))
                         + PluginList(Prop(env.host, second, "plugins"))
  {
  }

  /** `use(a)` then `use(b)` registers exactly what `use(...a, ...b)` does. */
  lemma UseComposes(e: Engine, a: seq<Value>, b: seq<Value>)
    ensures Use(Use(e, a), b) == Use(e, a + b)
  {
  }

  /** Registering a plugin twice keeps both registrations. */
  lemma UseKeepsDuplicates(e: Engine, p: Value)
    ensures Use(e, [p, p]).plugins == e.plugins + [p, p]
    ensures |Use(e, [p, p]).plugins| == |e.plugins| + 2
  {
  }
}
