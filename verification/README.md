# Jss engine orchestration, modelled in Dafny

This project models the `Jss` class of the jss styling library (`src/Jss.js`).
That class is the engine's orchestrator. It keeps an ordered registry of
plugins and a configuration record. It builds rules and style sheets by
merging engine defaults with caller options. It hands every new rule to the
plugins' `onProcessRule` hook.

The engine is an immutable record `Jss.Engine(id, plugins, options)`. Each
operation is a pure function. Operations that call collaborators return the
calls they made, in order, as a trace of `Collaborators.Event`s. These are
findRenderer, the rule constructor, `onProcessRule`, `new StyleSheet`,
`sheet.detach` and `sheets.remove`. The values the collaborators return come
from the uninterpreted functions of a `Collaborators.Env`.

JavaScript values are the `JsValue.Value` datatype. The module models
`typeof` (where `typeof null` is `"object"`) and truthiness. It also models
own enumerable properties, which is what object spread copies. Destructuring
and `options.generateClassName` are modelled as reading those same properties
(see "## Left out" for what an ordinary property read sees beyond them).
Spreading an array or a string yields decimal index keys.
`DecimalKeyInjective` proves that no element is lost this way.

Modules:
- `JsValue` (js_value.dfy): values, `typeof`, truthiness, `||`, own properties.
- `Collaborators` (collaborators.dfy): the trace events, the environment, and the built-in class-name generator.
- `Jss` (jss.dfy): the engine operations.
- `JssProperties` (jss_properties.dfy): lemmas relating two or more calls.
- `JssSession` (jss_session.dfy): an engine driven through any sequence of calls.
- `SheetsRegistry` (sheets_registry.dfy): the sheet registry as a set of live sheets, rebuilt by replaying a trace.

Two behaviours of the code differ from what one might expect, and the model follows the code:
- `createStyleSheet` lets a caller-supplied `jss` key override the engine reference. The reference is not always injected.
- `setup` replaces the configuration with the new argument. Nothing of the previous configuration is merged in. In particular, a `setup` without `generateClassName` goes back to the built-in generator.

## Model

| member | source | states |
|---|---|---|
| Jss.Use | src/Jss.js:86-89 | `use(...ps)` appends exactly `ps`, in argument order, after the plugins already registered, with no de-duplication. It leaves the configuration and the engine's identity unchanged. |
| Jss.SetupOptions | src/Jss.js:26-29 | The stored configuration has the argument's own keys plus `generateClassName`. Every other key keeps the caller's value. `generateClassName` is always truthy: it is the caller's value when that is truthy and the built-in generator otherwise. |
| Jss.Setup | src/Jss.js:25-33 | `setup(arg)` replaces the configuration with the one built from `arg` alone, with `setup()` read as `setup({})`. It appends the `plugins` option's plugins after the existing ones, and appends nothing when that option is falsy. |
| Jss.NewEngine | src/Jss.js:20-23 | A new engine's plugins are the internal plugins followed by its `plugins` option. Its configuration is the one `setup` builds from the constructor argument. |
| Jss.SheetOptions | src/Jss.js:39-43 | The sheet options hold `jss` (the engine), `generateClassName` (the engine's generator) and every caller key. A caller key overrides either default, `jss` included. |
| Jss.CreateStyleSheet | src/Jss.js:38-44 | Exactly one StyleSheet construction, with the given styles and the sheet options. The constructed sheet is returned. |
| Jss.RemoveStyleSheet | src/Jss.js:49-53 | Detaches the sheet, then removes it from the registry, in that order. Makes no other call and returns the engine unchanged. |
| Jss.Disambiguate | src/Jss.js:60-64 | When the first argument's `typeof` is "object" (null included), the name becomes undefined, the style is the first argument and the options are the second. Otherwise the arguments are kept. The resulting name is never object-typed. |
| Jss.ResolveOptions | src/Jss.js:66-75 | Fast path: when the options are truthy and have a truthy Renderer and generateClassName, they are used as given and findRenderer is not called. Slow path: findRenderer is called once on the original options. The result has keys `jss`, `Renderer`, `generateClassName` plus the caller's keys. Caller values win. Absent keys take the engine, the found renderer and the engine's generator. |
| Jss.CreateRule | src/Jss.js:58-81 | The calls are exactly, in order: findRenderer on the disambiguated options (only when they need defaults), the rule constructor with the disambiguated name and style and the resolved options, and `onProcessRule` on the rule it built. That same rule is returned. |
| JssProperties.BuiltOptionsFollowCallerPrecedence | src/Jss.js:68-75 | On the slow path, each key of the rule options equals a key-by-key reference: the caller's value if present (even falsy), else the default for `jss`/`Renderer`/`generateClassName`, else undefined. |
| JssProperties.FastPathDiffersOnlyInJss | src/Jss.js:66-75 | On the fast path, every key except `jss` reads as the slow path would have built it. `jss` is whatever the caller's options hold. |
| JssProperties.FalsyCallerGeneratorWins | src/Jss.js:67-75 | A caller `generateClassName` that is present but falsy forces the slow path and still overrides the engine's generator. |
| JssProperties.InlineFormIsAnonymous | src/Jss.js:60-64 | `createRule(style, options, x)` with an object-typed style makes the same calls and returns the same rule as `createRule(undefined, style, options)`. |
| JssProperties.FastPathKeepsCallerOptions | src/Jss.js:66-78 | With a truthy Renderer and generateClassName and a non-object name, the trace is exactly: build the rule with the caller's options unchanged, then process it. findRenderer is never called. |
| JssProperties.SetupReplacesConfiguration | src/Jss.js:25-29 | The configuration after `setup(arg)` does not depend on the previous configuration. |
| JssProperties.SetupWithoutArgumentIsEmptySetup | src/Jss.js:25 | `setup()` and `setup({})` yield the same engine. |
| JssProperties.SetupForgetsEarlierGenerator | src/Jss.js:26-29 | A `setup` whose argument has no `generateClassName` installs the built-in generator, whatever an earlier `setup` installed. |
| JssProperties.SetupAccumulatesPlugins | src/Jss.js:30-31 | Two `setup` calls register the first call's plugin list and then the second's, after the existing plugins. |
| JssProperties.UseComposes | src/Jss.js:86-88 | `use(a)` followed by `use(b)` equals `use(...a, ...b)`. |
| JssProperties.UseKeepsDuplicates | src/Jss.js:86-88 | Registering the same plugin twice keeps both registrations. |
| JssSession.RunRegistersInOrder | src/Jss.js:20-89 | After any sequence of calls, the plugins are the starting ones followed by every plugin those calls named, in call order and argument order. The engine's identity is unchanged. |
| JssSession.InternalPluginsStayFirst | src/Jss.js:20-23 | For an engine built by the constructor, the internal plugins remain a prefix of the plugin sequence after any sequence of calls. |
| JssSession.ConfigurationComesFromLastSetup | src/Jss.js:25-29 | After any sequence of calls, the configuration is the one built by the last `setup`, or the starting one if there was no `setup`. No other call changes it. |
| JssSession.OnePluginPassPerRule | src/Jss.js:77-78 | In any sequence of calls, the `onProcessRule` calls the engine itself makes are exactly as many as its `createRule` calls. Rules a StyleSheet builds while it is constructed are not counted. |
| SheetsRegistry.CreateThenRemoveRestoresRegistry | src/Jss.js:38-53 | `createStyleSheet` followed by `removeStyleSheet` of the new sheet leaves the registry without that sheet, and exactly as before when it was not there. The sheet is detached exactly once and the engine is unchanged. |
| SheetsRegistry.RemovalIsIdempotentOnRegistry | src/Jss.js:49-53 | Removing a sheet takes it out of the registry. Removing it again changes the registry no further. |
| SheetsRegistry.CreateRuleLeavesRegistry | src/Jss.js:58-81 | `createRule` neither adds nor removes a sheet. |

## Left out

- Plugin hook dispatch inside PluginsRegistry: fan-out in registration order, skipping plugins without the hook, and in-place mutation seen by later plugins. PluginsRegistry.js is not part of this model, so `onProcessRule` is one `ProcessRule` event, and `PluginsRegistry.use` is taken to be an unconditional append.
- Exceptions from collaborators: findRenderer, the rule constructor, plugins and StyleSheet. Each is a total function of its arguments here, so no error path is modelled.
- Jss.Setup: `setup(null)` throws in the source. The requires `arg != Null` excludes it.
- Jss.Setup: a truthy `plugins` option that is not an array is excluded by a requires. The source's Flow type says `Array<Plugin>`. A primitive there makes `apply` throw, and an array-like object would be read through its `length`.
- Jss.NewEngine: has the same two exclusions as Jss.Setup, because it calls `setup`.
- JssSession.OnePluginPassPerRule: counts only the `onProcessRule` calls in Jss.js itself. The rules `new StyleSheet` builds for `createStyleSheet` also go through that hook, inside StyleSheet, and are not counted.
- StyleSheet internals: the rules a sheet creates and self-registration. `SheetsRegistry.Effect` takes "a sheet registers itself when constructed" as the StyleSheet constructor's contract, and `sheets.remove` as set removal. StyleSheet.js and sheets.js are not part of this model.
- The bodies of findRenderer (environment detection), the rule constructor and the default class-name generator. They appear only as `Env` functions and as the reserved function value `GenerateClassNameDefault`.
- `version` / `__VERSION__` and the Flow annotations.
- Property order: spread keeps insertion order, and maps have none.
- Object identity of plain objects and arrays: the fast path passes the caller's object itself, and the model passes the same value.
- Numbers are integers: NaN (falsy), fractions and -0 are not modelled. Symbol and BigInt values are not modelled.
- The own enumerable properties of class instances (the engine, sheets, rules) come from `Env.host`. Functions are taken to have none.
- Jss.ResolveOptions: reads `Renderer` and `generateClassName` as own properties only. The destructuring at src/Jss.js:67 also finds properties inherited through a prototype chain. So a class-instance option (`Ref`) whose `Renderer`/`generateClassName` comes from its prototype takes the fast path in the source and the slow path here. The same holds for a non-enumerable own property (set with `Object.defineProperty`), which the source reads and which `Obj` cannot represent at all. For the enumerable own properties of plain objects and arrays, and for primitives, the model and the source read the same value, unless a built-in prototype has been given one of these keys.
- Jss.SetupOptions: reads `generateClassName` as an own enumerable property only. The read at src/Jss.js:28 also sees an inherited or a non-enumerable one. The spreads at src/Jss.js:27, 42 and 73 copy own properties, as modelled.
- Jss.RemoveStyleSheet: a value with no `detach` method (undefined, null, a number) makes src/Jss.js:50 throw before `sheets.remove` runs. The model has no error path and records both calls. SheetsRegistry.RemovalIsIdempotentOnRegistry and SheetsRegistry.CreateThenRemoveRestoresRegistry therefore speak of values a real sheet would be.
- JsValue.OwnProps: spreading a string yields one key per UTF-16 code unit. The model yields one key per Dafny `char`, which is a Unicode scalar value, so characters outside the Basic Multilingual Plane give one key instead of two.
- SheetsRegistry.Replay: a constructed sheet is the value `Env.newStyleSheet` returns for the styles and options, and a rule is the value `Env.makeRule` returns for its arguments. Neither is a fresh object. So two `createStyleSheet` calls with equal arguments give one sheet value, and the replayed registry holds it once: removing it removes both, while in the source each `new StyleSheet` (src/Jss.js:39) is a distinct object and the second one stays registered. The lemmas state what holds for one sheet value. SheetsRegistry.CreateThenRemoveRestoresRegistry takes `c.result !in live` as the hypothesis of its "exactly as before" conjunct, because in the source a new sheet is always fresh.
