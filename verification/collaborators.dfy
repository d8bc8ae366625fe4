/**
 The collaborators the engine calls but whose code is not part of this model:
 renderer detection, the rule constructor, the StyleSheet class, the plugin
 registry's rule hook and the process-wide sheet registry. Each call the engine
 makes to one of them is recorded as an `Event`; the values they return are
 given by the uninterpreted functions of an `Env`.
 */
module Collaborators {
  import opened JsValue

  /** One call from the engine into a collaborator, in the order it is made. */
  datatype Event =
    | FindRenderer(options: Value)                         // utils/findRenderer
    | MakeRule(name: Value, style: Value, options: Value)  // utils/createRule
    | ProcessRule(rule: Value)                             // plugins.onProcessRule
    | NewStyleSheet(styles: Value, options: Value, sheet: Value) // new StyleSheet
    | Detach(sheet: Value)                                 // sheet.detach
    | RemoveSheet(sheet: Value)                            // sheets.remove

  /** The collaborators' results, as functions of their arguments, plus the
      bundle of internal plugins every engine installs first and the own
      properties of host objects. */
  datatype Env = Env(
    internalPlugins: seq<Value>,
    findRenderer: Value -> Value,
    makeRule: (Value, Value, Value) -> Value,
    newStyleSheet: (Value, Value) -> Value,
    host: HostProps)

  /** The built-in class-name generator (utils/generateClassName), a function
      reserved the identity 0. */
  const GenerateClassNameDefault: Value := Fn(0)
}
