/**
 The process-wide sheet registry read as a set of live sheets. A StyleSheet
 adds itself when it is constructed (that constructor is the collaborator's
 code, not part of this model); `sheets.remove` takes a sheet out and does
 nothing if it is already gone. Replaying an engine's trace over the set
 shows what the engine's calls do to the registry. A sheet here is the value
 the environment's constructor returns for its arguments, not a fresh object,
 so two constructions with equal arguments give one member of the set.
 */
module SheetsRegistry {
  import opened JsValue
  import opened Collaborators
  import opened Jss

  /** What one collaborator call does to the set of live sheets. */
  function Effect(live: set<Value>, ev: Event): set<Value> {
    match ev
    case NewStyleSheet(_, _, sheet) => live + {sheet}
    case RemoveSheet(sheet) => live - {sheet}
    case _ => live
  }

  /** The live sheets after the calls of `trace`, in order. */
  function Replay(live: set<Value>, trace: seq<Event>): set<Value>
    decreases |trace|
  {
    if trace == [] then live else Replay(Effect(live, trace[0]), trace[1..])
  }

  lemma {:induction false} ReplayConcat(live: set<Value>, a: seq<Event>, b: seq<Event>)
    ensures Replay(live, a + b) == Replay(Replay(live, a), b)
    decreases |a|
  {
    if a == [] {
      assert a + b == b;
    } else {
      assert (a + b)[0] == a[0];
      assert (a + b)[1..] == a[1..] + b;
      ReplayConcat(Effect(live, a[0]), a[1..], b);
    }
  }

  /** How many times `sheet` is detached in `trace`. */
  function Detaches(trace: seq<Event>, sheet: Value): nat
    decreases |trace|
  {
    if trace == [] then 0
    else (if trace[0] == Detach(sheet) then 1 else 0) + Detaches(trace[1..], sheet)
  }

  /** Creating a sheet and removing it at once leaves the registry as it was
      (the new sheet is absent afterwards), detaches the sheet exactly once,
      and leaves the engine unchanged. */
  lemma CreateThenRemoveRestoresRegistry(env: Env, e: Engine, styles: Value, options: Value, live: set<Value>)
    ensures var c := CreateStyleSheet(env, e, styles, options);
      var r := RemoveStyleSheet(e, c.result);
      && Replay(live, c.trace + r.trace) == live - {c.result}
      && (c.result !in live ==> Replay(live, c.trace + r.trace) == live)
      && Detaches(c.trace + r.trace, c.result) == 1
      && r.engine == e
  {
    var c := CreateStyleSheet(env, e, styles, options);
    var r := RemoveStyleSheet(e, c.result);
    var t := c.trace + r.trace;
    var sheet := c.result;
    assert t == [c.trace[0], Detach(sheet), RemoveSheet(sheet)];
    assert Replay(live, t) == Replay(live + {sheet}, t[1..]);
    assert Replay(live + {sheet}, t[1..]) == Replay(live + {sheet}, t[2..]);
    assert Replay(live + {sheet}, t[2..]) == Replay(live + {sheet} - {sheet}, t[3..]);
    assert live + {sheet} - {sheet} == live - {sheet};
    assert Detaches(t, sheet) == Detaches(t[1..], sheet);
    assert Detaches(t[1..], sheet) == 1 + Detaches(t[2..], sheet);
    assert Detaches(t[2..], sheet) == Detaches(t[3..], sheet);
  }

  /** Removing a sheet takes it out of the registry, detaching it first;
      removing it a second time changes the registry no further. */
  lemma RemovalIsIdempotentOnRegistry(e: Engine, sheet: Value, live: set<Value>)
    ensures var r := RemoveStyleSheet(e, sheet);
      && Replay(live, r.trace) == live - {sheet}
      && Replay(live, r.trace + RemoveStyleSheet(r.engine, sheet).trace) == Replay(live, r.trace)
  {
    var r := RemoveStyleSheet(e, sheet);
    RemovalTakesSheetOut(live, sheet);
    RemovalTakesSheetOut(live - {sheet}, sheet);
    ReplayConcat(live, r.trace, RemoveStyleSheet(r.engine, sheet).trace);
    assert live - {sheet} - {sheet} == live - {sheet};
  }

  lemma RemovalTakesSheetOut(live: set<Value>, sheet: Value)
    ensures Replay(live, [Detach(sheet), RemoveSheet(sheet)]) == live - {sheet}
  {
    var t := [Detach(sheet), RemoveSheet(sheet)];
    assert Replay(live, t) == Replay(live, t[1..]);
    assert Replay(live, t[1..]) == Replay(live - {sheet}, t[2..]);
  }

  /** `createRule` leaves the registry alone. */
  lemma CreateRuleLeavesRegistry(env: Env, e: Engine, name: Value, style: Value, options: Value, live: set<Value>)
    ensures Replay(live, CreateRule(env, e, name, style, options).trace) == live
  {
    var t := CreateRule(env, e, name, style, options).trace;
    NoSheetEventsKeepRegistry(live, t);
  }

  lemma {:induction false} NoSheetEventsKeepRegistry(live: set<Value>, trace: seq<Event>)
    requires forall i :: 0 <= i < |trace| ==> !trace[i].NewStyleSheet? && !trace[i].RemoveSheet?
    ensures Replay(live, trace) == live
    decreases |trace|
  {
    if trace != [] {
      NoSheetEventsKeepRegistry(live, trace[1..]);
    }
  }
}
