/**
  The signal-gating rules of the A380 engine/warning display (EWD) panel.

  The panel combines four engine-state codes and the engine-selector position
  into one "engine running or ignition on" signal, and maps that signal together
  with four per-engine "N1 degraded" flags to the CSS classes of the four grey
  connector lines drawn between the N1 gauges.

  The combiners are pure and become functions; the panel's state cells (the
  four engine-state consumers, the selector consumer, the four degraded
  subjects and the derived subjects that cache the combiners' values) become
  the class `EngineWarningDisplay`.
 */
module Ewd {

  /** Number of engines, and so of engine-state inputs and N1-degraded flags. */
  const EngineCount: nat := 4

  /** The selector code that means "ignition / start". */
  const IgnitionStartPosition: int := 2

  /** The engine-state code of an engine that is not running (and the default). */
  const EngineOff: int := 0

  /** The two class strings a connector path can carry. */
  const HideClass: string := "LightGreyLine Hide"
  const ShowClass: string := "LightGreyLine Show"

  /** Values every consumer and subject holds before any telemetry arrives. */
  const InitialEngineStates: seq<int> := [EngineOff, EngineOff, EngineOff, EngineOff]
  const InitialSelectorPosition: int := 0
  const InitialN1Degraded: seq<bool> := [false, false, false, false]

  // ---------------------------------------------------------------------------
  // The "engine running or ignition on" combiner
  // ---------------------------------------------------------------------------

  /** `eng1 !== 0 || eng2 !== 0 || ...`, folded left to right over the engine
      states in the order they are spread into the combiner. */
  function AnyEngineRunning(engineStates: seq<int>): (r: bool)
    ensures r <==> exists i :: 0 <= i < |engineStates| && engineStates[i] != EngineOff
    decreases |engineStates|
  {
    if |engineStates| == 0 then false
    else engineStates[0] != EngineOff || AnyEngineRunning(engineStates[1..])
  }

  /** The combiner of `engineRunningOrIgnitionOn`: its arguments are the four
      engine states followed by the selector position. */
  function EngineRunningOrIgnitionOn(engineStates: seq<int>, engSelectorPosition: int): (r: bool)
    requires |engineStates| == EngineCount
    ensures r <==> (engSelectorPosition == IgnitionStartPosition
                    || exists i :: 0 <= i < EngineCount && engineStates[i] != EngineOff)
  {
    var isAnyEngineRunning := AnyEngineRunning(engineStates);
    engSelectorPosition == IgnitionStartPosition || isAnyEngineRunning
  }

  /** The fold agrees with the four-way disjunction written in the source. */
  lemma AnyEngineRunningOfFour(eng1: int, eng2: int, eng3: int, eng4: int)
    ensures AnyEngineRunning([eng1, eng2, eng3, eng4])
            <==> (eng1 != 0 || eng2 != 0 || eng3 != 0 || eng4 != 0)
  {
    var s := [eng1, eng2, eng3, eng4];
    if eng1 != 0 { assert s[0] != 0; }
    if eng2 != 0 { assert s[1] != 0; }
    if eng3 != 0 { assert s[2] != 0; }
    if eng4 != 0 { assert s[3] != 0; }
  }

  /** With every input at its default the signal is off. */
  lemma InitialNotRunning()
    ensures !EngineRunningOrIgnitionOn(InitialEngineStates, InitialSelectorPosition)
  {
  }

  /** The ignition/start selector position turns the signal on whatever the
      engine states are. */
  lemma IgnitionForcesRunning(engineStates: seq<int>)
    requires |engineStates| == EngineCount
    ensures EngineRunningOrIgnitionOn(engineStates, IgnitionStartPosition)
  {
  }

  /** One engine with a non-zero state code turns the signal on whatever the
      selector position is. */
  lemma RunningEngineForcesRunning(engineStates: seq<int>, engSelectorPosition: int, i: nat)
    requires |engineStates| == EngineCount
    requires i < EngineCount && engineStates[i] != EngineOff
    ensures EngineRunningOrIgnitionOn(engineStates, engSelectorPosition)
  {
  }

  /** Conversely, with the selector anywhere but position 2 the signal is off
      exactly when every engine state is 0. */
  lemma NotRunningIffAllOff(engineStates: seq<int>, engSelectorPosition: int)
    requires |engineStates| == EngineCount
    requires engSelectorPosition != IgnitionStartPosition
    ensures !EngineRunningOrIgnitionOn(engineStates, engSelectorPosition)
            <==> engineStates == InitialEngineStates
  {
  }

  // ---------------------------------------------------------------------------
  // The four N1 connector-line combiners
  // ---------------------------------------------------------------------------

  /** Class of the line between the engine 1 and engine 2 N1 gauges. */
  function Engine1And2ConnectorClass(eng1N1Degraded: bool, eng2N1Degraded: bool,
                                     engineRunningOrIgnitionOn: bool): (c: string)
    ensures c == HideClass || c == ShowClass
    ensures c == ShowClass <==> !eng1N1Degraded && !eng2N1Degraded && engineRunningOrIgnitionOn
  {
    if eng1N1Degraded || eng2N1Degraded || !engineRunningOrIgnitionOn then HideClass else ShowClass
  }

  /** Class of the line next to the engine 2 N1 gauge. */
  function Engine2ConnectorClass(eng2N1Degraded: bool, engineRunningOrIgnitionOn: bool): (c: string)
    ensures c == HideClass || c == ShowClass
    ensures c == ShowClass <==> !eng2N1Degraded && engineRunningOrIgnitionOn
  {
    if eng2N1Degraded || !engineRunningOrIgnitionOn then HideClass else ShowClass
  }

  /** Class of the line next to the engine 3 N1 gauge. */
  function Engine3ConnectorClass(eng3N1Degraded: bool, engineRunningOrIgnitionOn: bool): (c: string)
    ensures c == HideClass || c == ShowClass
    ensures c == ShowClass <==> !eng3N1Degraded && engineRunningOrIgnitionOn
  {
    if eng3N1Degraded || !engineRunningOrIgnitionOn then HideClass else ShowClass
  }

  /** Class of the line between the engine 3 and engine 4 N1 gauges. */
  function Engine3And4ConnectorClass(eng3N1Degraded: bool, eng4N1Degraded: bool,
                                     engineRunningOrIgnitionOn: bool): (c: string)
    ensures c == HideClass || c == ShowClass
    ensures c == ShowClass <==> !eng3N1Degraded && !eng4N1Degraded && engineRunningOrIgnitionOn
  {
    if eng3N1Degraded || eng4N1Degraded || !engineRunningOrIgnitionOn then HideClass else ShowClass
  }

  /** The class strings of the four connector paths, left to right. */
  datatype ConnectorClasses = ConnectorClasses(
    engine1And2: string, engine2: string, engine3: string, engine3And4: string)

  /** The wiring of the four path-class subjects to the degraded flags
      (indexed from 0 for engine 1) and the running signal. */
  function Connectors(n1Degraded: seq<bool>, engineRunningOrIgnitionOn: bool): (c: ConnectorClasses)
    requires |n1Degraded| == EngineCount
    ensures c.engine1And2 == ShowClass <==> !n1Degraded[0] && !n1Degraded[1] && engineRunningOrIgnitionOn
    ensures c.engine2 == ShowClass <==> !n1Degraded[1] && engineRunningOrIgnitionOn
    ensures c.engine3 == ShowClass <==> !n1Degraded[2] && engineRunningOrIgnitionOn
    ensures c.engine3And4 == ShowClass <==> !n1Degraded[2] && !n1Degraded[3] && engineRunningOrIgnitionOn
  {
    ConnectorClasses(
      Engine1And2ConnectorClass(n1Degraded[0], n1Degraded[1], engineRunningOrIgnitionOn),
      Engine2ConnectorClass(n1Degraded[1], engineRunningOrIgnitionOn),
      Engine3ConnectorClass(n1Degraded[2], engineRunningOrIgnitionOn),
      Engine3And4ConnectorClass(n1Degraded[2], n1Degraded[3], engineRunningOrIgnitionOn))
  }

  /** Every connector carries one of the two class strings. */
  predicate WellFormed(c: ConnectorClasses)
  {
    && (c.engine1And2 == HideClass || c.engine1And2 == ShowClass)
    && (c.engine2 == HideClass || c.engine2 == ShowClass)
    && (c.engine3 == HideClass || c.engine3 == ShowClass)
    && (c.engine3And4 == HideClass || c.engine3And4 == ShowClass)
  }

  /** Every connector hidden. */
  predicate AllHidden(c: ConnectorClasses)
  {
    c.engine1And2 == HideClass && c.engine2 == HideClass
    && c.engine3 == HideClass && c.engine3And4 == HideClass
  }

  lemma ConnectorsWellFormed(n1Degraded: seq<bool>, engineRunningOrIgnitionOn: bool)
    requires |n1Degraded| == EngineCount
    ensures WellFormed(Connectors(n1Degraded, engineRunningOrIgnitionOn))
  {
  }

  /** While the running signal is off every connector is hidden, whatever the
      degraded flags are. */
  lemma NotRunningHidesAll(n1Degraded: seq<bool>)
    requires |n1Degraded| == EngineCount
    ensures AllHidden(Connectors(n1Degraded, false))
  {
  }

  /** With every input at its default, every connector is hidden. */
  lemma InitialAllHidden()
    ensures AllHidden(Connectors(InitialN1Degraded,
                                 EngineRunningOrIgnitionOn(InitialEngineStates, InitialSelectorPosition)))
  {
    InitialNotRunning();
    NotRunningHidesAll(InitialN1Degraded);
  }

  /** The inner connectors depend on their own engine only: the engine 2 line
      ignores the flags of engines 1, 3 and 4, the engine 3 line those of
      engines 1, 2 and 4. */
  lemma InnerConnectorsIndependent(n1Degraded: seq<bool>, engineRunningOrIgnitionOn: bool,
                                   i: nat, b: bool)
    requires |n1Degraded| == EngineCount && i < EngineCount
    ensures i != 1 ==> Connectors(n1Degraded[i := b], engineRunningOrIgnitionOn).engine2
                       == Connectors(n1Degraded, engineRunningOrIgnitionOn).engine2
    ensures i != 2 ==> Connectors(n1Degraded[i := b], engineRunningOrIgnitionOn).engine3
                       == Connectors(n1Degraded, engineRunningOrIgnitionOn).engine3
  {
  }

  /** The outer connectors ignore the flags of the other pair of engines. */
  lemma OuterConnectorsIndependent(n1Degraded: seq<bool>, engineRunningOrIgnitionOn: bool,
                                   i: nat, b: bool)
    requires |n1Degraded| == EngineCount && i < EngineCount
    ensures i >= 2 ==> Connectors(n1Degraded[i := b], engineRunningOrIgnitionOn).engine1And2
                       == Connectors(n1Degraded, engineRunningOrIgnitionOn).engine1And2
    ensures i < 2 ==> Connectors(n1Degraded[i := b], engineRunningOrIgnitionOn).engine3And4
                      == Connectors(n1Degraded, engineRunningOrIgnitionOn).engine3And4
  {
  }

  // ---------------------------------------------------------------------------
  // The panel's state cells
  // ---------------------------------------------------------------------------

  /** The display component's state: the input cells and the cached values of
      the derived subjects built from them. */
  class EngineWarningDisplay {
    /** Last value of each engine-state consumer, engine 1 at index 0. */
    const engineStateSubs: array<int>
    /** Last value of the engine-selector consumer. */
    var engSelectorPosition: int
    /** The per-engine N1-degraded subjects, engine 1 at index 0. */
    const n1Degraded: array<bool>
    /** Cached value of the "engine running or ignition on" subject. */
    var engineRunningOrIgnitionOn: bool
    /** Cached values of the four path-class subjects. */
    var connectors: ConnectorClasses

    /** The panel is settled: each cached value is its combiner applied to the
        current inputs. */
    ghost predicate Valid()
      reads this, engineStateSubs, n1Degraded
    {
      && engineStateSubs.Length == EngineCount
      && n1Degraded.Length == EngineCount
      && engineRunningOrIgnitionOn == EngineRunningOrIgnitionOn(engineStateSubs[..], engSelectorPosition)
      && connectors == Connectors(n1Degraded[..], engineRunningOrIgnitionOn)
    }

    /** Every consumer starts at 0 and every degraded flag at false. */
    constructor ()
      ensures Valid() && fresh(engineStateSubs) && fresh(n1Degraded)
      ensures engineStateSubs[..] == InitialEngineStates
      ensures engSelectorPosition == InitialSelectorPosition
      ensures n1Degraded[..] == InitialN1Degraded
      ensures !engineRunningOrIgnitionOn && AllHidden(connectors)
    {
      engineStateSubs := new int[EngineCount](_ => EngineOff);
      engSelectorPosition := InitialSelectorPosition;
      n1Degraded := new bool[EngineCount](_ => false);
      engineRunningOrIgnitionOn := false;
      connectors := ConnectorClasses(HideClass, HideClass, HideClass, HideClass);
      new;
      assert engineStateSubs[..] == InitialEngineStates;
      assert n1Degraded[..] == InitialN1Degraded;
      InitialNotRunning();
    }

    /** Recompute both derived values from the current inputs. */
    method Settle()
      requires engineStateSubs.Length == EngineCount && n1Degraded.Length == EngineCount
      modifies this`engineRunningOrIgnitionOn, this`connectors
      ensures Valid()
    {
      engineRunningOrIgnitionOn := EngineRunningOrIgnitionOn(engineStateSubs[..], engSelectorPosition);
      connectors := Connectors(n1Degraded[..], engineRunningOrIgnitionOn);
    }

    /** A new value arrives on the state channel of engine `index + 1`. */
    method SetEngineState(index: nat, value: int)
      requires Valid() && index < EngineCount
      modifies this`engineRunningOrIgnitionOn, this`connectors, engineStateSubs
      ensures Valid()
      ensures engineStateSubs[..] == old(engineStateSubs[..])[index := value]
      ensures engSelectorPosition == old(engSelectorPosition)
      ensures n1Degraded[..] == old(n1Degraded[..])
    {
      engineStateSubs[index] := value;
      Settle();
    }

    /** A new value arrives on the engine-selector channel. */
    method SetEngSelectorPosition(value: int)
      requires Valid()
      modifies this`engSelectorPosition, this`engineRunningOrIgnitionOn, this`connectors
      ensures Valid()
      ensures engSelectorPosition == value
      ensures engineStateSubs[..] == old(engineStateSubs[..])
      ensures n1Degraded[..] == old(n1Degraded[..])
    {
      engSelectorPosition := value;
      Settle();
    }

    /** The degraded flag of engine `index + 1` is set. */
    method SetN1Degraded(index: nat, value: bool)
      requires Valid() && index < EngineCount
      modifies this`engineRunningOrIgnitionOn, this`connectors, n1Degraded
      ensures Valid()
      ensures n1Degraded[..] == old(n1Degraded[..])[index := value]
      ensures engineRunningOrIgnitionOn == old(engineRunningOrIgnitionOn)
      ensures engineStateSubs[..] == old(engineStateSubs[..])
      ensures engSelectorPosition == old(engSelectorPosition)
    {
      n1Degraded[index] := value;
      Settle();
    }
  }

  /** A client of the panel: the selector goes to ignition/start and back, then
      engine 1 starts and its N1 indication degrades and recovers. */
  method SelectorThenEngineScenario()
  {
    var ewd := new EngineWarningDisplay();
    assert !ewd.engineRunningOrIgnitionOn;

    ewd.SetEngSelectorPosition(IgnitionStartPosition);
    assert ewd.engineRunningOrIgnitionOn;

    ewd.SetEngSelectorPosition(0);
    assert ewd.engineStateSubs[..] == InitialEngineStates;
    assert !ewd.engineRunningOrIgnitionOn;

    ewd.SetEngineState(0, 1);
    assert ewd.engineStateSubs[0] == 1;
    assert ewd.engineRunningOrIgnitionOn;
    assert ewd.connectors.engine1And2 == ShowClass;

    ewd.SetN1Degraded(0, true);
    assert ewd.connectors.engine1And2 == HideClass;
    assert ewd.connectors.engine2 == ShowClass;

    ewd.SetN1Degraded(0, false);
    assert ewd.n1Degraded[..] == InitialN1Degraded;
    assert ewd.connectors.engine1And2 == ShowClass;
  }
}
