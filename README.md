# EWD signal gating

A Dafny model of the signal-gating rules of the A380 engine/warning display
(EWD) panel, `fbw-a380x/src/systems/instruments/src/EWD/EWD.tsx`.

The panel keeps four engine-state consumers, one engine-selector consumer and
four "N1 degraded" subjects. From them it derives:

- the **engine running or ignition on** signal: true when the selector code is
  2 (ignition/start) or any engine-state code is non-zero;
- the CSS classes of four grey **N1 connector lines** (engines 1–2, engine 2,
  engine 3, engines 3–4). Each line is `'LightGreyLine Show'` when its engines'
  degraded flags are all false and the running signal is true. Otherwise it is
  `'LightGreyLine Hide'`.

Everything lives in module `Ewd` in `ewd.dfy`:

- The combiners are pure functions. Their contracts characterise the result:
  an existential over the engine states, and an if-and-only-if for "shown".
- The OR over the spread engine-state array is a left-to-right fold,
  `AnyEngineRunning`. `AnyEngineRunningOfFour` shows that it agrees with the
  four-way disjunction in the source.
- `Connectors` wires the four connector combiners to the degraded flags in the
  positional order of the source.
- Class `EngineWarningDisplay` holds the input cells and the cached values of
  the derived subjects. Its invariant `Valid()` says every cached value equals
  its combiner applied to the current inputs. The constructor sets up the
  source's defaults, and each setter restores the invariant after it writes
  an input.
- `SelectorThenEngineScenario` is a client that steps through a
  selector/engine/degraded sequence. It shows what callers can conclude from
  the class contracts alone.

Engine-state and selector codes are modelled as mathematical integers, and they
are compared only with 0 and 2.

## Model

| member | source | states |
|---|---|---|
| `Ewd.AnyEngineRunning` | fbw-a380x/src/systems/instruments/src/EWD/EWD.tsx:25 | the "any engine running" flag is true exactly when some engine-state code is non-zero |
| `Ewd.AnyEngineRunningOfFour` | fbw-a380x/src/systems/instruments/src/EWD/EWD.tsx:25 | the fold over the four states equals `eng1 != 0 \|\| eng2 != 0 \|\| eng3 != 0 \|\| eng4 != 0` |
| `Ewd.EngineRunningOrIgnitionOn` | fbw-a380x/src/systems/instruments/src/EWD/EWD.tsx:23-31 | the running signal is true iff the selector code is 2 or one of the four engine codes is non-zero |
| `Ewd.InitialNotRunning` | fbw-a380x/src/systems/instruments/src/EWD/EWD.tsx:14-27 | with all engine codes 0 and selector 0 (the consumer defaults), the running signal is false |
| `Ewd.IgnitionForcesRunning` | fbw-a380x/src/systems/instruments/src/EWD/EWD.tsx:27 | selector position 2 makes the signal true whatever the engine codes are |
| `Ewd.RunningEngineForcesRunning` | fbw-a380x/src/systems/instruments/src/EWD/EWD.tsx:24-27 | any single non-zero engine code makes the signal true whatever the selector is |
| `Ewd.NotRunningIffAllOff` | fbw-a380x/src/systems/instruments/src/EWD/EWD.tsx:24-27 | with the selector not at 2, the signal is false iff all four engine codes are 0 |
| `Ewd.Engine1And2ConnectorClass` | fbw-a380x/src/systems/instruments/src/EWD/EWD.tsx:122-125 | the class is one of the two strings, and it is Show iff both flags are false and running is true |
| `Ewd.Engine2ConnectorClass` | fbw-a380x/src/systems/instruments/src/EWD/EWD.tsx:134-135 | the class is one of the two strings, and it is Show iff the engine 2 flag is false and running is true |
| `Ewd.Engine3ConnectorClass` | fbw-a380x/src/systems/instruments/src/EWD/EWD.tsx:143-144 | the class is one of the two strings, and it is Show iff the engine 3 flag is false and running is true |
| `Ewd.Engine3And4ConnectorClass` | fbw-a380x/src/systems/instruments/src/EWD/EWD.tsx:152-155 | the class is one of the two strings, and it is Show iff both flags are false and running is true |
| `Ewd.Connectors` | fbw-a380x/src/systems/instruments/src/EWD/EWD.tsx:120-161 | wiring: the 1–2 line is shown iff flags 0 and 1 are false, the engine 2 line iff flag 1 is, the engine 3 line iff flag 2 is, and the 3–4 line iff flags 2 and 3 are, in each case with running true |
| `Ewd.ConnectorsWellFormed` | fbw-a380x/src/systems/instruments/src/EWD/EWD.tsx:122-155 | every connector class is exactly `'LightGreyLine Hide'` or `'LightGreyLine Show'` |
| `Ewd.NotRunningHidesAll` | fbw-a380x/src/systems/instruments/src/EWD/EWD.tsx:123-124 | when the running signal is false, all four connectors are hidden whatever the degraded flags are |
| `Ewd.InitialAllHidden` | fbw-a380x/src/systems/instruments/src/EWD/EWD.tsx:14-38 | with every input at its default, all four connectors are hidden |
| `Ewd.InnerConnectorsIndependent` | fbw-a380x/src/systems/instruments/src/EWD/EWD.tsx:133-147 | changing any flag other than engine 2's leaves the engine 2 line unchanged, and the same holds for engine 3's flag and the engine 3 line |
| `Ewd.OuterConnectorsIndependent` | fbw-a380x/src/systems/instruments/src/EWD/EWD.tsx:126-128 | the 1–2 line ignores the flags of engines 3 and 4, and the 3–4 line ignores those of engines 1 and 2 |
| `Ewd.EngineWarningDisplay.constructor` | fbw-a380x/src/systems/instruments/src/EWD/EWD.tsx:14-38 | all consumers start at 0 and all degraded flags at false; the panel is settled, not running, and every connector is hidden |
| `Ewd.EngineWarningDisplay.Settle` | fbw-a380x/src/systems/instruments/src/EWD/EWD.tsx:23-31 | afterwards, each cached derived value equals its combiner applied to the current inputs |
| `Ewd.EngineWarningDisplay.SetEngineState` | fbw-a380x/src/systems/instruments/src/EWD/EWD.tsx:45-48 | a new value on one engine-state channel replaces that consumer's value only, and the derived values are recomputed |
| `Ewd.EngineWarningDisplay.SetEngSelectorPosition` | fbw-a380x/src/systems/instruments/src/EWD/EWD.tsx:50 | a new selector value replaces the selector consumer's value only, and the derived values are recomputed |
| `Ewd.EngineWarningDisplay.SetN1Degraded` | fbw-a380x/src/systems/instruments/src/EWD/EWD.tsx:33-38 | setting one degraded subject changes only that flag and the connectors; the running signal stays as it was |

## Left out

- Layout, SVG paths, text labels and the child widgets (`CdsDisplayUnit`,
  `N1Limit`, `EngineGauge`, `Idle`, `BleedSupply`, `WdMemos`,
  `WdLimitations`): presentation and external components. Their code is not
  part of this model.
- The reactive library's behaviour is left out: change notification, value
  deduplication, notification order and recompute-once behaviour for diamond
  dependencies. It belongs to `@microsoft/msfs-sdk`, which is not part of this
  model. The class keeps only the settled state: after each input write, every
  cached value equals its combiner applied to the current inputs. So there are
  no notification counts, and the setters recompute even when a value has not
  changed.
- The event-bus subscription in `onAfterRender` (lines 40-51) is left out. It
  is I/O through a foreign library. The setters stand for values arriving on
  the subscribed channels. The code has no bind-time error (such as an unknown
  channel), so none is modelled.
- JavaScript number semantics: the codes are `number` in the source and
  integers here. A fractional or NaN code would also count as "running"
  under `!== 0`; the model has no such values.
- The real engine-state encoding is a placeholder in the source (line 25), and
  the model keeps `!== 0` as written.
- Nothing in the file writes the degraded flags, so `SetN1Degraded` stands for
  an unseen writer.
