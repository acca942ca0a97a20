# Reversible transducers on rotary-element grids

This project models re-reversible-fst in Dafny. The Python program takes a
Mealy-machine finite-state transducer (`FST`). If every (next state, output)
pair has at most one source, and the input and output alphabets have the
same size, it compiles the machine into a grid of rotary switching elements
(`RE`). The grid automaton (`RFA`) has:

- one column per state, with one element per input symbol;
- a state-keeper element at the bottom of each column;
- a forward dictionary `fwd` and a backward dictionary `rev` that wire the
  element ports together.

A step injects a symbol on one side of the grid. The message turns every
element it passes through and leaves as a symbol on the other side. Because
every element's law is a bijection and the wiring is invertible, running the
grid backward on the reversed output restores the input and the grid.

The model has eight modules:

| module | file | what it holds |
|---|---|---|
| `Common` | common.dfy | options and results, duplicate-free label sequences, `list.index`, map inversion, `[::-1]` |
| `Element` | element.dfy | the `RE` law: the eight-entry `delta_fwd` table and its inversion `delta_rev`, plus a `SwitchElement` class for `re_input` |
| `Transducer` | transducer.dfy | `FST`: its validation, `step_forward`/`run_forward` as a class proved against a pure `Run`, and `reverse` |
| `Wiring` | wiring.dfy | reference definitions of every entry of `fwd` and `rev`, and the inversion properties that hold between them |
| `Traversal` | traversal.dfy | a pure walk of one step over a snapshot of the orientations, runs built from steps, and the round-trip theorems |
| `Rfa` | rfa.dfy | the `RFA` class over an `array2` of orientations; each constructor loop, `get_state`, the step loops and `run` are methods proved against `Wiring` and `Traversal` |
| `Draft` | draft.dfy | the earlier draft reversible.py: its branch-coded `RE.re_input` and its `DFA` class, which is either an acceptor or a transducer |
| `Scenario` | scenario.dfy | the two-state machine of driver.py |

For driver.py, the proofs show three things about the grid:

- On "aba" it yields "xyy", which is also what the transducer yields, and it
  accepts.
- Feeding "yyx" backward yields "aba", accepts and restores the initial
  grid.
- A machine in which two transitions share a target is refused.

The transition table in driver.py:9-14 gives "xyy" for "aba".

## Model

| member | source | states |
|---|---|---|
| Common.IndexOf | re_rfst.py:151 | `list.index`: the position returned holds the element and no earlier position does |
| Common.Invert | re_rfst.py:40 | the inversion `{v: k for k, v in ...}` of an injective dictionary has the values as keys, and composing either way with the original gives the identity |
| Common.Reverse | re_rfst.py:259 | `s[::-1]` has the same length, and position `i` holds position `len - 1 - i` |
| Element.ForwardAt | re_rfst.py:30-39 | every (orientation, port) pair is a key of `delta_fwd`, and its entry is the law's forward result |
| Element.TableInjective | re_rfst.py:30-39 | no two entries of the forward law give the same result |
| Element.TableHits | re_rfst.py:30-39 | every (orientation, port) pair is a value of `delta_fwd` |
| Element.ForwardIsTotal | re_rfst.py:30-39 | `delta_fwd` is a total bijection on the eight pairs: every pair is both a key and a value |
| Element.ForwardIsInjective | re_rfst.py:30-40 | `delta_fwd` is injective, so the inversion in `delta_rev` loses nothing |
| Element.Backward | re_rfst.py:40 | `delta_rev` is total, undoes `delta_fwd`, and `delta_fwd` undoes it |
| Element.LawIsLookup | re_rfst.py:46-52 | the law forward is the lookup in `delta_fwd`, and backward the lookup in `delta_rev`, for every pair |
| Element.RoundTrip | re_rfst.py:40-52 | `re_input` forward, then backward on the returned port, restores the orientation and returns the entry port; the other order does too |
| Element.PassThroughKeepsOrientation | re_rfst.py:30-39 | an element keeps its orientation exactly when the message enters along its axis; otherwise it flips |
| Element.SwitchElement.constructor | re_rfst.py:42-44 | a new element has the given orientation |
| Element.SwitchElement.Input | re_rfst.py:46-52 | `re_input` stores the new orientation from the chosen dictionary and returns the exit port |
| Transducer.Validate | re_rfst.py:58-74 | fails exactly when the definition is not well formed; it names a really undeclared item, checks the start state first, then the accepting states, then each transition |
| Transducer.Fst.Init | re_rfst.py:76-84 | the machine stores the definition and starts in `q_0` |
| Transducer.Fst.Create | re_rfst.py:56-84 | `FST(...)` succeeds exactly on well-formed definitions, starting in `q_0`; otherwise it raises naming an offending item |
| Transducer.Fst.StepForward | re_rfst.py:86-92 | a symbol outside `Sigma` or a missing transition raises and leaves the state alone; otherwise the machine moves along `delta` and returns the output |
| Transducer.Fst.RunForward | re_rfst.py:94-100 | the outputs of the steps in order, and acceptance of the final state; the first failing step aborts the run |
| Transducer.RunShape | re_rfst.py:86-100 | a run emits exactly one output symbol per input symbol, each in `Gamma`, and stays among the declared states |
| Transducer.RunAppend | re_rfst.py:94-100 | running `s + u` is running `s` and then `u` from where `s` ended |
| Transducer.RunBackAppend | re_rfst.py:108-115 | reading back `a + b` through `rho` is reading back `a` and then `b` from where `a` ended |
| Transducer.RunBackRecoversInput | re_rfst.py:102-115 | when `delta` is injective, reading the reversed output back through its inversion returns to the start state with the reversed input |
| Transducer.InjectiveIffSingleSources | re_rfst.py:110-115 | `delta` is injective exactly when no target has two sources |
| Transducer.Fst.Reverse | re_rfst.py:102-115 | reports reversible exactly when `delta` is injective, which is exactly when `imprecise` is empty; `imprecise` holds every target with two or more sources, each listed once; `rho` holds the single-source targets and equals the inversion of `delta` when reversible |
| Transducer.Partition | re_rfst.py:110-114 | groups of more than one source go to `imprecise` unchanged, single sources go to `rho` unwrapped, and every group goes to one of the two |
| Transducer.GroupedAdd | re_rfst.py:104-107 | appending a transition to its target's list keeps each list exactly the distinct sources seen so far |
| Transducer.SplitOutcome | re_rfst.py:108-115 | after grouping every transition, the split characterises `imprecise` and `rho` by the number of sources of each target |
| Wiring.TransitionEntryInverted | re_rfst.py:181-197 | the East port a transition wires to leads back, in `rev`, to the West port of that transition |
| Wiring.BackwardUndoesForward | re_rfst.py:194-197 | `rev[fwd[k]] == k` for every key of `fwd` |
| Wiring.ForwardRedoesBackward | re_rfst.py:194-200 | every link in `rev` comes from the `fwd` entry it names |
| Wiring.TransitionRedone | re_rfst.py:181-197 | a transition's East port, read back through `rev`, names a West port whose `fwd` entry is that East port |
| Wiring.ForwardInjective | re_rfst.py:154-197 | no two keys of `fwd` share a value, so `rev` loses no entry |
| Wiring.OutputTerminals | re_rfst.py:190-192 | the East ports of the last column carry the output symbols, and they are the only terminals in `fwd` |
| Wiring.InputTerminals | re_rfst.py:198-200 | the West ports of the first column carry the input symbols in `rev`; no other entry of `rev` is an input terminal, and no `fwd` entry leads into those ports |
| Traversal.Keeper | re_rfst.py:204-207 | the column found is the first whose state keeper is horizontal, and there is none when no keeper is horizontal |
| Traversal.InitialCells | re_rfst.py:146-152 | the constructor's grid has `m` columns of `n + 1` elements |
| Traversal.InitialState | re_rfst.py:146-152 | `get_state` on the constructor's grid returns `q_0` |
| Traversal.TurnUndone | re_rfst.py:216 | turning an element back with the other law restores the grid and returns the entry wire |
| Traversal.WiredUndoable | re_rfst.py:154-200 | the constructor's dictionaries link back to themselves, place terminals only at the other direction's injection ports, and lead from every injection port back to its symbol |
| Traversal.Retrace | re_rfst.py:209-238 | a walk that reaches a terminal is retraced hop for hop by the opposite walk from that terminal |
| Traversal.StepRoundTrip | re_rfst.py:209-238 | `step_backward` on the symbol that `step_forward` produced restores the grid and returns the input symbol, and the same holds the other way round |
| Traversal.RunStepsAppend | re_rfst.py:250-256 | running `a + b` runs `a` and then `b` from the grid `a` left |
| Traversal.RunSingle | re_rfst.py:250-256 | a run of one symbol is that symbol's step |
| Traversal.RunStepsExtend | re_rfst.py:250-256 | a prefix run extended by one symbol adds that symbol's step |
| Traversal.RunStepsStop | re_rfst.py:250-256 | a run stops at the first step that fails |
| Traversal.RunRoundTrip | re_rfst.py:246-262 | a backward run on a forward run's reversed output restores the grid and yields the reversed input, and the same holds the other way round |
| Traversal.BackwardRunRecoversInput | re_rfst.py:246-262 | from the constructor's grid, a forward run followed by a backward run on the reversed output accepts, returns the original input and restores the grid |
| Rfa.ColumnHeadEntries | re_rfst.py:159-166 | the five writes at the head of a column's loop give the keeper's and row 0's entries; row 0's writes win when `n == 0` |
| Rfa.ChainRowWritten | re_rfst.py:170-172 | one chain row's two writes extend the column by that row |
| Rfa.ChainColumn | re_rfst.py:156-172 | one round of the column loop writes exactly column `qi`'s chain and keeper entries |
| Rfa.ChainColumns | re_rfst.py:156-172 | the column loop writes exactly every column's chain and keeper entries |
| Rfa.AddMesh | re_rfst.py:174-177 | the mesh loop links each East port to the next column's West port on every input row except in the last column, over what was there |
| Rfa.TransitionPartAdd | re_rfst.py:181-188 | one more transition adds exactly its West-port entry |
| Rfa.TransitionWritten | re_rfst.py:181-188 | writing a transition's edge keeps the table equal to the transitions done so far |
| Rfa.AddTransitions | re_rfst.py:179-188 | the loop over `delta` wires each transition's West port to its target's East port, over what was there |
| Rfa.AddOutputs | re_rfst.py:190-192 | the last column's East ports become the output terminals |
| Rfa.BuildForward | re_rfst.py:154-192 | the passes in the constructor's order build exactly the reference `fwd` |
| Rfa.InvertedExact | re_rfst.py:194-197 | the inversion of `fwd` is the reference `rev`, except for the input terminals |
| Rfa.InvertWiring | re_rfst.py:194-197 | the loop `rev[dest] = src` builds the reference `rev`, except for the input terminals |
| Rfa.AddInputs | re_rfst.py:198-200 | adding the input terminals completes `rev` |
| Rfa.Grid.Init | re_rfst.py:136-202 | the constructor leaves every element vertical except the start state's keeper, and both dictionaries wired |
| Rfa.Grid.Create | re_rfst.py:119-202 | `RFA(fst)` succeeds exactly when the machine is reversible and its alphabets have the same size; a non-reversible machine is refused with exactly the targets that have several sources, each listing its sources once; a reversible machine whose alphabets differ in size is refused with the two sizes |
| Rfa.Grid.GetState | re_rfst.py:204-207 | `get_state` returns the state of the first horizontal keeper, or nothing |
| Rfa.Grid.Pass | re_rfst.py:216 | the element the message enters turns by the law and names the exit key |
| Rfa.Grid.Carry | re_rfst.py:214-223 | the message loop leaves the grid and returns the result that the reference walk gives |
| Rfa.Grid.StepForward | re_rfst.py:209-223 | `step_forward` is the reference walk from the input's West port in the first column |
| Rfa.Grid.StepBackward | re_rfst.py:225-238 | `step_backward` is the reference walk from the output's East port in the last column |
| Rfa.Grid.Step | re_rfst.py:240-244 | `step` dispatches on the direction |
| Rfa.Grid.StepAll | re_rfst.py:250-256 | the loop of `run` is the reference run of its steps, stopping at the first failure |
| Rfa.Grid.Run | re_rfst.py:246-262 | `run` accepts backward when the grid is back in `q_0` and returns the symbols reversed; forward it accepts in a state of `F` |
| Draft.DraftElement.constructor | reversible.py:67-70 | a new draft element has the given orientation |
| Draft.DraftElement.Input | reversible.py:72-94 | the branch-coded `re_input` is exactly the forward law of `delta_fwd` |
| Draft.Dfa.constructor | reversible.py:97-108 | the draft `DFA` stores its arguments unchecked and starts in `q_0` |
| Draft.Dfa.StepForward | reversible.py:110-120 | raises outside `Sigma` or on a missing entry; a transducer moves and returns its output, and an acceptor stays where it is |
| Draft.Dfa.RunForward | reversible.py:122-131 | the draft run collects the outputs that are present and returns the bare flag for an acceptor, and the flag with the output for a transducer |
| Draft.AcceptorStaysPut | reversible.py:110-131 | as written, an acceptor never leaves its start state and emits nothing; its run fails exactly when some symbol is outside `Sigma` or has no entry |
| Draft.Lift | reversible.py:97-108 | a transducer-mode draft over an `FST`'s transitions has the same keys, and each entry is the same pair |
| Draft.DraftAgreesWithFst | reversible.py:110-131 | in transducer mode the draft runs exactly like `FST.run_forward`: the same final state, the same outputs, the corresponding failure |
| Scenario.DriverCompilable | driver.py:6-25 | the driver's machine is well formed, reversible, and its alphabets have the same size |
| Scenario.DriverWiringIsForward | re_rfst.py:154-192 | the driver's `fwd`, written out key by key, is the constructor's table |
| Scenario.TransitionEdge | re_rfst.py:181-188 | the West port of a transition's element leads to the East port of its target's element |
| Scenario.TwoByTwoInitialCells | re_rfst.py:146-152 | a two-state, two-symbol machine that starts in its first state begins with only the first keeper horizontal |
| Scenario.Hop | re_rfst.py:214-218 | one hop of `step_forward` on the driver's grid |
| Scenario.ForwardA1 | re_rfst.py:209-223 | the first `a` hands the keeper from state 1 to state 2 and emits `x` |
| Scenario.ForwardB | re_rfst.py:209-223 | the `b` keeps state 2's keeper and emits `y` |
| Scenario.ForwardA2 | re_rfst.py:209-223 | the second `a` hands the keeper back to state 1 and emits `y` |
| Scenario.DriverTransducerRun | driver.py:20-23 | the transducer maps "aba" to "xyy" and ends in state 1 |
| Scenario.DriverFinalState | re_rfst.py:204-207 | the grid with only state 1's keeper horizontal reads as state 1, which is accepting |
| Scenario.DriverGridRun | driver.py:25-26 | the grid maps "aba" to "xyy", accepts, and is back in its initial orientations |
| Scenario.DriverRoundTrip | driver.py:22-35 | the grid's output equals the transducer's, and running "yyx" backward accepts, yields "aba" and restores the grid |
| Scenario.CollisionRefused | re_rfst.py:119-131 | a machine with two transitions into (1, x) has a target with two sources and is not compilable, so `RFA` refuses it |

## Left out

- Printing, tracing, pausing and colours are left out: `print_res`, the `trace`/`pause`/`file` parameters, `bcolors`, `sleep` and `os.system('clear')`. They are output only and do not affect the run.
- Error message texts are left out. Failures are datatypes that name the offending item, or, for `RFA`, the ambiguous targets and the two alphabet sizes.
- `sorted(list(...))` is not modelled. Alphabets and states are duplicate-free sequences taken in the order given; sortedness is not checked.
- Each element of `REs` is held as its orientation in one `array2` rather than as a separate `RE` object. Every element is a fresh object in the source, so there is no aliasing to model.
- Rfa.Grid.Carry: the message loop carries a hop budget of four hops per element (`Fuel`). The source loops until it reaches a terminal. The model does not prove in general that every walk ends within that budget. The budget is shown to be enough for the driver's three steps, and the round-trip theorems assume a run that reached its terminals.
- The Python lookup errors are modelled as failures, not exceptions: an unknown symbol in `index`, a missing dictionary key, and a row or column outside the grid. Python's negative-index wrap-around is modelled as a failure too.
- Symbols are single characters. `run_forward`'s skip of falsy outputs therefore never triggers in `Transducer.Fst.RunForward`. The draft's optional outputs are skipped explicitly.
- Draft.Dfa.StepForward: in transducer mode, an entry that is a bare state fails with `NotAPair`. Python would instead unpack a two-character state string into a state and an output.
- The `test_old` function, the stub `RFA` class and `main` of reversible.py are left out. They are a scratch test, an empty placeholder and a print.
- The model does not prove that exactly one keeper is horizontal after a run. `get_state` is modelled exactly (the first horizontal keeper, or none), and the round-trip theorems restore the grid.
- Rfa.Grid.Run: agreement of the grid's forward run with Transducer.Fst.RunForward is proved only on driver.py's machine (Scenario.DriverRoundTrip). In general only the round trip is proved (Traversal.RunRoundTrip, Traversal.BackwardRunRecoversInput), because a general proof would need the walk-termination argument that the hop budget leaves out.
