/** The earlier draft in reversible.py: the element law coded branch by
    branch, and a `DFA` class that is either a plain acceptor or a
    transducer, chosen by a flag. */
module Draft {
  import opened Common
  import opened Element
  import opened Transducer

  /** The draft `RE`: the same two orientations, the law written as nested
      branches instead of a table. */
  class DraftElement {
    var orientation: Orientation

    constructor (init: Orientation)
      ensures orientation == init
    {
      orientation := init;
    }

    /** `re_input`: pass N/S through a vertical element and E/W through a
        horizontal one; deflect the others, flipping the orientation. The
        result is the forward law of the table-driven element. */
    method Input(d: Port) returns (out: Port)
      modifies this
      ensures (orientation, out) == Law(old(orientation), d, false)
    {
      if orientation == V {
        if d == N {
          out := S;
        } else if d == S {
          out := N;
        } else if d == E {
          orientation := H;
          out := N;
        } else {
          orientation := H;
          out := S;
        }
      } else {
        if d == E {
          out := W;
        } else if d == W {
          out := E;
        } else if d == N {
          orientation := V;
          out := W;
        } else {
          orientation := V;
          out := E;
        }
      }
    }
  }

  /** A transition value: a bare next state (acceptor) or a (next state,
      output) pair (transducer). */
  datatype Move = Next(state: State) | Emit(state: State, out: Symbol)

  /** The constructor's arguments, stored without any check. */
  datatype Machine = Machine(
    states: set<State>,
    sigma: set<Symbol>,
    delta: map<(State, Symbol), Move>,
    start: State,
    accepting: set<State>,
    gamma: set<Symbol>,
    transducer: bool)

  /** Why a step raises: the symbol is not in `Sigma`, `delta` has no entry,
      or, in transducer mode, the entry is not a pair to unpack. */
  datatype DraftError =
    | NotInSigma(symbol: Symbol)
    | NoEntry(state: State, symbol: Symbol)
    | NotAPair(state: State, symbol: Symbol)

  /** One `step_forward` from `q`: the state afterwards and the output, if
      any. The acceptor looks the transition up but never moves. */
  function DraftStep(a: Machine, q: State, c: Symbol): Result<(State, Option<Symbol>), DraftError>
  {
    if c !in a.sigma then Fail(NotInSigma(c))
    else if (q, c) !in a.delta then Fail(NoEntry(q, c))
    else if !a.transducer then Ok((q, None))
    else match a.delta[(q, c)]
      case Emit(q', o) => Ok((q', Some(o)))
      case Next(_) => Fail(NotAPair(q, c))
  }

  /** Where the step loop of `run_forward` ends: the state, the outputs
      collected (absent outputs skipped) and the failure, if any. */
  datatype Progress = Progress(final: State, output: seq<Symbol>, failure: Option<DraftError>)

  function DraftRun(a: Machine, q: State, s: seq<Symbol>): Progress
    decreases |s|
  {
    if s == [] then Progress(q, [], None)
    else match DraftStep(a, q, s[0])
      case Fail(e) => Progress(q, [], Some(e))
      case Ok((q', o)) =>
        var p := DraftRun(a, q', s[1..]);
        Progress(p.final, (if o.Some? then [o.value] else []) + p.output, p.failure)
  }

  /** What `run_forward` returns: the bare flag for an acceptor, the flag
      and the output string for a transducer. */
  datatype Verdict = Accepted(accepted: bool) | Translated(accepted: bool, output: seq<Symbol>)

  class Dfa {
    const machine: Machine
    var state: State

    /** `DFA(...)`: store the arguments and start in `q_0`. */
    constructor (a: Machine)
      ensures machine == a && state == a.start
    {
      machine := a;
      state := a.start;
    }

    /** `step_forward`: raise for a symbol outside `Sigma` or a missing
        entry; a transducer moves and returns its output, an acceptor
        returns nothing and stays put. A failed step changes nothing. */
    method StepForward(c: Symbol) returns (r: Result<Option<Symbol>, DraftError>)
      modifies this
      ensures DraftStep(machine, old(state), c).Ok? ==>
        state == DraftStep(machine, old(state), c).value.0 && r == Ok(DraftStep(machine, old(state), c).value.1)
      ensures DraftStep(machine, old(state), c).Fail? ==>
        state == old(state) && r == Fail(DraftStep(machine, old(state), c).error)
    {
      if c !in machine.sigma {
        return Fail(NotInSigma(c));
      }
      if (state, c) !in machine.delta {
        return Fail(NoEntry(state, c));
      }
      var move := machine.delta[(state, c)];
      if machine.transducer {
        if move.Next? {
          return Fail(NotAPair(state, c));
        }
        state := move.state;
        return Ok(Some(move.out));
      }
      return Ok(None);
    }

    /** `run_forward`: step through the string, appending each output
        that is present, then report acceptance of the final state. */
    method RunForward(s: seq<Symbol>) returns (r: Result<Verdict, DraftError>)
      modifies this
      ensures var p := DraftRun(machine, old(state), s);
        && state == p.final
        && r == if p.failure.Some? then Fail(p.failure.value)
                else if machine.transducer then Ok(Translated(p.final in machine.accepting, p.output))
                else Ok(Accepted(p.final in machine.accepting))
    {
      var out: seq<Symbol> := [];
      var i := 0;
      while i < |s|
        invariant 0 <= i <= |s|
        invariant var p := DraftRun(machine, state, s[i..]);
          DraftRun(machine, old(state), s) == Progress(p.final, out + p.output, p.failure)
      {
        var step := StepForward(s[i]);
        if step.Fail? {
          return Fail(step.error);
        }
        assert s[i..][1..] == s[i + 1..];
        var emitted := if step.value.Some? then [step.value.value] else [];
        ConcatAssoc(out, emitted, DraftRun(machine, state, s[i + 1..]).output);
        if step.value.Some? {
          out := out + [step.value.value];
        }
        i := i + 1;
      }
      assert s[i..] == [] && out + [] == out;
      var accepted := state in machine.accepting;
      if machine.transducer {
        return Ok(Translated(accepted, out));
      }
      return Ok(Accepted(accepted));
    }
  }

  /** An acceptor never leaves the state it starts in and emits nothing;
      its run fails exactly when some symbol is outside `Sigma` or has no
      entry from that state. */
  lemma {:induction false} AcceptorStaysPut(a: Machine, q: State, s: seq<Symbol>)
    requires !a.transducer
    ensures DraftRun(a, q, s).final == q && DraftRun(a, q, s).output == []
    ensures DraftRun(a, q, s).failure.None? <==>
      forall i :: 0 <= i < |s| ==> s[i] in a.sigma && (q, s[i]) in a.delta
    decreases |s|
  {
    if s != [] && DraftStep(a, q, s[0]).Ok? {
      AcceptorStaysPut(a, q, s[1..]);
      forall i | 1 <= i < |s| ensures s[i] == s[1..][i - 1] {
      }
    }
  }

  /** The draft in transducer mode over a machine's own transitions. */
  function Lift(d: Definition): (a: Machine)
    ensures a.transducer && a.delta.Keys == d.delta.Keys
    ensures forall k :: k in d.delta ==> a.delta[k] == Emit(d.delta[k].0, d.delta[k].1)
  {
    Machine(Elems(d.states), Elems(d.inputs), map k | k in d.delta :: Emit(d.delta[k].0, d.delta[k].1),
            d.start, d.accepting, Elems(d.outputs), true)
  }

  /** The failure of the finished `FST` that corresponds to a draft failure. */
  function Matching(e: StepError): DraftError
  {
    match e
    case NotInAlphabet(c) => NotInSigma(c)
    case NoTransition(q, c) => NoEntry(q, c)
  }

  /** In transducer mode the draft runs exactly as the finished `FST`: the
      same final state, the same outputs, the corresponding failure. */
  lemma {:induction false} DraftAgreesWithFst(d: Definition, q: State, s: seq<Symbol>)
    ensures var p, t := DraftRun(Lift(d), q, s), Run(d, q, s);
      && p.final == t.final && p.output == t.output
      && p.failure == if t.failure.Some? then Some(Matching(t.failure.value)) else None
    decreases |s|
  {
    if s != [] && Step(d, q, s[0]).Ok? {
      DraftAgreesWithFst(d, Step(d, q, s[0]).value.0, s[1..]);
    }
  }
}
