/** The Mealy-machine transducer `FST` of re_rfst.py: a validated definition,
    a current state that `step_forward` moves, and the reversibility check
    that groups transitions by their (next-state, output) target. */
module Transducer {
  import opened Common

  type State = string

  /** Input strings are consumed one character at a time, and outputs are
      appended one character at a time. */
  type Symbol = char

  /** The constructor's arguments `Q, Sigma, delta, q_0, F, Gamma`; the three
      sets are fixed into the order the grid indexes them by. */
  datatype Definition = Definition(
    states: Labels<State>,
    inputs: Labels<Symbol>,
    delta: map<(State, Symbol), (State, Symbol)>,
    start: State,
    accepting: set<State>,
    outputs: Labels<Symbol>)

  /** The item a failed construction names. */
  datatype DefError =
    | BadStart(state: State)
    | BadAccepting(state: State)
    | BadSource(state: State)
    | BadTarget(state: State)
    | BadInput(symbol: Symbol)
    | BadOutput(symbol: Symbol)

  datatype StepError =
    | NotInAlphabet(symbol: Symbol)
    | NoTransition(state: State, symbol: Symbol)

  /** The first of the four membership checks that one transition fails, in
      the order the constructor makes them. */
  function EntryError(d: Definition, k: (State, Symbol)): Option<DefError>
    requires k in d.delta
  {
    var (q, c) := k;
    var (q', o) := d.delta[k];
    if q !in d.states then Some(BadSource(q))
    else if q' !in d.states then Some(BadTarget(q'))
    else if c !in d.inputs then Some(BadInput(c))
    else if o !in d.outputs then Some(BadOutput(o))
    else None
  }

  predicate StartAndFinalsDeclared(d: Definition)
  {
    d.start in d.states && forall q :: q in d.accepting ==> q in d.states
  }

  /** Every state and symbol the definition mentions is declared. */
  predicate WellFormed(d: Definition)
  {
    && StartAndFinalsDeclared(d)
    && forall k :: k in d.delta ==>
         k.0 in d.states && d.delta[k].0 in d.states && k.1 in d.inputs && d.delta[k].1 in d.outputs
  }

  /** `e` names an item of `d` that is really undeclared. */
  predicate Offends(d: Definition, e: DefError)
  {
    match e
    case BadStart(q) => q == d.start && q !in d.states
    case BadAccepting(q) => q in d.accepting && q !in d.states
    case _ => exists k :: k in d.delta && EntryError(d, k) == Some(e)
  }

  /** The checks at the head of the constructor: the start state, then every
      accepting state, then every transition, stopping at the first failure. */
  method Validate(d: Definition) returns (err: Option<DefError>)
    ensures err.None? <==> WellFormed(d)
    ensures err.Some? ==> Offends(d, err.value)
    ensures d.start !in d.states ==> err == Some(BadStart(d.start))
    ensures d.start in d.states && !StartAndFinalsDeclared(d) ==> err.Some? && err.value.BadAccepting?
  {
    if d.start !in d.states {
      return Some(BadStart(d.start));
    }
    var finals := d.accepting;
    while finals != {}
      invariant finals <= d.accepting
      invariant forall q :: q in d.accepting - finals ==> q in d.states
      decreases |finals|
    {
      var q :| q in finals;
      if q !in d.states {
        return Some(BadAccepting(q));
      }
      finals := finals - {q};
    }
    var todo := d.delta.Keys;
    while todo != {}
      invariant todo <= d.delta.Keys
      invariant forall k :: k in d.delta.Keys - todo ==> EntryError(d, k) == None
      decreases |todo|
    {
      var k :| k in todo;
      var e := EntryError(d, k);
      if e.Some? {
        return e;
      }
      todo := todo - {k};
    }
    assert forall k :: k in d.delta ==> EntryError(d, k) == None;
    return None;
  }

  /** One `step_forward` from state `q`: the next state and the output. */
  function Step(d: Definition, q: State, c: Symbol): Result<(State, Symbol), StepError>
  {
    if c !in d.inputs then Fail(NotInAlphabet(c))
    else if (q, c) !in d.delta then Fail(NoTransition(q, c))
    else Ok(d.delta[(q, c)])
  }

  /** Where a run over a string ends: the state reached, the outputs emitted
      so far, and the failure that stopped it, if any. */
  datatype Trace = Trace(final: State, output: seq<Symbol>, failure: Option<StepError>)

  function Run(d: Definition, q: State, s: seq<Symbol>): Trace
    decreases |s|
  {
    if s == [] then Trace(q, [], None)
    else match Step(d, q, s[0])
      case Fail(e) => Trace(q, [], Some(e))
      case Ok((q', o)) =>
        var t := Run(d, q', s[1..]);
        Trace(t.final, [o] + t.output, t.failure)
  }

  /** A Mealy machine emits exactly one symbol per consumed symbol, each from
      the output alphabet, and every state it passes through is declared. */
  lemma {:induction false} RunShape(d: Definition, q: State, s: seq<Symbol>)
    requires WellFormed(d) && q in d.states
    ensures Run(d, q, s).failure.None? ==> |Run(d, q, s).output| == |s|
    ensures forall i :: 0 <= i < |Run(d, q, s).output| ==> Run(d, q, s).output[i] in d.outputs
    ensures Run(d, q, s).final in d.states
    decreases |s|
  {
    if s != [] && Step(d, q, s[0]).Ok? {
      RunShape(d, Step(d, q, s[0]).value.0, s[1..]);
    }
  }

  /** Running `s` and then `u` is running `s + u`. */
  lemma {:induction false} RunAppend(d: Definition, q: State, s: seq<Symbol>, u: seq<Symbol>)
    requires Run(d, q, s).failure.None?
    ensures var t := Run(d, Run(d, q, s).final, u);
      Run(d, q, s + u) == Trace(t.final, Run(d, q, s).output + t.output, t.failure)
    decreases |s|
  {
    if s == [] {
      assert s + u == u;
      assert Run(d, q, s) == Trace(q, [], None);
      assert [] + Run(d, q, u).output == Run(d, q, u).output;
    } else {
      var (q1, o) := Step(d, q, s[0]).value;
      RunAppend(d, q1, s[1..], u);
      TailAppend(s, u);
      var r1 := Run(d, q1, s[1..]);
      var t := Run(d, r1.final, u);
      assert Run(d, q, s) == Trace(r1.final, [o] + r1.output, None);
      assert Run(d, q, s + u) == Trace(t.final, [o] + (r1.output + t.output), t.failure);
      ConcatAssoc([o], r1.output, t.output);
    }
  }

  /** A backward run over a map from (next-state, output) to (state, input):
      from state `q`, each symbol of `o` is read back to the source that
      produced it; the result is the state reached and the recovered inputs
      in the order they were recovered. */
  function RunBack(rho: map<(State, Symbol), (State, Symbol)>, q: State, o: seq<Symbol>): Option<(State, seq<Symbol>)>
    decreases |o|
  {
    if o == [] then Some((q, []))
    else if (q, o[0]) !in rho then None
    else
      var (p, c) := rho[(q, o[0])];
      match RunBack(rho, p, o[1..])
      case None => None
      case Some((q0, rest)) => Some((q0, [c] + rest))
  }

  lemma {:induction false} RunBackAppend(rho: map<(State, Symbol), (State, Symbol)>, q: State, a: seq<Symbol>, b: seq<Symbol>)
    requires RunBack(rho, q, a).Some?
    ensures var (p, r) := RunBack(rho, q, a).value;
      RunBack(rho, q, a + b) == match RunBack(rho, p, b)
        case None => None
        case Some((p', r')) => Some((p', r + r'))
    decreases |a|
  {
    if a == [] {
      assert a + b == b;
      match RunBack(rho, q, b)
      case None =>
      case Some((p', r')) => assert [] + r' == r';
    } else {
      var (p1, c) := rho[(q, a[0])];
      TailAppend(a, b);
      RunBackAppend(rho, p1, a[1..], b);
      var (p, r) := RunBack(rho, p1, a[1..]).value;
      match RunBack(rho, p, b)
      case None =>
      case Some((p', r')) =>
        ConcatAssoc([c], r, r');
    }
  }

  /** For an injective transition map, reading the forward output back to
      front through the inverted map returns to the start state and recovers
      the input back to front. */
  lemma {:induction false} RunBackRecoversInput(d: Definition, q: State, s: seq<Symbol>)
    requires Injective(d.delta)
    requires Run(d, q, s).failure.None?
    ensures RunBack(Invert(d.delta), Run(d, q, s).final, Reverse(Run(d, q, s).output)) == Some((q, Reverse(s)))
    decreases |s|
  {
    var rho := Invert(d.delta);
    if s != [] {
      var (q1, o) := Step(d, q, s[0]).value;
      var t := Run(d, q1, s[1..]);
      RunBackRecoversInput(d, q1, s[1..]);
      assert Run(d, q, s).output == [o] + t.output;
      ReverseAppend([o], t.output);
      assert (q, s[0]) in d.delta && d.delta[(q, s[0])] == (q1, o);
      assert rho[(q1, o)] == (q, s[0]);
      assert [o][1..] == [] && [o][0] == o;
      assert RunBack(rho, q, []) == Some((q, []));
      assert (q1, [o][0]) in rho;
      assert RunBack(rho, q1, [o]) == match RunBack(rho, q, []) case None => None case Some((q0, rest)) => Some((q0, [s[0]] + rest));
      assert [s[0]] + [] == [s[0]];
      assert RunBack(rho, q1, [o]) == Some((q, [s[0]]));
      RunBackAppend(rho, t.final, Reverse(t.output), [o]);
      ReverseAppend([s[0]], s[1..]);
      assert [s[0]] + s[1..] == s;
    }
  }

  /** The transitions that land on target `t`. */
  ghost function Sources(delta: map<(State, Symbol), (State, Symbol)>, t: (State, Symbol)): set<(State, Symbol)>
  {
    set k | k in delta && delta[k] == t
  }

  /** The transitions among `keys` that land on target `t`. */
  ghost function SourcesAmong(delta: map<(State, Symbol), (State, Symbol)>, keys: set<(State, Symbol)>, t: (State, Symbol)): set<(State, Symbol)>
  {
    set k | k in keys && k in delta && delta[k] == t
  }

  /** A map is injective exactly when no target has two sources. */
  lemma InjectiveIffSingleSources(delta: map<(State, Symbol), (State, Symbol)>)
    ensures Injective(delta) <==> forall t :: |Sources(delta, t)| <= 1
  {
    if Injective(delta) {
      forall t ensures |Sources(delta, t)| <= 1 {
        if Sources(delta, t) != {} {
          var a :| a in Sources(delta, t);
          assert Sources(delta, t) == {a};
        }
      }
    } else {
      var a, b :| a in delta && b in delta && a != b && delta[a] == delta[b];
      assert {a, b} <= Sources(delta, delta[a]);
      assert |{a, b}| == 2;
      SubsetCard({a, b}, Sources(delta, delta[a]));
    }
  }

  lemma SubsetCard<T>(a: set<T>, b: set<T>)
    requires a <= b
    ensures |a| <= |b|
  {
    assert b == a + (b - a);
  }

  /** One `FST` object. */
  class Fst {
    const def: Definition
    var state: State

    ghost predicate Valid()
    {
      WellFormed(def)
    }

    constructor Init(d: Definition)
      requires WellFormed(d)
      ensures Valid() && def == d && state == d.start
    {
      def := d;
      state := d.start;
    }

    /** `FST(...)`: fails naming an undeclared item, otherwise the machine
        sits in its start state. */
    static method Create(d: Definition) returns (r: Result<Fst, DefError>)
      ensures r.Ok? <==> WellFormed(d)
      ensures r.Ok? ==> fresh(r.value) && r.value.Valid() && r.value.def == d && r.value.state == d.start
      ensures r.Fail? ==> Offends(d, r.error)
    {
      var err := Validate(d);
      if err.Some? {
        return Fail(err.value);
      }
      var m := new Fst.Init(d);
      return Ok(m);
    }

    /** `step_forward`: fails for a symbol outside the input alphabet (and
        for a missing transition); otherwise moves along the transition and
        returns its output. A failed step leaves the state alone. */
    method StepForward(c: Symbol) returns (r: Result<Symbol, StepError>)
      modifies this
      ensures Step(def, old(state), c).Ok? ==>
        state == Step(def, old(state), c).value.0 && r == Ok(Step(def, old(state), c).value.1)
      ensures Step(def, old(state), c).Fail? ==>
        state == old(state) && r == Fail(Step(def, old(state), c).error)
    {
      if c !in def.inputs {
        return Fail(NotInAlphabet(c));
      }
      if (state, c) !in def.delta {
        return Fail(NoTransition(state, c));
      }
      var (next, o) := def.delta[(state, c)];
      state := next;
      return Ok(o);
    }

    /** `run_forward`: the outputs of the steps in order, and whether the
        final state is accepting; a failing step aborts the run, leaving the
        machine where that step found it. */
    method RunForward(s: seq<Symbol>) returns (r: Result<(bool, seq<Symbol>), StepError>)
      modifies this
      ensures var t := Run(def, old(state), s);
        && state == t.final
        && r == if t.failure.Some? then Fail(t.failure.value) else Ok((t.final in def.accepting, t.output))
    {
      var out: seq<Symbol> := [];
      var i := 0;
      while i < |s|
        invariant 0 <= i <= |s|
        invariant var t := Run(def, state, s[i..]);
          Run(def, old(state), s) == Trace(t.final, out + t.output, t.failure)
      {
        ghost var before := state;
        var step := StepForward(s[i]);
        if step.Fail? {
          return Fail(step.error);
        }
        assert s[i..][1..] == s[i + 1..];
        out := out + [step.value];
        i := i + 1;
      }
      assert s[i..] == [] && out + [] == out;
      return Ok((state in def.accepting, out));
    }

    /** `reverse`: group the transitions by target; targets with two or more
        sources are reported with all of them, the others are inverted. */
    method Reverse() returns (ok: bool, imprecise: map<(State, Symbol), seq<(State, Symbol)>>,
                              rho: map<(State, Symbol), (State, Symbol)>)
      ensures ok <==> Injective(def.delta)
      ensures ok <==> imprecise == map[]
      ensures forall t :: t in imprecise <==> |Sources(def.delta, t)| >= 2
      ensures forall t :: t in imprecise ==> Distinct(imprecise[t]) && Elems(imprecise[t]) == Sources(def.delta, t)
      ensures forall t :: t in rho <==> |Sources(def.delta, t)| == 1
      ensures forall t :: t in rho ==> Sources(def.delta, t) == {rho[t]}
      ensures forall k :: k in def.delta ==> (def.delta[k] in imprecise <==> def.delta[k] !in rho)
      ensures ok ==> rho == Invert(def.delta)
    {
      var delta := def.delta;
      var transitions: map<(State, Symbol), seq<(State, Symbol)>> := map[];
      var todo := delta.Keys;
      ghost var done: set<(State, Symbol)> := {};
      while todo != {}
        invariant todo <= delta.Keys && done <= delta.Keys
        invariant forall k :: k in delta ==> (k in done <==> k !in todo)
        invariant Grouped(delta, done, transitions)
        decreases |todo|
      {
        var k :| k in todo;
        var t := delta[k];
        var srcs := if t in transitions then transitions[t] else [];
        GroupedAdd(delta, done, transitions, k);
        transitions := transitions[t := srcs + [k]];
        todo, done := todo - {k}, done + {k};
      }
      assert done == delta.Keys;
      imprecise, rho := Partition(transitions);
      ok := |imprecise| == 0;
      SplitOutcome(delta, transitions, imprecise, rho);
    }
  }

  /** Every group is filed: the ambiguous ones under `imprecise`, the
      single-source ones, unwrapped, under `rho`. */
  predicate Split(groups: map<(State, Symbol), seq<(State, Symbol)>>,
                  imprecise: map<(State, Symbol), seq<(State, Symbol)>>,
                  rho: map<(State, Symbol), (State, Symbol)>)
  {
    && (forall t :: t in imprecise ==> t in groups && |groups[t]| > 1 && imprecise[t] == groups[t])
    && (forall t :: t in rho ==> t in groups && |groups[t]| == 1 && rho[t] == groups[t][0])
    && (forall t :: t in groups ==> t in imprecise || t in rho)
  }

  /** The second loop of `reverse`: file each group by its size. */
  method Partition(groups: map<(State, Symbol), seq<(State, Symbol)>>)
    returns (imprecise: map<(State, Symbol), seq<(State, Symbol)>>, rho: map<(State, Symbol), (State, Symbol)>)
    requires forall t :: t in groups ==> groups[t] != []
    ensures Split(groups, imprecise, rho)
  {
    imprecise, rho := map[], map[];
    var keys := groups.Keys;
    while keys != {}
      invariant keys <= groups.Keys
      invariant forall t :: t in imprecise ==> t in groups && t !in keys && |groups[t]| > 1 && imprecise[t] == groups[t]
      invariant forall t :: t in rho ==> t in groups && t !in keys && |groups[t]| == 1 && rho[t] == groups[t][0]
      invariant forall t :: t in groups && t !in keys ==> t in imprecise || t in rho
      decreases |keys|
    {
      var t :| t in keys;
      if |groups[t]| > 1 {
        imprecise := imprecise[t := groups[t]];
      } else {
        rho := rho[t := groups[t][0]];
      }
      keys := keys - {t};
    }
  }

  /** `groups` lists, for every target, the sources among `done` that land
      on it, each once. */
  ghost predicate Grouped(delta: map<(State, Symbol), (State, Symbol)>, done: set<(State, Symbol)>,
                          groups: map<(State, Symbol), seq<(State, Symbol)>>)
  {
    && (forall t :: t in groups ==>
          Distinct(groups[t]) && groups[t] != [] && Elems(groups[t]) == SourcesAmong(delta, done, t))
    && (forall t :: t !in groups ==> SourcesAmong(delta, done, t) == {})
  }

  /** Appending one more transition to the group of its target keeps the
      grouping exact. */
  lemma GroupedAdd(delta: map<(State, Symbol), (State, Symbol)>, done: set<(State, Symbol)>,
                   groups: map<(State, Symbol), seq<(State, Symbol)>>, k: (State, Symbol))
    requires Grouped(delta, done, groups)
    requires k in delta && k !in done
    ensures var t := delta[k];
      var srcs := if t in groups then groups[t] else [];
      Grouped(delta, done + {k}, groups[t := srcs + [k]])
  {
    var t := delta[k];
    var srcs := if t in groups then groups[t] else [];
    assert k !in Elems(srcs);
    assert Elems(srcs + [k]) == Elems(srcs) + {k};
    forall u ensures SourcesAmong(delta, done + {k}, u) == SourcesAmong(delta, done, u) + (if u == t then {k} else {}) {
    }
  }

  /** What the second loop of `reverse` leaves, read in terms of the sources
      of each target. */
  lemma SplitOutcome(delta: map<(State, Symbol), (State, Symbol)>,
                     groups: map<(State, Symbol), seq<(State, Symbol)>>,
                     imprecise: map<(State, Symbol), seq<(State, Symbol)>>,
                     rho: map<(State, Symbol), (State, Symbol)>)
    requires Grouped(delta, delta.Keys, groups)
    requires Split(groups, imprecise, rho)
    ensures Injective(delta) <==> imprecise == map[]
    ensures forall t :: t in imprecise <==> |Sources(delta, t)| >= 2
    ensures forall t :: t in imprecise ==> Distinct(imprecise[t]) && Elems(imprecise[t]) == Sources(delta, t)
    ensures forall t :: t in rho <==> |Sources(delta, t)| == 1
    ensures forall t :: t in rho ==> Sources(delta, t) == {rho[t]}
    ensures forall k :: k in delta ==> (delta[k] in imprecise <==> delta[k] !in rho)
    ensures imprecise == map[] ==> rho == Invert(delta)
  {
    forall t ensures (t in groups ==> |Sources(delta, t)| == |groups[t]| && Elems(groups[t]) == Sources(delta, t))
      && (t !in groups ==> Sources(delta, t) == {})
    {
      assert SourcesAmong(delta, delta.Keys, t) == Sources(delta, t);
      if t in groups {
        DistinctCard(groups[t]);
      }
    }
    forall t | t in rho ensures Sources(delta, t) == {rho[t]} {
      assert groups[t] == [rho[t]];
      assert Elems(groups[t]) == {rho[t]};
    }
    forall k | k in delta ensures delta[k] in groups {
      assert k in Sources(delta, delta[k]);
    }
    InjectiveIffSingleSources(delta);
    if imprecise == map[] {
      assert forall t :: |Sources(delta, t)| <= 1;
      var inv := Invert(delta);
      forall t | t in rho ensures t in inv && inv[t] == rho[t] {
        assert rho[t] in Sources(delta, t);
      }
      forall t | t in inv ensures t in rho {
        assert inv[t] in Sources(delta, t);
      }
      assert rho == inv;
    }
  }
}
