/** The `Running` middleware step: it records in `:result` whether the
    machine in `:machine` is in state `:running`, then hands the same
    environment to the next step of the chain and returns what that returns.
    It is meant to serve as the predicate of the "Call" branching step, which
    reads `:result`; that step is not part of this model. */
module Action {
  import opened Env

  // ---------------------------------------------------------------------
  // What one call does, as functions of the environment's contents
  // ---------------------------------------------------------------------

  /** `env[:machine].state`: only a machine answers `state`; the provider may raise. */
  function StateOf(entries: map<Symbol, Value>): (r: Result<MachineState>)
    ensures r.Ok? <==> Fetch(entries, MachineKey).MachineVal?
                       && Fetch(entries, MachineKey).machine.state.Reports?
    ensures !Fetch(entries, MachineKey).MachineVal? ==>
              r == Err(NoMethodError("state", Fetch(entries, MachineKey)))
    ensures Fetch(entries, MachineKey).MachineVal? && r.Err? ==>
              r.error == ProviderError(Fetch(entries, MachineKey).machine.state.detail)
    ensures r.Ok? ==> r.value == Fetch(entries, MachineKey).machine.state.state
  {
    match Fetch(entries, MachineKey)
    case MachineVal(m) =>
      (match m.state
       case Reports(s) => Ok(s)
       case Fails(d) => Err(ProviderError(d)))
    case other => Err(NoMethodError("state", other))
  }

  /** `env[:machine].state.id == :running`, or the exception evaluating it raises. */
  function Verdict(entries: map<Symbol, Value>): (r: Result<bool>)
    ensures r.Ok? <==> StateOf(entries).Ok?
    ensures r.Ok? ==> (r.value <==> StateOf(entries).value.id == RunningId)
    ensures r.Err? ==> r.error == StateOf(entries).error
  {
    match StateOf(entries)
    case Ok(s) => Ok(s.id == RunningId)
    case Err(e) => Err(e)
  }

  /** The contents after `env[:result] = <verdict>`: the right-hand side is
      evaluated first, so when it raises nothing is written. */
  function AfterWrite(entries: map<Symbol, Value>): (r: Result<map<Symbol, Value>>)
    ensures r.Ok? <==> Verdict(entries).Ok?
    ensures r.Err? ==> r.error == Verdict(entries).error
    ensures r.Ok? ==> r.value.Keys == entries.Keys + {ResultKey}
    ensures r.Ok? ==> r.value[ResultKey] == BoolVal(Verdict(entries).value)
    ensures r.Ok? ==> forall k :: k in entries && k != ResultKey ==> r.value[k] == entries[k]
  {
    match Verdict(entries)
    case Ok(b) => Ok(entries[ResultKey := BoolVal(b)])
    case Err(e) => Err(e)
  }

  /** The behaviour of whatever step follows in the chain: how it changes the
      environment and what its `call` returns, both as functions of the
      contents it is handed. */
  datatype NextStep = NextStep(
    effect: map<Symbol, Value> -> map<Symbol, Value>,
    respond: map<Symbol, Value> -> Outcome)

  /** The observable result of one call of the step: the environment's final
      contents, what the call returns or raises, and the contents the next
      step was handed (None when it was not called). */
  datatype Run = Run(final: map<Symbol, Value>, outcome: Outcome, forwarded: Option<map<Symbol, Value>>)

  /** One call of the step with `entries` in the environment and `next` after it. */
  function CallSpec(entries: map<Symbol, Value>, next: NextStep): (r: Run)
    ensures r.forwarded.Some? <==> Verdict(entries).Ok?
    ensures r.forwarded.Some? ==>
              AfterWrite(entries) == Ok(r.forwarded.value)
              && r.final == next.effect(r.forwarded.value)
              && r.outcome == next.respond(r.forwarded.value)
    ensures r.forwarded.None? ==>
              r.final == entries && r.outcome == Raised(Verdict(entries).error)
  {
    match AfterWrite(entries)
    case Ok(w) => Run(next.effect(w), next.respond(w), Some(w))
    case Err(e) => Run(entries, Raised(e), None)
  }

  /** The env contents the next step is handed in one call, as a list of zero or one. */
  function Handed(r: Run): (h: seq<map<Symbol, Value>>)
    ensures |h| == (if r.forwarded.Some? then 1 else 0)
    ensures r.forwarded.Some? ==> h[0] == r.forwarded.value
  {
    match r.forwarded
    case Some(w) => [w]
    case None => []
  }

  // ---------------------------------------------------------------------
  // The chain objects
  // ---------------------------------------------------------------------

  /** The next step `@app`. Its ghost fields record every call it receives:
      the contents it was handed and the environment object itself. */
  class App {
    const step: NextStep
    ghost var seen: seq<map<Symbol, Value>>
    ghost var envs: seq<Environment>

    constructor (step: NextStep)
      ensures this.step == step && seen == [] && envs == []
    {
      this.step := step;
      seen := [];
      envs := [];
    }

    method Call(env: Environment) returns (o: Outcome)
      modifies this, env
      ensures seen == old(seen) + [old(env.entries)]
      ensures envs == old(envs) + [env]
      ensures env.entries == step.effect(old(env.entries))
      ensures o == step.respond(old(env.entries))
    {
      seen := seen + [env.entries];
      envs := envs + [env];
      o := step.respond(env.entries);
      env.entries := step.effect(env.entries);
    }
  }

  class Running {
    const app: App

    /** Records the next step; the environment given at construction is not kept. */
    constructor (app: App, env: Environment)
      ensures this.app == app
      ensures unchanged(env)
    {
      this.app := app;
    }

    /** Writes the verdict into `:result`, then forwards the same environment
        to the next step once and returns what it returns. When evaluating
        the verdict raises, nothing is written and nothing is forwarded. */
    method Call(env: Environment) returns (o: Outcome)
      modifies env, app
      ensures var r := CallSpec(old(env.entries), app.step);
              env.entries == r.final && o == r.outcome
              && app.seen == old(app.seen) + Handed(r)
      ensures Verdict(old(env.entries)).Ok? ==> app.envs == old(app.envs) + [env]
      ensures Verdict(old(env.entries)).Err? ==> app.envs == old(app.envs)
    {
      var v := Verdict(env.entries);
      match v
      case Err(e) =>
        o := Raised(e);
      case Ok(b) =>
        env.Store(ResultKey, BoolVal(b));
        o := app.Call(env);
    }
  }

  // ---------------------------------------------------------------------
  // Properties of the step
  // ---------------------------------------------------------------------

  /** With a machine that reports state `s`, the step always forwards, and the
      next step finds `:result` true exactly when `s.id` is `:running`. */
  lemma VerdictIsRunning(entries: map<Symbol, Value>, next: NextStep, s: MachineState)
    requires Fetch(entries, MachineKey) == MachineVal(Machine(Reports(s)))
    ensures CallSpec(entries, next).forwarded.Some?
    ensures CallSpec(entries, next).forwarded.value[ResultKey] == BoolVal(true) <==> s.id == RunningId
    ensures CallSpec(entries, next).forwarded.value[ResultKey] == BoolVal(false) <==> s.id != RunningId
  {
  }

  /** Whatever `:result` held before, the call behaves exactly as if it had
      held nothing: the old value is overwritten and never observed. */
  lemma OverwritesPriorResult(entries: map<Symbol, Value>, next: NextStep, prior: Value)
    ensures CallSpec(entries[ResultKey := prior], next).forwarded == CallSpec(entries, next).forwarded
    ensures CallSpec(entries[ResultKey := prior], next).outcome == CallSpec(entries, next).outcome
    ensures Verdict(entries).Ok? ==>
              CallSpec(entries[ResultKey := prior], next) == CallSpec(entries, next)
  {
    var primed := entries[ResultKey := prior];
    assert Fetch(primed, MachineKey) == Fetch(entries, MachineKey);
    VerdictDependsOnlyOnMachine(primed, entries);
    if Verdict(entries).Ok? {
      var b := BoolVal(Verdict(entries).value);
      assert primed[ResultKey := b] == entries[ResultKey := b];
    }
  }

  /** The step writes no key besides `:result`: the next step is handed every
      other entry, `:machine` included, exactly as it was. */
  lemma OnlyResultWritten(entries: map<Symbol, Value>, next: NextStep, k: Symbol)
    requires k != ResultKey
    requires CallSpec(entries, next).forwarded.Some?
    ensures k in CallSpec(entries, next).forwarded.value <==> k in entries
    ensures k in entries ==> CallSpec(entries, next).forwarded.value[k] == entries[k]
  {
  }

  /** The contents as a later step finds them when the machine under
      `:machine` answers its next `state` query with `later`: each query goes
      to the provider again, so its answer may differ from the first. */
  function Requeried(entries: map<Symbol, Value>, later: StateQuery): (r: map<Symbol, Value>)
    requires Fetch(entries, MachineKey).MachineVal?
    ensures r.Keys == entries.Keys
    ensures Fetch(r, MachineKey) == MachineVal(Machine(later))
    ensures forall k :: k in entries && k != MachineKey ==> r[k] == entries[k]
  {
    entries[MachineKey := MachineVal(Machine(later))]
  }

  /** A second write right after the first (a second `Running` step, say)
      asks the provider again. Its verdict follows that later answer; when
      the provider answers as before, the second write leaves the contents
      exactly as the first left them. */
  lemma WriteIsIdempotent(entries: map<Symbol, Value>, later: StateQuery)
    requires Fetch(entries, MachineKey).MachineVal?
    requires AfterWrite(entries).Ok?
    ensures later == Fetch(entries, MachineKey).machine.state ==>
              AfterWrite(Requeried(AfterWrite(entries).value, later)) == AfterWrite(entries)
    ensures later.Reports? ==>
              AfterWrite(Requeried(AfterWrite(entries).value, later)).Ok?
              && AfterWrite(Requeried(AfterWrite(entries).value, later)).value[ResultKey]
                 == BoolVal(later.state.id == RunningId)
    ensures later.Fails? ==>
              AfterWrite(Requeried(AfterWrite(entries).value, later)) == Err(ProviderError(later.detail))
  {
    var w := AfterWrite(entries).value;
    assert Fetch(w, MachineKey) == Fetch(entries, MachineKey);
    if later == Fetch(entries, MachineKey).machine.state {
      assert Requeried(w, later) == w;
      VerdictDependsOnlyOnMachine(w, entries);
      var b := BoolVal(Verdict(entries).value);
      assert w[ResultKey := b] == w;
    }
  }

  /** The verdict depends on the `:machine` entry alone. */
  lemma VerdictDependsOnlyOnMachine(e1: map<Symbol, Value>, e2: map<Symbol, Value>)
    requires Fetch(e1, MachineKey) == Fetch(e2, MachineKey)
    ensures Verdict(e1) == Verdict(e2)
  {
  }

  /** When the verdict raises, the environment is untouched, the next step is
      not called, and the exception is what the call raises. */
  lemma FailureLeavesEnvironment(entries: map<Symbol, Value>, next: NextStep)
    requires Verdict(entries).Err?
    ensures CallSpec(entries, next) == Run(entries, Raised(Verdict(entries).error), None)
  {
  }

  /** Without a `:machine` entry, `nil.state` raises: nothing is written or forwarded. */
  lemma MissingMachineRaises(entries: map<Symbol, Value>, next: NextStep)
    requires MachineKey !in entries
    ensures CallSpec(entries, next) == Run(entries, Raised(NoMethodError("state", NilVal)), None)
  {
  }

  /** The slot the "Call" step reads holds a boolean whenever the next step runs. */
  lemma ResultSlotIsBoolean(entries: map<Symbol, Value>, next: NextStep)
    requires CallSpec(entries, next).forwarded.Some?
    ensures Fetch(CallSpec(entries, next).forwarded.value, ResultKey).BoolVal?
  {
  }

  // ---------------------------------------------------------------------
  // A client that reads `:result` back through the next step
  // ---------------------------------------------------------------------

  /** The next step of a predicate chain that leaves the environment alone
      and answers with the `:result` slot. */
  function ReadResult(entries: map<Symbol, Value>): (o: Outcome)
    ensures o.Returned? && (ResultKey in entries ==> o.value == entries[ResultKey])
  {
    Returned(Fetch(entries, ResultKey))
  }

  /** Runs `Running` over a fresh environment holding only the machine, in
      front of a step that reads `:result` back, and reports what it read. */
  method AskRunning(m: Machine) returns (o: Outcome)
    ensures m.state.Reports? ==> o == Returned(BoolVal(m.state.state.id == RunningId))
    ensures m.state.Fails? ==> o == Raised(ProviderError(m.state.detail))
  {
    var env := new Environment(map[MachineKey := MachineVal(m)]);
    var reader := new App(NextStep(e => e, ReadResult));
    var step := new Running(reader, env);
    o := step.Call(env);
  }
}
