/** The action environment: the Ruby hash that every middleware step of a
    Vagrant action chain receives, reads and updates in place. Keys are Ruby
    symbols; values are heterogeneous. */
module Env {

  /** A Ruby symbol such as `:running`; two symbols are equal exactly when
      their names are. */
  datatype Symbol = Sym(name: string)

  /** `:result`, the slot a predicate step leaves its verdict in. */
  const ResultKey: Symbol := Sym("result")
  /** `:machine`, the slot the invoker puts the machine under. */
  const MachineKey: Symbol := Sym("machine")
  /** `:running`, the state id of a running machine. */
  const RunningId: Symbol := Sym("running")

  /** What a machine's `state` accessor returns: a state whose `id` is a
      symbol (`:running`, `:poweroff`, `:suspended`, `:not_created`, ...). */
  datatype MachineState = MachineState(id: Symbol)

  /** The outcome of asking the provider for the machine's state. The query
      itself talks to the hypervisor; here it is an opaque input. */
  datatype StateQuery = Reports(state: MachineState) | Fails(detail: string)

  /** The machine object stored under `:machine`. */
  datatype Machine = Machine(state: StateQuery)

  /** The values an environment can hold; `NilVal` is what a missing key reads as. */
  datatype Value =
    | NilVal
    | BoolVal(b: bool)
    | IntVal(i: int)
    | StrVal(s: string)
    | SymVal(sym: Symbol)
    | MachineVal(machine: Machine)

  /** Exceptions raised while a step runs. */
  datatype Error =
    | NoMethodError(selector: string, receiver: Value)  // a method called on a value that lacks it
    | ProviderError(detail: string)                   // raised by the provider's state query
    | StepError(detail: string)                       // raised by some later step of the chain

  /** What a step's `call` does: return a value or raise. */
  datatype Outcome = Returned(value: Value) | Raised(error: Error)

  datatype Result<T> = Ok(value: T) | Err(error: Error)

  datatype Option<T> = None | Some(value: T)

  /** `env[k]`: the stored value, or nil when the key is absent. */
  function Fetch(entries: map<Symbol, Value>, k: Symbol): (v: Value)
    ensures k in entries ==> v == entries[k]
    ensures k !in entries ==> v == NilVal
  {
    if k in entries then entries[k] else NilVal
  }

  /** The hash object itself, shared by reference between all steps of a run. */
  class Environment {
    var entries: map<Symbol, Value>

    constructor (init: map<Symbol, Value>)
      ensures entries == init
    {
      entries := init;
    }

    /** `env[k] = v`: overwrites the entry for `k`, or adds one. */
    method Store(k: Symbol, v: Value)
      modifies this
      ensures entries == old(entries)[k := v]
    {
      entries := entries[k := v];
    }
  }
}
