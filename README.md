# The `Running` action of the VMware desktop provider

Vagrant runs each machine operation as a chain of middleware steps. Every
step is built with the next step of the chain (`app`) and is called with the
action environment, a hash shared by all steps of the run. `Running` is a
predicate step. It evaluates `env[:machine].state.id == :running` and stores
the boolean under `:result`. It then calls the next step with the same
environment and returns what that step returns. Vagrant's "Call" step reads
`:result` to pick a branch.

The model has two modules:

- `Env` (`env.dfy`) holds Ruby symbols, the values an environment can hold,
  the machine and its state, the exceptions, and the environment itself. The
  environment is a class whose `entries` map is updated in place.
- `Action` (`running.dfy`) holds the step.
  - `StateOf`, `Verdict`, `AfterWrite` and `CallSpec` give, as functions of
    the environment's contents, what one call computes and leaves behind.
  - The class `Running` keeps the next step in its field `app`. Its `Call`
    method changes the environment and is proved against `CallSpec`.
  - The next step is the class `App`. Its behaviour is any deterministic
    pair of functions: how it changes the contents it receives, and what it
    returns. Ghost traces record every call it receives. Each entry holds
    the contents it was handed and the environment object itself. That is
    how "called once, after the write, with the same object" is stated.

The machine's state query is an input. A machine either reports a state or
its provider raises. A Ruby hash read of a missing key gives `nil`. Calling
`state` on anything that is not a machine raises `NoMethodError`. The
right-hand side of `env[:result] = ...` is evaluated before the store. So if
that evaluation raises, nothing is written and the next step is not called.
An exception raised by the next step passes through unchanged. The
`:result` write stays in place in that case.

## Model

| member | source | states |
|---|---|---|
| `Action.StateOf` | lib/vagrant-vmware-desktop/action/running.rb:14 | `env[:machine].state` succeeds exactly when `:machine` holds a machine whose provider reports a state. It then returns that reported state. A missing entry (read as nil) or a non-machine value raises `NoMethodError` for `state`. A provider failure raises `ProviderError` with the provider's detail. |
| `Action.Verdict` | lib/vagrant-vmware-desktop/action/running.rb:14 | The verdict exists exactly when the state could be read. It is true exactly when the state id is `:running`. Otherwise the state's exception is raised. |
| `Action.AfterWrite` | lib/vagrant-vmware-desktop/action/running.rb:14 | The write succeeds exactly when the verdict does. The new contents have the old keys plus `:result`. `:result` holds the boolean verdict. Every other entry is unchanged. On failure the verdict's exception is raised. |
| `Action.CallSpec` | lib/vagrant-vmware-desktop/action/running.rb:13-16 | One call forwards exactly when the verdict can be evaluated. When it forwards, the next step is handed the contents after the write. The final contents and the return value are then the next step's. When it does not forward, the contents are unchanged and the verdict's exception is raised. |
| `Action.Running.constructor` | lib/vagrant-vmware-desktop/action/running.rb:9-11 | Stores `app` as the next step. The environment argument is neither kept nor changed. |
| `Action.Running.Call` | lib/vagrant-vmware-desktop/action/running.rb:13-16 | The environment object ends as `CallSpec` says. The method returns `CallSpec`'s outcome. The next step is called exactly once when the verdict can be evaluated, and never otherwise. That call gets the same environment object, after the `:result` write. |
| `Action.App.Call` | lib/vagrant-vmware-desktop/action/running.rb:15 | The next step `@app.call(env)`. It records the contents and the object it was handed. It changes and answers by its own behaviour functions and nothing else. |
| `Env.Environment.Store` | lib/vagrant-vmware-desktop/action/running.rb:14 | `env[:result] = v` replaces or adds that single entry in place. |
| `Env.Fetch` | lib/vagrant-vmware-desktop/action/running.rb:14 | `env[:machine]` gives the stored value, or nil when the key is absent. |
| `Action.VerdictIsRunning` | lib/vagrant-vmware-desktop/action/running.rb:14-15 | With a machine reporting a state, the step always forwards. The next step sees `:result` true exactly when the id is `:running`, and false for every other id. |
| `Action.OverwritesPriorResult` | lib/vagrant-vmware-desktop/action/running.rb:14 | Whatever `:result` held before has no effect. The next step sees the same contents and the call has the same outcome. When the verdict succeeds, the final contents are the same too. |
| `Action.OnlyResultWritten` | lib/vagrant-vmware-desktop/action/running.rb:14 | Every key other than `:result`, `:machine` included, reaches the next step present or absent as before and with the same value. |
| `Action.Requeried` | lib/vagrant-vmware-desktop/action/running.rb:14 | When a later step reads `env[:machine].state` again, the machine gives the provider's new answer. Every other entry stays the same. |
| `Action.WriteIsIdempotent` | lib/vagrant-vmware-desktop/action/running.rb:14 | A second run of line 14 queries the provider again. A reported state sets `:result` by that later state's id. A failure raises that later `ProviderError`. When the provider answers as it did the first time, the second write leaves the contents exactly as the first left them. |
| `Action.VerdictDependsOnlyOnMachine` | lib/vagrant-vmware-desktop/action/running.rb:14 | Two environments with the same `:machine` entry get the same verdict or the same exception. |
| `Action.FailureLeavesEnvironment` | lib/vagrant-vmware-desktop/action/running.rb:14-15 | When evaluating the verdict raises, the contents are unchanged and the next step is not called. The call raises that exception. |
| `Action.MissingMachineRaises` | lib/vagrant-vmware-desktop/action/running.rb:14 | Without a `:machine` entry the call raises `NoMethodError` for `state` on nil. Nothing is written and nothing is forwarded. |
| `Action.ResultSlotIsBoolean` | lib/vagrant-vmware-desktop/action/running.rb:4-5 | Whenever the next step runs, `:result` holds a boolean, so the "Call" step can read it. |
| `Action.AskRunning` | lib/vagrant-vmware-desktop/action/running.rb:4-15 | A client puts `Running` in front of a step that reads `:result`. It gets `true` or `false` by whether the reported id is `:running`, or the provider's exception. |

## Left out

- How the machine's state is obtained. That is the provider querying the hypervisor, which is external I/O that may block. The model takes the query's outcome as part of the machine value.
- The `Common` mixin included at running.rb:7. Its contents are not part of this model, and `call` does not use it.
- The "Call" built-in and the middleware builder and runner. They are not part of this model. The next step stays an abstract continuation: any deterministic function of the contents it is handed, for both its effect and its return value.
- Action.App.Call: a real next step may also change other objects, or be another `Running`. The model restricts it to changing the environment's contents.
- Ruby's dynamic dispatch on `state` and `id`: only the machine value answers `state`. Any state object answers `id` with a symbol.
- go_src/vagrant-vmware-utility/command/core_windows.go: it only registers a command-line command factory in a map, through a CLI library and a function that is not part of this model.
- Machine state: one machine value holds the provider's answer to a single `state` query. A repeated query is modelled by replacing that answer (`Action.Requeried`), not by a clock or by the hypervisor changing on its own.
- Hash key order: a Ruby hash keeps its keys in insertion order, so a new `:result` goes last and an existing one keeps its place. `map` does not keep that order, so a next step whose behaviour depends on key order cannot be expressed.
- Logging, configuration loading and concurrency: none of these appear in the modelled code.
