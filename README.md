# ActiveReload connection proxy, modelled in Dafny

This project models the read/write splitting router of the masochism plugin:
`ActiveReload::ConnectionProxy`. The proxy holds two already-established connection
handles, a master (writable primary) and a slave (a read replica). When no replica
is configured, the slave is the connection of `ActiveRecord::Base` and the master is
the separate connection that `MasterDatabase` opens, so the two are still distinct
objects and the proxy still switches and logs. A mutable `current` handle starts on
the slave. Here is what the proxy does:

- `set_to_master!` and `set_to_slave!` switch `current`. Each is a no-op when the
  proxy is already there, and each writes one log line on a real switch.
- `with_master` pins the proxy to master while its block runs. It un-pins in an
  `ensure`, so it un-pins on normal exit and on exception alike.
- A closed list of write and schema operations is always delegated to master.
- `transaction` runs the master's own transaction call inside `with_master`.
  `start_db_transaction` defaults to true.
- Every other call goes through `method_missing` to whatever `current` is.

Two hooks wrap an original action in `with_master`:
- record reload, when the connection's class is the proxy class;
- observer notification, when the connection responds to `with_master`.

Files:

- `Routing.dfy` holds module `Routing`, a pure state machine over a snapshot of the proxy.
  - A `Proxy` datatype holds the handles, `current`, the log lines and the calls the handles received.
  - A Ruby block is a `seq<Stmt>`, where a `Stmt` is one thing done to the proxy.
  - An exception is an `Outcome` (`Raised`), so the `ensure` is an ordinary last step.
  - `Step`, `Run`, `PinnedRun` and `TransactionRun` give each operation's new state and outcome.
  - Their contracts say three things. The handles never change. `current` stays one of the two handles. The log and the received calls are only appended to, and every call reaches one of the two handles.
- `ConnectionProxy.dfy` holds module `ActiveReload`, the class `ConnectionProxy`.
  - `master` and `slave` are constants.
  - `current` is overwritten in place.
  - The constructor, `SetToMaster`, `SetToSlave`, `Delegate` and `MethodMissing` state every field of the new state outright.
  - `WithMaster`, `Transaction`, `Perform` and `RunBlock` run blocks. Each postcondition equates the object's new state and result with the `Routing` function of its old state.
- `Properties.dfy` holds module `Properties`, lemmas about the state machine.
- `Hooks.dfy` holds module `Hooks`: `reload_with_master` and `update_with_masterdb`.
- `Scenarios.dfy` holds module `Scenarios`: client methods that fix concrete runs.

A source call by name is `CallOp(name, reply)`. `reply` is what the receiving handle
answers: a value, or a raised driver error. The proxy's own public methods have
statements of their own: `CallWithMaster`, `CallTransaction`, `CallSetToMaster` and
`CallSetToSlave`. `CallTransaction` also carries the handle's answer to its own
transaction call. That call can yield to the block, fail before the block runs, or
run the block and then answer for itself (a swallowed rollback, a failed commit).
`Raise(e)` is the block leaving abruptly: an exception, or a `break`, `return` or
`throw` out of it. Each of these runs `with_master`'s `ensure`, and nothing else in
that block runs. Past the `with_master` being left, Ruby differs from the model: a
`break` makes `with_master` return normally, so the enclosing block goes on, and a
`rescue` catches neither a `return` nor a `throw`. `Rescue(body, handler)` is
`begin body rescue handler end` inside a block. `set_to_master!` returns nil
on a no-op and the master handle otherwise, as Ruby's `return if` and assignment do.
`set_to_slave!` does the same with the slave handle.

## Model

| member | source | states |
|---|---|---|
| `Routing.ToMaster` | lib/active_reload/connection_proxy.rb:50-55 | `set_to_master!` on the snapshot; its properties are those of `Properties.SetToMasterIdempotent` |
| `Routing.ToSlave` | lib/active_reload/connection_proxy.rb:57-62 | `set_to_slave!` on the snapshot; its properties are those of `Properties.SetToSlaveIdempotent` |
| `Routing.Target` | lib/active_reload/connection_proxy.rb:64-74 | the choice between the delegate list and `method_missing`; `Properties.DelegationIgnoresPin` states it both ways |
| `Hooks.Reload` | lib/active_reload/connection_proxy.rb:82-88 | `reload_with_master` on the snapshot; `Hooks.ReloadOnProxyReadsMaster` and `Hooks.ReloadElsewhereUnpinned` state its two branches |
| `Hooks.Notify` | lib/active_reload/connection_proxy.rb:100-108 | `update_with_masterdb` on the snapshot; `Hooks.NotifyOnProxyUsesMaster` and `Hooks.NotifyElsewhereUnpinned` state its two branches |
| `ActiveReload.ConnectionProxy.constructor` | lib/active_reload/connection_proxy.rb:16-20 | the handles are taken as given, `current` is the slave, nothing logged or sent |
| `ActiveReload.ConnectionProxy.SetToMaster` | lib/active_reload/connection_proxy.rb:50-55 | ends on master; from master nothing changes and nil is returned; otherwise exactly one "Switching to Master" line is appended |
| `ActiveReload.ConnectionProxy.SetToSlave` | lib/active_reload/connection_proxy.rb:57-62 | ends on the slave; from the slave nothing changes; otherwise exactly one "Switching to Slave" line is appended |
| `ActiveReload.ConnectionProxy.Delegate` | lib/active_reload/connection_proxy.rb:64-66 | a delegated name reaches master whatever the pin state; `current` and the log are unchanged; the reply is passed back |
| `ActiveReload.ConnectionProxy.MethodMissing` | lib/active_reload/connection_proxy.rb:72-74 | any other name reaches the current handle; nothing else changes; the reply is passed back |
| `ActiveReload.ConnectionProxy.WithMaster` | lib/active_reload/connection_proxy.rb:43-48 | pins, runs the block and un-pins on every exit; ends on the slave; state and outcome are `PinnedRun` of the old state |
| `ActiveReload.ConnectionProxy.Transaction` | lib/active_reload/connection_proxy.rb:68-70 | master receives the transaction call with `start_db_transaction` (true by default); the block runs unless that call fails to begin; the outcome is the call's own answer or the block's; state and outcome are `TransactionRun` of the old state; ends on the slave |
| `ActiveReload.ConnectionProxy.Perform` | lib/active_reload/connection_proxy.rb:43-74 | one call on the proxy is dispatched to the right method, and the new state is `Step` of the old one |
| `ActiveReload.ConnectionProxy.RunBlock` | lib/active_reload/connection_proxy.rb:45 | yielding to a block runs its statements in order until one raises; the new state and outcome are `Run` of the old state |
| `Routing.Step` | lib/active_reload/connection_proxy.rb:43-74 | any call on the proxy keeps both handles, keeps `current` one of them, only appends to the log and the received calls, and every call reaches master or slave |
| `Routing.Run` | lib/active_reload/connection_proxy.rb:45 | the same invariant holds for any block, nested pinning and transactions included |
| `Routing.PinnedRun` | lib/active_reload/connection_proxy.rb:43-48 | after `with_master`, whatever the block did or raised, the proxy is on the slave and the invariant holds |
| `Routing.TransactionRun` | lib/active_reload/connection_proxy.rb:68-70 | after `transaction`, whatever the handle's transaction call answered or the block raised, the proxy is on the slave and the invariant holds |
| `Properties.SetToMasterIdempotent` | lib/active_reload/connection_proxy.rb:50-55 | calling it twice is the same as once; from the slave, two calls log exactly one line |
| `Properties.SetToSlaveIdempotent` | lib/active_reload/connection_proxy.rb:57-62 | calling it twice is the same as once; from master, two calls log exactly one line |
| `Properties.DelegationIgnoresPin` | lib/active_reload/connection_proxy.rb:64-74 | with a real replica, a name reaches master from both pin states if and only if it is on the delegate list; other names reach `current` |
| `Properties.DelegatedCall` | lib/active_reload/connection_proxy.rb:64-66 | a delegated call only appends one call received by master and returns the handle's reply |
| `Properties.PlainCallsIgnoreHistory` | lib/active_reload/connection_proxy.rb:64-74 | where a plain call goes depends only on the master handle and `current`, not on earlier calls |
| `Properties.PinnedCallsReachMaster` | lib/active_reload/connection_proxy.rb:64-74 | on master, every plain call, delegated or forwarded, reaches master |
| `Properties.PlainRun` | lib/active_reload/connection_proxy.rb:64-74 | a block of plain calls never switches or logs; the handles receive exactly the block's calls up to the first raise, each routed by the pin state; the outcome is the first raise or the last reply |
| `Properties.RaiseEndsBlock` | lib/active_reload/connection_proxy.rb:45 | when the statements before a raise complete normally, the block's state is theirs and its outcome is the raise; nothing after it runs |
| `Properties.WithMasterPinsPlainBlock` | lib/active_reload/connection_proxy.rb:43-48 | the handles receive exactly the plain block's calls, each on master; the proxy ends on the slave; the log holds exactly the real transitions; the outcome is the block's |
| `Properties.WithMasterUnpinsOnRaise` | lib/active_reload/connection_proxy.rb:43-48 | when the block raises after statements that completed, the state is theirs un-pinned to the slave, the error propagates unchanged, and the rest of the block never runs |
| `Properties.NestedExitUnpinsOuter` | lib/active_reload/connection_proxy.rb:43-48 | the exit of an inner `with_master` un-pins the outer one, so its next forwarded call reaches the slave |
| `Properties.NestedRescueUnpinsOuter` | lib/active_reload/connection_proxy.rb:43-48 | the same holds when the inner `with_master` raises and the outer block rescues the error |
| `Properties.TransactionPinsPlainBlock` | lib/active_reload/connection_proxy.rb:68-70 | master receives the transaction call first; unless it fails to begin, the handles then receive exactly the body's calls, all on master; the proxy ends on the slave; the outcome is the call's failure, its own answer, or the body's |
| `Properties.SingleHandleStep` | lib/active_reload/connection_proxy.rb:16-19 | a proxy built with one handle passed in both roles behaves like that connection used directly (`Properties.Direct`): the same calls, the same outcome, no switch and no log line |
| `Properties.SingleHandleRun` | lib/active_reload/connection_proxy.rb:16-19 | the same holds for any block, nested pinning, transactions and rescues included |
| `Hooks.ReloadWithMaster` | lib/active_reload/connection_proxy.rb:82-88 | the reload hook changes the connection's state exactly as `Hooks.Reload` says and returns the original's outcome |
| `Hooks.UpdateWithMasterdb` | lib/active_reload/connection_proxy.rb:100-108 | the observer hook changes the connection's state exactly as `Hooks.Notify` says and returns the original's outcome |
| `Hooks.ReloadOnProxyReadsMaster` | lib/active_reload/connection_proxy.rb:83-84 | on the proxy class the handles receive exactly the reload's calls, all on master; the proxy ends on the slave, logging only real transitions; the original's result or error passes through |
| `Hooks.ReloadElsewhereUnpinned` | lib/active_reload/connection_proxy.rb:85-86 | on any other class name the original reload runs with no switch and no log line, its calls routed by the current pin state, and its result is passed back unchanged |
| `Hooks.NotifyOnProxyUsesMaster` | lib/active_reload/connection_proxy.rb:101-104 | a connection that responds to `with_master` receives exactly the notification's calls, all on master; it ends on the slave, with the original's outcome |
| `Hooks.NotifyElsewhereUnpinned` | lib/active_reload/connection_proxy.rb:105-106 | otherwise the original notification runs with no routing change: its calls routed by the current pin state, its outcome unchanged |
| `Scenarios.ReadWriteScenario` | lib/active_reload/connection_proxy.rb:43-74 | exactly which calls reach master and slave, and which lines are logged, for an insert, a read, a pinned read and a transaction; the transaction returns its block's value |
| `Scenarios.FailedTransactionScenario` | lib/active_reload/connection_proxy.rb:68-70 | a transaction whose handle fails to begin sends only the transaction call to master, its block never runs, and after the rescue the next read reaches the slave |
| `Scenarios.ReloadAfterSaveScenario` | lib/active_reload/connection_proxy.rb:82-88 | a reload right after an insert reads from master, and the proxy is back on the slave afterwards |
| `Scenarios.ReloadOnOtherClassScenario` | lib/active_reload/connection_proxy.rb:85-86 | the same reload on a connection of another class name reads from the slave |

## Left out

- `MasterDatabase`, `SlaveDatabase` and `establish_connection` (lines 2-13) are left out. They load configuration and open real connections. The proxy receives two integer handles instead.
- `setup!`, `slave_defined?` and `setup_for` (lines 24-41) are left out. They read global Rails configuration, mix modules into framework classes and register the proxy in `active_connections`.
- `attr_accessor :slave, :master` (line 22) is left out. It is a public mutator that bypasses the routing, so the model's handles are constants.
- The `alias_method_chain` plumbing (lines 78-80, 95-97) is left out. Each hook is a method that runs an explicit "original" block.
- The SQL and driver behaviour of the handles are left out. A call is recorded only as which handle received it, plus the reply or error the caller supplies. The handle's transaction call is reduced to its three possible answers (`TxnAnswer`); what it does to the database is not modelled.
- The logger is only the appended `log` sequence of events; the comment on `Routing.LogEvent` names each event's text. `logger` (lines 53 and 60) is itself a call that goes through `method_missing` to the handle being left. That call is not recorded in `received`, so `received` holds only the caller's calls.
- Exceptions are untyped: `Rescue` rescues every error, there is no rescue by error class and no `retry`. A `break`, `return` or `throw` out of a block is modelled as `Raise`, since the proxy treats all of them alike: its `ensure` runs and nothing else in the block does. Past the `with_master` being left the caller sees something else: after a `break` the enclosing block carries on, and `Rescue` would catch a `return` or `throw` that Ruby's `rescue` does not.
- `Hooks.ReloadWithMaster`: the hook receives `*args, &block` (line 82) but calls `reload_without_master` with no arguments (lines 84 and 86), so they never reach the original reload. The model's hook has no such arguments, and the original reload is modelled as taking none.
- Arguments and blocks that `method_missing` and the delegated methods pass on are left out. Only the operation name is kept.
- Reflection is left out. `method_missing` forwards any name to `current`. The model routes names given by `CallOp`, and the proxy's own public methods have their own statements. A `CallOp` naming one of the proxy's own methods is routed like a forwarded call, but Ruby never sends those names to `method_missing`. Nor does it send the public methods the proxy inherits from `Object` (`class`, `respond_to?`, `==`, `to_s`). The hooks rely on exactly this: `connection.class.name` (line 83) and `respond_to?(:with_master)` (line 101) ask the proxy itself, not the handle.
- The hooks' connection test is an input. `reload_with_master` compares `connection.class.name` with the proxy class name, and that name is a parameter. `update_with_masterdb` asks `respond_to?(:with_master)`, which is a boolean parameter. When a hook does not pin, the model runs the original block on the same connection without pinning. The state changes a foreign connection would go through are not modelled.
- Concurrent use of one proxy from several threads is left out. Method calls are sequential, as the source assumes.
- A depth-counting variant of `with_master` is not modelled. The binary pin is kept as written, and `Properties.NestedExitUnpinsOuter` shows its effect on nested scopes.
