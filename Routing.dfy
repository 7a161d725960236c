/** The routing state machine of ActiveReload::ConnectionProxy, as pure functions over
    a snapshot of the proxy's state.

    A proxy holds two opaque connection handles, `master` and `slave`, and the handle
    `current` that method_missing forwards to.  Everything a caller does with the proxy is a `Stmt`;
    a Ruby block is a sequence of statements.  A raised exception is an `Outcome`
    rather than a control transfer, so the `ensure` of with_master is an ordinary
    step that runs whatever the block's outcome was. */
module Routing {

  /** A connection handle; the proxy only ever compares handles for identity. */
  type Handle = int

  /** The operations the proxy always forwards to master (the `delegate ... :to => :master` list). */
  const DelegatedNames: set<string> := {
    "insert", "update", "delete", "create_table", "rename_table", "drop_table",
    "add_column", "remove_column", "change_column", "change_column_default",
    "rename_column", "add_index", "remove_index", "initialize_schema_information",
    "dump_schema_information", "execute", "columns"
  }

  predicate IsDelegated(name: string) {
    name in DelegatedNames
  }

  /** What a call returns: nil, an opaque datum from a handle, or a handle itself. */
  datatype Value = Nil | Data(datum: int) | Conn(handle: Handle)

  /** A call either returns a value or raises an error (identified by an opaque code). */
  datatype Outcome = Returned(value: Value) | Raised(error: int)

  /** What the proxy writes to the logger: "Switching to Master" and "Switching to Slave". */
  datatype LogEvent = SwitchingToMaster | SwitchingToSlave

  /** A call received by an underlying handle: an operation by name, or the
      handle's own transaction primitive with its start_db_transaction flag. */
  datatype Op = Named(name: string) | BeginTransaction(start: bool)

  datatype Delivery = Delivery(to: Handle, op: Op)

  /** One thing a caller (or a block) does with the proxy.
      CallOp is a call that reaches the delegate list or method_missing, that is, any
      name other than the proxy's own methods, which have statements of their own.
      `reply` is what the receiving handle answers; a Raised reply is a driver error.
      CallTransaction's `answer` is how the handle's own transaction call behaves;
      `start` is start_db_transaction, true unless given.
      Raise is the block itself leaving abruptly: raising, or a break, return or
      throw out of the block, all of which run with_master's `ensure`.
      Rescue is `begin body rescue handler end` inside a block. */
  datatype Stmt =
    | CallOp(name: string, reply: Outcome)
    | CallWithMaster(body: seq<Stmt>)
    | CallTransaction(body: seq<Stmt>, answer: TxnAnswer, start: bool := true)
    | CallSetToMaster
    | CallSetToSlave
    | Raise(error: int)
    | Rescue(body: seq<Stmt>, handler: seq<Stmt>)

  /** How a handle's transaction primitive answers: it yields to the block and
      returns the block's outcome; it raises before the block runs (the transaction
      cannot begin); or it runs the block and then answers with an outcome of its
      own (a rollback it swallows, a commit that fails). */
  datatype TxnAnswer = YieldsBlock | FailsToBegin(error: int) | Overrides(outcome: Outcome)

  /** The proxy's state: its two handles, the current one, what it has logged so far
      and every call its handles have received so far. */
  datatype Proxy = Proxy(master: Handle, slave: Handle, current: Handle,
                         log: seq<LogEvent>, received: seq<Delivery>)

  /** The routing invariant: current is one of the two handles, never a third. */
  predicate Valid(p: Proxy) {
    p.current == p.master || p.current == p.slave
  }

  /** set_to_master!: nothing happens if already on master; otherwise one log line and a switch. */
  function ToMaster(p: Proxy): Proxy {
    if p.current == p.master then p
    else p.(current := p.master, log := p.log + [SwitchingToMaster])
  }

  /** set_to_slave!: the mirror image of ToMaster. */
  function ToSlave(p: Proxy): Proxy {
    if p.current == p.slave then p
    else p.(current := p.slave, log := p.log + [SwitchingToSlave])
  }

  /** The handle a call by name reaches: a delegated name goes to master, any other
      name goes through method_missing to whatever is current. */
  function Target(p: Proxy, name: string): Handle {
    if IsDelegated(name) then p.master else p.current
  }

  function Deliver(p: Proxy, to: Handle, op: Op): Proxy {
    p.(received := p.received + [Delivery(to, op)])
  }

  /** q is a later state of p: same handles, logs and deliveries only appended to,
      and if p keeps the routing invariant then so does q and every new call reached
      one of the two handles. */
  predicate Extends(p: Proxy, q: Proxy) {
    && q.master == p.master && q.slave == p.slave
    && p.log <= q.log && p.received <= q.received
    && (Valid(p) ==>
          && Valid(q)
          && forall i :: |p.received| <= i < |q.received| ==>
               q.received[i].to == p.master || q.received[i].to == p.slave)
  }

  /** Every call delivered between p and q reached handle h. */
  predicate DeliveredTo(p: Proxy, q: Proxy, h: Handle) {
    forall i :: |p.received| <= i < |q.received| ==> q.received[i].to == h
  }

  lemma ExtendsTransitive(p: Proxy, q: Proxy, r: Proxy)
    requires Extends(p, q) && Extends(q, r)
    ensures Extends(p, r)
  {
    if Valid(p) {
      forall i | |p.received| <= i < |r.received|
        ensures r.received[i].to == p.master || r.received[i].to == p.slave
      {
        if i < |q.received| {
          assert r.received[i] == q.received[i];
        }
      }
    }
  }

  /** Measures for the mutual recursion through nested blocks. */
  function Size(s: Stmt): (n: nat)
    ensures n >= 1
  {
    match s
    case CallWithMaster(body) => SizeAll(body) + 1
    case CallTransaction(body, _, _) => SizeAll(body) + 1
    case Rescue(body, handler) => SizeAll(body) + SizeAll(handler) + 1
    case _ => 1
  }

  function SizeAll(body: seq<Stmt>): nat {
    if body == [] then 0 else Size(body[0]) + SizeAll(body[1..])
  }

  lemma {:induction false} SizeAllElement(body: seq<Stmt>, i: nat)
    requires i < |body|
    ensures Size(body[i]) <= SizeAll(body)
  {
    if i > 0 {
      SizeAllElement(body[1..], i - 1);
    }
  }

  /** One statement issued on the proxy: the new state and the statement's outcome. */
  function Step(p: Proxy, s: Stmt): (r: (Proxy, Outcome))
    decreases Size(s), 1
    ensures Extends(p, r.0)
  {
    match s
    case CallOp(name, reply) => (Deliver(p, Target(p, name), Named(name)), reply)
    case CallWithMaster(body) => PinnedRun(p, body)
    case CallTransaction(body, answer, start) => TransactionRun(p, start, body, answer)
    case CallSetToMaster =>
      (ToMaster(p), if p.current == p.master then Returned(Nil) else Returned(Conn(p.master)))
    case CallSetToSlave =>
      (ToSlave(p), if p.current == p.slave then Returned(Nil) else Returned(Conn(p.slave)))
    case Raise(e) => (p, Raised(e))
    case Rescue(body, handler) =>
      var q := Run(p, body, Returned(Nil));
      if q.1.Raised? then
        var r := Run(q.0, handler, Returned(Nil));
        ExtendsTransitive(p, q.0, r.0);
        r
      else q
  }

  /** A block run from state p: statements in order, stopping at the first that raises.
      The outcome is that of the last statement run (`last` when there is none). */
  function Run(p: Proxy, body: seq<Stmt>, last: Outcome): (r: (Proxy, Outcome))
    decreases SizeAll(body), 2
    ensures Extends(p, r.0)
  {
    if body == [] then (p, last)
    else
      var q := Step(p, body[0]);
      if q.1.Raised? then q
      else
        var r := Run(q.0, body[1..], q.1);
        ExtendsTransitive(p, q.0, r.0);
        r
  }

  /** with_master: pin, run the block, then un-pin whatever the block's outcome;
      the outcome is the block's own. */
  function PinnedRun(p: Proxy, body: seq<Stmt>): (r: (Proxy, Outcome))
    decreases SizeAll(body), 3
    ensures Extends(p, r.0)
    ensures r.0.current == p.slave
  {
    var q := Run(ToMaster(p), body, Returned(Nil));
    ExtendsTransitive(p, ToMaster(p), q.0);
    ExtendsTransitive(p, q.0, ToSlave(q.0));
    (ToSlave(q.0), q.1)
  }

  /** transaction: inside with_master, the current handle (master) receives the
      transaction call; how the call answers decides whether the block runs and
      what comes out.  On every answer the proxy is un-pinned afterwards. */
  function TransactionRun(p: Proxy, start: bool, body: seq<Stmt>, answer: TxnAnswer): (r: (Proxy, Outcome))
    decreases SizeAll(body), 3
    ensures Extends(p, r.0)
    ensures r.0.current == p.slave
  {
    var pinned := ToMaster(p);
    var begun := Deliver(pinned, pinned.current, BeginTransaction(start));
    ExtendsTransitive(p, pinned, begun);
    match answer
    case FailsToBegin(e) =>
      ExtendsTransitive(p, begun, ToSlave(begun));
      (ToSlave(begun), Raised(e))
    case _ =>
      var q := Run(begun, body, Returned(Nil));
      ExtendsTransitive(p, begun, q.0);
      ExtendsTransitive(p, q.0, ToSlave(q.0));
      (ToSlave(q.0), if answer.Overrides? then answer.outcome else q.1)
  }
}
