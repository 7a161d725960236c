/** ActiveReload::ConnectionProxy as an object: the two handles are fixed at
    construction, `current` is overwritten in place by set_to_master! and
    set_to_slave!.  The switching and forwarding methods state their new fields
    outright; the methods that run blocks are proved to change the proxy exactly as
    the routing state machine of module Routing says. */
module ActiveReload {
  import opened Routing

  class ConnectionProxy {
    const master: Handle
    const slave: Handle
    var current: Handle
    /** Lines written to the logger, oldest first. */
    var log: seq<LogEvent>
    /** Calls received by the two handles, oldest first. */
    var received: seq<Delivery>

    function Snapshot(): Proxy
      reads this
    {
      Proxy(master, slave, current, log, received)
    }

    predicate Valid()
      reads this
    {
      Routing.Valid(Snapshot())
    }

    /** The handles are taken as given; the proxy starts on the slave. */
    constructor (master: Handle, slave: Handle)
      ensures Valid()
      ensures this.master == master && this.slave == slave && current == slave
      ensures log == [] && received == []
    {
      this.master := master;
      this.slave := slave;
      current := slave;
      log := [];
      received := [];
    }

    /** set_to_master!: returns nil when already on master, the master handle otherwise. */
    method SetToMaster() returns (v: Value)
      requires Valid()
      modifies this
      ensures Valid() && current == master && received == old(received)
      ensures old(current) == master ==> log == old(log) && v == Nil
      ensures old(current) != master ==> log == old(log) + [SwitchingToMaster] && v == Conn(master)
    {
      if current == master {
        return Nil;
      }
      log := log + [SwitchingToMaster];
      current := master;
      v := Conn(master);
    }

    /** set_to_slave!: returns nil when already on the slave, the slave handle otherwise. */
    method SetToSlave() returns (v: Value)
      requires Valid()
      modifies this
      ensures Valid() && current == slave && received == old(received)
      ensures old(current) == slave ==> log == old(log) && v == Nil
      ensures old(current) != slave ==> log == old(log) + [SwitchingToSlave] && v == Conn(slave)
    {
      if current == slave {
        return Nil;
      }
      log := log + [SwitchingToSlave];
      current := slave;
      v := Conn(slave);
    }

    /** A name on the delegate list goes to master whatever the pin state. */
    method Delegate(name: string, reply: Outcome) returns (out: Outcome)
      requires Valid() && IsDelegated(name)
      modifies this
      ensures Valid() && current == old(current) && log == old(log)
      ensures received == old(received) + [Delivery(master, Named(name))]
      ensures out == reply
    {
      received := received + [Delivery(master, Named(name))];
      out := reply;
    }

    /** Any other name is forwarded to the current handle. */
    method MethodMissing(name: string, reply: Outcome) returns (out: Outcome)
      requires Valid() && !IsDelegated(name)
      modifies this
      ensures Valid() && current == old(current) && log == old(log)
      ensures received == old(received) + [Delivery(old(current), Named(name))]
      ensures out == reply
    {
      received := received + [Delivery(current, Named(name))];
      out := reply;
    }

    /** with_master: pin, yield to the block, and un-pin on every exit; the block's
        outcome, a value or an error, is passed on unchanged. */
    method WithMaster(body: seq<Stmt>) returns (out: Outcome)
      requires Valid()
      modifies this
      decreases SizeAll(body), 3
      ensures Valid() && current == slave
      ensures (Snapshot(), out) == PinnedRun(old(Snapshot()), body)
    {
      var _ := SetToMaster();
      out := RunBlock(body);
      // the `ensure` clause: reached whether the block returned or raised
      var _ := SetToSlave();
    }

    /** transaction: inside with_master, the current handle (master) receives the
        transaction call; as that call answers, the block runs or not and the outcome
        is the block's or the handle's own.  start_db_transaction defaults to true. */
    method Transaction(body: seq<Stmt>, answer: TxnAnswer, start: bool := true) returns (out: Outcome)
      requires Valid()
      modifies this
      decreases SizeAll(body), 3
      ensures Valid() && current == slave
      ensures (Snapshot(), out) == TransactionRun(old(Snapshot()), start, body, answer)
    {
      var _ := SetToMaster();
      received := received + [Delivery(current, BeginTransaction(start))];
      match answer {
        case FailsToBegin(e) =>
          out := Raised(e);
        case YieldsBlock =>
          out := RunBlock(body);
        case Overrides(o) =>
          var _ := RunBlock(body);
          out := o;
      }
      // the `ensure` of with_master, whatever the transaction call did
      var _ := SetToSlave();
    }

    /** One statement issued on the proxy. */
    method Perform(s: Stmt) returns (out: Outcome)
      requires Valid()
      modifies this
      decreases Size(s), 1
      ensures Valid()
      ensures (Snapshot(), out) == Step(old(Snapshot()), s)
    {
      match s
      case CallOp(name, reply) =>
        if IsDelegated(name) {
          out := Delegate(name, reply);
        } else {
          out := MethodMissing(name, reply);
        }
      case CallWithMaster(body) =>
        out := WithMaster(body);
      case CallTransaction(body, answer, start) =>
        out := Transaction(body, answer, start);
      case CallSetToMaster =>
        var v := SetToMaster();
        out := Returned(v);
      case CallSetToSlave =>
        var v := SetToSlave();
        out := Returned(v);
      case Raise(e) =>
        out := Raised(e);
      case Rescue(body, handler) =>
        out := RunBlock(body);
        if out.Raised? {
          out := RunBlock(handler);
        }
    }

    /** Runs a block: its statements in order until one raises; the outcome is that
        of the last statement run, nil for an empty block. */
    method RunBlock(body: seq<Stmt>) returns (out: Outcome)
      requires Valid()
      modifies this
      decreases SizeAll(body), 2
      ensures Valid()
      ensures (Snapshot(), out) == Run(old(Snapshot()), body, Returned(Nil))
    {
      out := Returned(Nil);
      var i := 0;
      while i < |body|
        invariant 0 <= i <= |body|
        invariant Valid() && !out.Raised?
        invariant Run(Snapshot(), body[i..], out) == Run(old(Snapshot()), body, Returned(Nil))
      {
        SizeAllElement(body, i);
        assert body[i..][0] == body[i] && body[i..][1..] == body[i + 1..];
        var o := Perform(body[i]);
        if o.Raised? {
          return o;
        }
        out := o;
        i := i + 1;
      }
    }
  }
}
