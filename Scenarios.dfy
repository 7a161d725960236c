/** Clients of the proxy object: what callers can conclude from the contracts of
    ConnectionProxy and the hooks alone.  Handle 1 is the master, handle 2 the slave. */
module Scenarios {
  import opened Routing
  import opened ActiveReload
  import opened Hooks

  /** An insert, a read, a read inside with_master and a transaction holding an
      insert and a read: the insert reaches master and leaves the proxy on the slave,
      the unpinned read reaches the slave, and every call inside with_master or the
      transaction reaches master; the transaction returns its block's value. */
  method ReadWriteScenario() returns (deliveries: seq<Delivery>, lines: seq<LogEvent>, last: Handle, value: Outcome)
    ensures deliveries == [
      Delivery(1, Named("insert")), Delivery(2, Named("select_all")),
      Delivery(1, Named("select_all")),
      Delivery(1, BeginTransaction(true)), Delivery(1, Named("insert")), Delivery(1, Named("select_all"))
    ]
    ensures lines == [SwitchingToMaster, SwitchingToSlave, SwitchingToMaster, SwitchingToSlave]
    ensures last == 2
    ensures value == Returned(Data(7))
  {
    var proxy := new ConnectionProxy(1, 2);
    var insert := CallOp("insert", Returned(Nil));
    var read := CallOp("select_all", Returned(Data(7)));
    assert !IsDelegated("select_all");
    var o := proxy.Perform(insert);
    assert proxy.current == 2;
    o := proxy.Perform(read);
    ghost var before := proxy.Snapshot();
    assert [read][1..] == [];
    assert Run(ToMaster(before), [read], Returned(Nil)).0.received
      == before.received + [Delivery(1, Named("select_all"))];
    o := proxy.WithMaster([read]);
    assert proxy.log == [SwitchingToMaster, SwitchingToSlave];
    before := proxy.Snapshot();
    ghost var begun := Deliver(ToMaster(before), 1, BeginTransaction(true));
    assert [insert, read][1..] == [read];
    ghost var afterInsert := Step(begun, insert);
    assert Run(begun, [insert, read], Returned(Nil)) == Run(afterInsert.0, [read], afterInsert.1);
    assert Run(afterInsert.0, [read], afterInsert.1).0.received
      == begun.received + [Delivery(1, Named("insert")), Delivery(1, Named("select_all"))];
    o := proxy.Transaction([insert, read], YieldsBlock);
    deliveries, lines, last, value := proxy.received, proxy.log, proxy.current, o;
  }

  /** Reloading a record right after saving it, through the hook: the reload's read
      reaches master although the proxy is on the slave before and after. */
  method ReloadAfterSaveScenario() returns (deliveries: seq<Delivery>, last: Handle)
    ensures deliveries == [Delivery(1, Named("insert")), Delivery(1, Named("select_one"))]
    ensures last == 2
  {
    var proxy := new ConnectionProxy(1, 2);
    var o := proxy.Perform(CallOp("insert", Returned(Nil)));
    assert !IsDelegated("select_one");
    o := ReloadWithMaster(proxy, ProxyClassName, [CallOp("select_one", Returned(Data(3)))]);
    assert [CallOp("select_one", Returned(Data(3)))][1..] == [];
    deliveries, last := proxy.received, proxy.current;
  }

  /** The same reload on a connection whose class name is not the proxy's reads
      from wherever the proxy currently points: here the slave. */
  method ReloadOnOtherClassScenario() returns (deliveries: seq<Delivery>)
    ensures deliveries == [Delivery(1, Named("insert")), Delivery(2, Named("select_one"))]
  {
    var proxy := new ConnectionProxy(1, 2);
    var o := proxy.Perform(CallOp("insert", Returned(Nil)));
    assert !IsDelegated("select_one");
    o := ReloadWithMaster(proxy, "ReplicaAwareProxy", [CallOp("select_one", Returned(Data(3)))]);
    assert [CallOp("select_one", Returned(Data(3)))][1..] == [];
    deliveries := proxy.received;
  }

  /** A transaction whose handle fails to begin, rescued by the caller: master
      receives only the transaction call, the block's insert never runs, the error
      reaches the rescue, and the next read finds the proxy back on the slave. */
  method FailedTransactionScenario() returns (deliveries: seq<Delivery>, lines: seq<LogEvent>, last: Handle)
    ensures deliveries == [Delivery(1, BeginTransaction(true)), Delivery(2, Named("select_all"))]
    ensures lines == [SwitchingToMaster, SwitchingToSlave]
    ensures last == 2
  {
    var proxy := new ConnectionProxy(1, 2);
    var txn := CallTransaction([CallOp("insert", Returned(Nil))], FailsToBegin(5));
    ghost var before := proxy.Snapshot();
    ghost var failed := TransactionRun(before, true, [CallOp("insert", Returned(Nil))], FailsToBegin(5));
    assert Run(before, [txn], Returned(Nil)) == failed;
    assert Run(failed.0, [], Returned(Nil)) == (failed.0, Returned(Nil));
    var o := proxy.Perform(Rescue([txn], []));
    assert !IsDelegated("select_all");
    o := proxy.Perform(CallOp("select_all", Returned(Data(7))));
    deliveries, lines, last := proxy.received, proxy.log, proxy.current;
  }
}
