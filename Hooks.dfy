/** The two hooks that pin work to master: reload_with_master (mixed into the
    record classes) and update_with_masterdb (mixed into observers).  Each wraps an
    "original" action, modelled as the block of statements it issues on the
    connection; the test each hook makes on the connection object is an input. */
module Hooks {
  import opened Routing
  import opened Properties
  import opened ActiveReload

  /** The class name reload_with_master compares the connection's class name against. */
  const ProxyClassName: string := "ActiveReload::ConnectionProxy"

  /** reload_with_master: the original reload inside with_master when the connection's
      class is exactly the proxy class, and the original reload directly otherwise. */
  function Reload(p: Proxy, className: string, reload: seq<Stmt>): (Proxy, Outcome) {
    if className == ProxyClassName then PinnedRun(p, reload)
    else Run(p, reload, Returned(Nil))
  }

  /** update_with_masterdb: the original notification inside with_master when the
      connection responds to with_master, and the original notification directly otherwise. */
  function Notify(p: Proxy, respondsToWithMaster: bool, update: seq<Stmt>): (Proxy, Outcome) {
    if respondsToWithMaster then PinnedRun(p, update)
    else Run(p, update, Returned(Nil))
  }

  method ReloadWithMaster(connection: ConnectionProxy, className: string, reload: seq<Stmt>)
    returns (out: Outcome)
    requires connection.Valid()
    modifies connection
    ensures connection.Valid()
    ensures (connection.Snapshot(), out) == Reload(old(connection.Snapshot()), className, reload)
  {
    if className == ProxyClassName {
      out := connection.WithMaster(reload);
    } else {
      out := connection.RunBlock(reload);
    }
  }

  method UpdateWithMasterdb(connection: ConnectionProxy, respondsToWithMaster: bool, update: seq<Stmt>)
    returns (out: Outcome)
    requires connection.Valid()
    modifies connection
    ensures connection.Valid()
    ensures (connection.Snapshot(), out) == Notify(old(connection.Snapshot()), respondsToWithMaster, update)
  {
    if respondsToWithMaster {
      out := connection.WithMaster(update);
    } else {
      out := connection.RunBlock(update);
    }
  }

  /** On the proxy, a plain reload reads from master: the handles receive exactly
      the reload's calls, all on master; the proxy ends on the slave, logging only the
      real transitions; and the reload's result or error is the original's. */
  lemma ReloadOnProxyReadsMaster(p: Proxy, reload: seq<Stmt>)
    requires Valid(p) && Plain(reload)
    ensures var r := Reload(p, ProxyClassName, reload);
      && r.0.received == p.received + PlainCalls(ToMaster(p), reload)
      && DeliveredTo(p, r.0, p.master)
      && r.0.current == p.slave
      && r.0.log == p.log + (if p.current == p.master then [] else [SwitchingToMaster])
                          + (if p.master == p.slave then [] else [SwitchingToSlave])
      && r.1 == PlainOutcome(reload, Returned(Nil))
  {
    WithMasterPinsPlainBlock(p, reload);
  }

  /** On any other class (a subclass of the proxy included), a plain reload runs with
      no routing change: no switch, no log line, each call routed by the pin state
      the proxy is in, and exactly the original's outcome. */
  lemma ReloadElsewhereUnpinned(p: Proxy, className: string, reload: seq<Stmt>)
    requires Plain(reload) && className != ProxyClassName
    ensures Reload(p, className, reload)
         == (p.(received := p.received + PlainCalls(p, reload)), PlainOutcome(reload, Returned(Nil)))
  {
    PlainRun(p, reload, Returned(Nil));
  }

  /** A connection that responds to with_master runs a plain notification on master:
      exactly its calls, all on master; it ends on the slave and passes the original's
      outcome through. */
  lemma NotifyOnProxyUsesMaster(p: Proxy, update: seq<Stmt>)
    requires Valid(p) && Plain(update)
    ensures var r := Notify(p, true, update);
      && r.0.received == p.received + PlainCalls(ToMaster(p), update)
      && DeliveredTo(p, r.0, p.master)
      && r.0.current == p.slave
      && r.0.log == p.log + (if p.current == p.master then [] else [SwitchingToMaster])
                          + (if p.master == p.slave then [] else [SwitchingToSlave])
      && r.1 == PlainOutcome(update, Returned(Nil))
  {
    WithMasterPinsPlainBlock(p, update);
  }

  /** A connection without with_master runs a plain notification with no routing
      change: its calls routed by the current pin state, its outcome unchanged. */
  lemma NotifyElsewhereUnpinned(p: Proxy, update: seq<Stmt>)
    requires Plain(update)
    ensures Notify(p, false, update)
         == (p.(received := p.received + PlainCalls(p, update)), PlainOutcome(update, Returned(Nil)))
  {
    PlainRun(p, update, Returned(Nil));
  }
}
