/** What the routing state machine guarantees: idempotent switching, routing of
    delegated and forwarded calls, pinning by with_master and transaction, cleanup on
    every exit, the un-pinning of an outer scope by an inner one, and a proxy built
    with one handle in both roles. */
module Properties {
  import opened Routing

  /** A block of plain calls: calls by name and raises, nothing that switches handles. */
  predicate Plain(body: seq<Stmt>) {
    forall i :: 0 <= i < |body| ==> body[i].CallOp? || body[i].Raise?
  }

  /** The calls a plain block makes from state p, in order, up to and including the
      first whose handle raises: each by name, to the handle Target(p, _) picks.
      A statement that is not a call ends the list. */
  function PlainCalls(p: Proxy, body: seq<Stmt>): seq<Delivery> {
    if body == [] then []
    else match body[0]
      case CallOp(name, reply) =>
        [Delivery(Target(p, name), Named(name))] + (if reply.Raised? then [] else PlainCalls(p, body[1..]))
      case _ => []
  }

  /** The outcome of a plain block: the first raise, else the last reply, else `last`. */
  function PlainOutcome(body: seq<Stmt>, last: Outcome): Outcome {
    if body == [] then last
    else match body[0]
      case CallOp(_, reply) => if reply.Raised? then reply else PlainOutcome(body[1..], reply)
      case Raise(e) => Raised(e)
      case _ => last
  }

  /** set_to_master! twice is set_to_master! once; from the slave with a distinct
      master it logs exactly one line, and from master it logs nothing. */
  lemma SetToMasterIdempotent(p: Proxy)
    ensures ToMaster(ToMaster(p)) == ToMaster(p)
    ensures ToMaster(p).current == p.master
    ensures p.current == p.master ==> ToMaster(p) == p
    ensures p.current != p.master ==>
      ToMaster(ToMaster(p)).log == p.log + [SwitchingToMaster]
  {
  }

  /** set_to_slave! twice is set_to_slave! once, logging at most one line. */
  lemma SetToSlaveIdempotent(p: Proxy)
    ensures ToSlave(ToSlave(p)) == ToSlave(p)
    ensures ToSlave(p).current == p.slave
    ensures p.current == p.slave ==> ToSlave(p) == p
    ensures p.current != p.slave ==>
      ToSlave(ToSlave(p)).log == p.log + [SwitchingToSlave]
  {
  }

  /** With a real replica, a name reaches master from either pin state exactly when
      it is on the delegate list; any other name reaches whatever is current. */
  lemma DelegationIgnoresPin(p: Proxy, name: string)
    requires Valid(p) && p.master != p.slave
    ensures (Target(p.(current := p.slave), name) == p.master &&
             Target(p.(current := p.master), name) == p.master) <==> IsDelegated(name)
    ensures !IsDelegated(name) ==> Target(p, name) == p.current
  {
  }

  /** A delegated call reaches master and changes neither the current handle nor
      the log; its reply comes back unchanged. */
  lemma DelegatedCall(p: Proxy, name: string, reply: Outcome)
    requires IsDelegated(name)
    ensures var r := Step(p, CallOp(name, reply));
      && r.0 == p.(received := p.received + [Delivery(p.master, Named(name))])
      && r.1 == reply
  {
  }

  /** The routing of plain calls depends only on the handles and the pin state. */
  lemma {:induction false} PlainCallsIgnoreHistory(p: Proxy, q: Proxy, body: seq<Stmt>)
    requires p.master == q.master && p.current == q.current
    decreases body
    ensures PlainCalls(p, body) == PlainCalls(q, body)
  {
    if body != [] && body[0].CallOp? {
      PlainCallsIgnoreHistory(p, q, body[1..]);
    }
  }

  /** From a pinned state, every plain call reaches master. */
  lemma {:induction false} PinnedCallsReachMaster(p: Proxy, body: seq<Stmt>)
    requires p.current == p.master
    decreases body
    ensures forall i :: 0 <= i < |PlainCalls(p, body)| ==> PlainCalls(p, body)[i].to == p.master
  {
    if body != [] && body[0].CallOp? && !body[0].reply.Raised? {
      PinnedCallsReachMaster(p, body[1..]);
    }
  }

  /** The rest of a plain block is plain. */
  lemma PlainTail(body: seq<Stmt>)
    requires body != [] && Plain(body)
    ensures Plain(body[1..])
  {
    forall i | 0 <= i < |body[1..]| ensures body[1..][i].CallOp? || body[1..][i].Raise? {
      assert body[1..][i] == body[i + 1];
    }
  }

  /** One call at the head of a block: its handle receives it, and the rest of the
      block runs from there unless the reply raised. */
  lemma RunCall(p: Proxy, body: seq<Stmt>, last: Outcome)
    requires body != [] && body[0].CallOp?
    ensures var q := Deliver(p, Target(p, body[0].name), Named(body[0].name));
      Run(p, body, last) == if body[0].reply.Raised? then (q, body[0].reply) else Run(q, body[1..], body[0].reply)
  {
  }

  /** The inductive step of PlainRun: a call that returns, followed by a plain
      block whose run is already known. */
  lemma PlainRunCall(p: Proxy, body: seq<Stmt>, last: Outcome)
    requires body != [] && body[0].CallOp? && !body[0].reply.Raised?
    requires var q := Deliver(p, Target(p, body[0].name), Named(body[0].name));
      Run(q, body[1..], body[0].reply)
        == (q.(received := q.received + PlainCalls(q, body[1..])), PlainOutcome(body[1..], body[0].reply))
    ensures Run(p, body, last) == (p.(received := p.received + PlainCalls(p, body)), PlainOutcome(body, last))
  {
    var name := body[0].name;
    var q := Deliver(p, Target(p, name), Named(name));
    RunCall(p, body, last);
    PlainCallsIgnoreHistory(p, q, body[1..]);
    assert PlainCalls(p, body) == [Delivery(Target(p, name), Named(name))] + PlainCalls(q, body[1..]);
    assert p.received + PlainCalls(p, body) == q.received + PlainCalls(q, body[1..]);
  }

  /** A plain block keeps the current handle and the log; its handles receive
      exactly its calls up to the first raise, each routed by the pin state the block
      started in; and its outcome is the first raise or the last reply. */
  lemma {:induction false} PlainRun(p: Proxy, body: seq<Stmt>, last: Outcome)
    requires Plain(body)
    decreases body
    ensures Run(p, body, last) == (p.(received := p.received + PlainCalls(p, body)), PlainOutcome(body, last))
  {
    if body == [] {
      assert p.received + [] == p.received;
    } else if body[0].CallOp? {
      var name, reply := body[0].name, body[0].reply;
      var q := Deliver(p, Target(p, name), Named(name));
      if !reply.Raised? {
        PlainTail(body);
        PlainRun(q, body[1..], reply);
        PlainRunCall(p, body, last);
      } else {
        RunCall(p, body, last);
        assert PlainCalls(p, body) == [Delivery(Target(p, name), Named(name))];
      }
    } else {
      assert Run(p, body, last) == (p, Raised(body[0].error));
      assert p.received + [] == p.received;
    }
  }

  /** A raise ends a block: when the statements before it complete normally, the
      block's state is theirs and its outcome is the raise; nothing after it runs. */
  lemma {:induction false} RaiseEndsBlock(p: Proxy, pre: seq<Stmt>, e: int, post: seq<Stmt>, last: Outcome)
    requires pre == [] || !Run(p, pre, last).1.Raised?
    decreases pre
    ensures Run(p, pre + [Raise(e)] + post, last) == (Run(p, pre, last).0, Raised(e))
  {
    var body := pre + [Raise(e)] + post;
    if pre == [] {
      assert body[0] == Raise(e);
    } else {
      assert body[0] == pre[0];
      assert body[1..] == pre[1..] + [Raise(e)] + post;
      var q := Step(p, pre[0]);
      RaiseEndsBlock(q.0, pre[1..], e, post, q.1);
    }
  }

  /** with_master over a plain block: its handles receive exactly the block's calls,
      each of them on master; the proxy ends on the slave; the log holds exactly the
      real transitions; and the outcome, a value or an error, is the block's own. */
  lemma WithMasterPinsPlainBlock(p: Proxy, body: seq<Stmt>)
    requires Valid(p) && Plain(body)
    ensures var r := PinnedRun(p, body);
      && r.0.received == p.received + PlainCalls(ToMaster(p), body)
      && DeliveredTo(p, r.0, p.master)
      && r.0.current == p.slave
      && r.0.log == p.log + (if p.current == p.master then [] else [SwitchingToMaster])
                          + (if p.master == p.slave then [] else [SwitchingToSlave])
      && r.1 == PlainOutcome(body, Returned(Nil))
  {
    PlainRun(ToMaster(p), body, Returned(Nil));
    PinnedCallsReachMaster(ToMaster(p), body);
  }

  /** with_master cleans up on the abrupt exit too: when its block raises after
      statements that completed, the error comes out unchanged, the rest of the
      block never runs, and the proxy is back on the slave. */
  lemma WithMasterUnpinsOnRaise(p: Proxy, pre: seq<Stmt>, e: int, post: seq<Stmt>)
    requires !Run(ToMaster(p), pre, Returned(Nil)).1.Raised?
    ensures PinnedRun(p, pre + [Raise(e)] + post)
         == (ToSlave(Run(ToMaster(p), pre, Returned(Nil)).0), Raised(e))
  {
    RaiseEndsBlock(ToMaster(p), pre, e, post, Returned(Nil));
  }

  /** The binary pin is not a counter: an inner with_master that returns leaves the
      proxy on the slave while the outer block is still running, so the outer block's
      next forwarded call reaches the slave. */
  lemma NestedExitUnpinsOuter(p: Proxy, inner: seq<Stmt>, name: string, reply: Outcome)
    requires Valid(p) && p.master != p.slave && !IsDelegated(name)
    requires !PinnedRun(ToMaster(p), inner).1.Raised?
    ensures var r := PinnedRun(p, [CallWithMaster(inner), CallOp(name, reply)]);
      && |r.0.received| > 0
      && r.0.received[|r.0.received| - 1] == Delivery(p.slave, Named(name))
      && r.0.current == p.slave
  {
    var outer := [CallWithMaster(inner), CallOp(name, reply)];
    var q := Step(ToMaster(p), outer[0]);
    assert q.0.current == p.slave;
    assert outer[1..] == [CallOp(name, reply)];
    assert Run(q.0, outer[1..], q.1) == Run(Step(q.0, outer[1]).0, [], reply);
  }

  /** The same holds when the inner with_master raises and the outer block rescues
      the error: the inner `ensure` has un-pinned, so the rescuing block carries on
      on the slave. */
  lemma NestedRescueUnpinsOuter(p: Proxy, inner: seq<Stmt>, name: string, reply: Outcome)
    requires Valid(p) && p.master != p.slave && !IsDelegated(name)
    requires PinnedRun(ToMaster(p), inner).1.Raised?
    ensures var r := PinnedRun(p, [Rescue([CallWithMaster(inner)], []), CallOp(name, reply)]);
      && |r.0.received| > 0
      && r.0.received[|r.0.received| - 1] == Delivery(p.slave, Named(name))
      && r.0.current == p.slave
  {
    var outer := [Rescue([CallWithMaster(inner)], []), CallOp(name, reply)];
    var pinned := ToMaster(p);
    var guarded := [CallWithMaster(inner)];
    var g := Step(pinned, guarded[0]);
    assert g == PinnedRun(pinned, inner);
    assert g.1.Raised?;
    assert Run(pinned, guarded, Returned(Nil)) == g;
    var q := Step(pinned, outer[0]);
    assert q == Run(g.0, [], Returned(Nil));
    assert q.0 == g.0;
    assert q.0.current == p.slave;
    assert outer[1..] == [CallOp(name, reply)];
    assert Run(q.0, outer[1..], q.1) == Run(Step(q.0, outer[1]).0, [], reply);
  }

  /** transaction over a plain block: master receives the transaction call; unless
      that call fails to begin, the handles then receive exactly the block's calls,
      all on master; the proxy ends on the slave whatever the call answered; and the
      outcome is the call's failure, its own answer, or else the block's outcome. */
  lemma TransactionPinsPlainBlock(p: Proxy, start: bool, body: seq<Stmt>, answer: TxnAnswer)
    requires Valid(p) && Plain(body)
    ensures var r := TransactionRun(p, start, body, answer);
      && r.0.received == p.received + [Delivery(p.master, BeginTransaction(start))]
           + (if answer.FailsToBegin? then [] else PlainCalls(ToMaster(p), body))
      && DeliveredTo(p, r.0, p.master)
      && r.0.current == p.slave
      && r.1 == match answer
                case FailsToBegin(e) => Raised(e)
                case Overrides(o) => o
                case YieldsBlock => PlainOutcome(body, Returned(Nil))
  {
    var begun := Deliver(ToMaster(p), p.master, BeginTransaction(start));
    PlainRun(begun, body, Returned(Nil));
    PlainCallsIgnoreHistory(begun, ToMaster(p), body);
    PinnedCallsReachMaster(ToMaster(p), body);
  }

  /** A statement issued directly on one connection h, with no proxy in between:
      the calls h receives and the outcome.  Pinning does nothing but run the block. */
  function Direct(h: Handle, s: Stmt): (seq<Delivery>, Outcome)
    decreases Size(s), 1
  {
    match s
    case CallOp(name, reply) => ([Delivery(h, Named(name))], reply)
    case CallWithMaster(body) => DirectRun(h, body, Returned(Nil))
    case CallTransaction(body, answer, start) =>
      if answer.FailsToBegin? then ([Delivery(h, BeginTransaction(start))], Raised(answer.error))
      else
        var r := DirectRun(h, body, Returned(Nil));
        ([Delivery(h, BeginTransaction(start))] + r.0, if answer.Overrides? then answer.outcome else r.1)
    case CallSetToMaster => ([], Returned(Nil))
    case CallSetToSlave => ([], Returned(Nil))
    case Raise(e) => ([], Raised(e))
    case Rescue(body, handler) =>
      var r := DirectRun(h, body, Returned(Nil));
      if r.1.Raised? then
        var r' := DirectRun(h, handler, Returned(Nil));
        (r.0 + r'.0, r'.1)
      else r
  }

  function DirectRun(h: Handle, body: seq<Stmt>, last: Outcome): (seq<Delivery>, Outcome)
    decreases SizeAll(body), 2
  {
    if body == [] then ([], last)
    else
      var q := Direct(h, body[0]);
      if q.1.Raised? then q
      else
        var r := DirectRun(h, body[1..], q.1);
        (q.0 + r.0, r.1)
  }

  /** A proxy built with one handle in both roles is indistinguishable from that
      connection used directly: whatever is issued, pinned or not, the handle
      receives exactly the direct calls, the outcome is the direct one, and the proxy
      never switches or logs. */
  lemma {:induction false} SingleHandleStep(p: Proxy, s: Stmt)
    requires Valid(p) && p.master == p.slave
    decreases Size(s), 1
    ensures Step(p, s) == (p.(received := p.received + Direct(p.master, s).0), Direct(p.master, s).1)
  {
    match s
    case CallWithMaster(body) =>
      SingleHandleRun(p, body, Returned(Nil));
    case CallTransaction(body, answer, start) =>
      var begin := Delivery(p.master, BeginTransaction(start));
      var begun := Deliver(p, p.current, BeginTransaction(start));
      assert ToMaster(p) == p && ToSlave(p) == p;
      if !answer.FailsToBegin? {
        SingleHandleRun(begun, body, Returned(Nil));
        var r := DirectRun(p.master, body, Returned(Nil));
        assert begun.received + r.0 == p.received + ([begin] + r.0);
      }
    case Rescue(body, handler) =>
      SingleHandleRun(p, body, Returned(Nil));
      var q := Run(p, body, Returned(Nil));
      if q.1.Raised? {
        SingleHandleRun(q.0, handler, Returned(Nil));
        var d := DirectRun(p.master, body, Returned(Nil));
        var d' := DirectRun(p.master, handler, Returned(Nil));
        assert (p.received + d.0) + d'.0 == p.received + (d.0 + d'.0);
      }
    case CallOp(name, reply) =>
    case CallSetToMaster =>
      assert p.received + [] == p.received;
    case CallSetToSlave =>
      assert p.received + [] == p.received;
    case Raise(e) =>
      assert p.received + [] == p.received;
  }

  lemma {:induction false} SingleHandleRun(p: Proxy, body: seq<Stmt>, last: Outcome)
    requires Valid(p) && p.master == p.slave
    decreases SizeAll(body), 2
    ensures Run(p, body, last) == (p.(received := p.received + DirectRun(p.master, body, last).0),
                                   DirectRun(p.master, body, last).1)
  {
    if body == [] {
      assert p.received + [] == p.received;
    } else {
      var q := Step(p, body[0]);
      SingleHandleStep(p, body[0]);
      if !q.1.Raised? {
        SingleHandleRun(q.0, body[1..], q.1);
        var d := Direct(p.master, body[0]);
        var r := DirectRun(p.master, body[1..], q.1);
        assert q.0.received == p.received + d.0;
        assert (p.received + d.0) + r.0 == p.received + (d.0 + r.0);
      }
    }
  }
}
