/**
 Whole runs of the server: the stop is never missed, and once it is requested the server
 comes to rest after a bounded number of steps, whatever its clients do.
 */
module ServerTheorems {
  import opened SessionModel
  import opened ServerModel
  import opened ServerSafety

  ghost predicate Path(ss: seq<Server>, es: seq<Event>) {
    && |ss| == |es| + 1
    && forall i :: 0 <= i < |es| ==> Enabled(ss[i], es[i]) && ss[i + 1] == After(ss[i], es[i])
  }

  ghost predicate Run(ss: seq<Server>, es: seq<Event>) {
    Path(ss, es) && Init(ss[0])
  }

  lemma {:induction false} RunInv(ss: seq<Server>, es: seq<Event>, n: nat)
    requires Run(ss, es) && n < |ss|
    ensures Inv(ss[n])
  {
    if n == 0 {
      InitInv(ss[0]);
    } else {
      RunInv(ss, es, n - 1);
      StepInv(ss[n - 1], es[n - 1]);
    }
  }

  /** In every interleaving: once the stop is requested, the pool drained and no session
      left, completion has started or the completion test is running, queued or about to be
      queued by the waiting thread or by a closing session. */
  lemma CompletionNeverMissed(ss: seq<Server>, es: seq<Event>, n: nat)
    requires Run(ss, es) && n < |ss|
    requires ss[n].stopRequested && ss[n].drained && ss[n].sessions == {}
    ensures OnTheWay(ss[n])
  {
    RunInv(ss, es, n);
  }

  /** The work guard is released at most once, only after the pool was drained, and from
      then on there is no session and no request in the pool; clearing the session set at
      the end of the wait changes nothing. */
  lemma GuardReleasedOnce(ss: seq<Server>, es: seq<Event>, n: nat)
    requires Run(ss, es) && n < |ss|
    ensures ss[n].guardReleases == if ss[n].guard then 0 else 1
    ensures !ss[n].guard ==> ss[n].drained && ss[n].sessions == {} && PoolIdle(ss[n])
    ensures n < |es| && es[n].JoinIo? ==> ss[n + 1].sessions == ss[n].sessions
  {
    RunInv(ss, es, n);
  }

  /** When the I/O threads run out of work while the waiting thread joins them, the guard
      has been released: the join returns. */
  lemma WaitNeverSticks(ss: seq<Server>, es: seq<Event>, n: nat)
    requires Run(ss, es) && n < |ss|
    requires ss[n].waiter.JoiningIo? && IoQuiet(ss[n])
    ensures Enabled(ss[n], JoinIo)
  {
    RunInv(ss, es, n);
    forall c | c in ss[n].sessions
      ensures false
    {
      RegisteredIsBusy(ss[n], c);
    }
    assert ss[n].sessions == {};
  }

  /** A registered session has a handler, an operation or a request in the pool to come. */
  lemma RegisteredIsBusy(s: Server, c: nat)
    requires Inv(s) && c in s.sessions
    ensures c < |s.conns| && (s.pos == Starting(c) || !s.conns[c].removal.NoRemoval? || Alive(s.conns[c].session))
  {
    assert SessionOk(s.conns[c].session, s.executorStopped, s.maxRequests);
  }

  /** The session set never exceeds its limit, and every connection obeys the session
      protocol: at most `maxRequests` requests read, each answered at most once, the close
      handler used at most once, and an open session still registered. */
  lemma ConnectionsBounded(ss: seq<Server>, es: seq<Event>, n: nat, c: nat)
    requires Run(ss, es) && n < |ss| && c < |ss[n].conns|
    ensures |ss[n].sessions| <= ss[n].maxConnections
    ensures var x := ss[n].conns[c].session; x.answers <= x.count <= ss[n].maxRequests && x.closings <= 1
    ensures c in ss[n].sessions ==> ss[n].conns[c].session.callback || ss[n].conns[c].removal.Erase?
  {
    RunInv(ss, es, n);
    assert SessionOk(ss[n].conns[c].session, ss[n].executorStopped, ss[n].maxRequests);
  }
}
