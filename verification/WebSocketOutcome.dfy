/** What becomes of a tunnel: over every run, what each event does to it, read off the tunnel before and
    after. The invariants of WebSocketTunnel.dfy bound these effects; here they are said. */
module WebSocketOutcomes {
  import opened Bytes
  import opened WebSocketTunnels

  function TunnelAt(inputs: seq<Input>, id: nat): Tunnel
    requires id < |Run(inputs).tunnels|
  {
    Run(inputs).tunnels[id]
  }

  /** The tunnel one event later; the other tunnels are as they were. */
  lemma OneEvent(inputs: seq<Input>, id: nat, e: Event)
    requires id < |Run(inputs).tunnels| && Enabled(TunnelAt(inputs, id), e)
    ensures |Run(inputs + [At(id, e)]).tunnels| == |Run(inputs).tunnels|
    ensures TunnelAt(inputs + [At(id, e)], id) == Handle(id, Scene(Run(inputs).reg, TunnelAt(inputs, id)), e).t
    ensures forall n | 0 <= n < |Run(inputs).tunnels| && n != id ::
              TunnelAt(inputs + [At(id, e)], n) == TunnelAt(inputs, n)
  {
    hide Handle, Run;
    RunSnoc(inputs, At(id, e));
  }

  /** An accepted upgrade: a new tunnel that tries its upstream, or, if the local answer cannot be
      written, is settled at once. */
  lemma OpeningSays(inputs: seq<Input>, local: bool, handshakeFails: bool)
    ensures var id := |Run(inputs).tunnels|;
            && |Run(inputs + [Open(local, handshakeFails)]).tunnels| == id + 1
            && var t := TunnelAt(inputs + [Open(local, handshakeFails)], id);
               && t.local == local && !t.established && t.timers == 0 && t.requests == 0
               && (t.settled <==> local && handshakeFails) && (t.clientDestroyed <==> local && handshakeFails)
               && t.attempts == (if local && handshakeFails then [] else [Resolving])
  {
    hide Run;
    RunSnoc(inputs, Open(local, handshakeFails));
  }

  /** The way out is resolved: a request goes out exactly if the tunnel is still wanted. */
  lemma ResolvedSays(inputs: seq<Input>, id: nat, k: nat)
    requires id < |Run(inputs).tunnels| && Enabled(TunnelAt(inputs, id), Resolved(k))
    ensures var t, u := TunnelAt(inputs, id), TunnelAt(inputs + [At(id, Resolved(k))], id);
            if !t.settled && !t.clientDestroyed
            then
              && u.requests == t.requests + 1 && u.attempts == t.attempts[k := Requested] && u.settled == t.settled
              && Enabled(u, Answered(k)) && Enabled(u, AttemptFails(k))
              && forall gone, changed, fails :: Enabled(u, Upgraded(k, gone, changed, fails))
            else u.requests == t.requests && u.attempts == t.attempts[k := Spent]
  {
    hide Run;
    OneEvent(inputs, id, Resolved(k));
  }

  /** The upstream's 101 establishes the tunnel exactly if the tunnel is unsettled, both sockets are
      alive, and the negotiation is the one a local answer promised; in every other case the tunnel is
      settled and its client destroyed. */
  lemma UpgradeSays(inputs: seq<Input>, id: nat, k: nat, gone: bool, changed: bool, fails: bool)
    requires id < |Run(inputs).tunnels| && Enabled(TunnelAt(inputs, id), Upgraded(k, gone, changed, fails))
    requires TunnelAt(inputs, id).attempts[k] != Spent
    ensures var t, u := TunnelAt(inputs, id), TunnelAt(inputs + [At(id, Upgraded(k, gone, changed, fails))], id);
            && u.attempts == t.attempts[k := Spent]
            && (u.joins == t.joins + 1 <==> !t.settled && !t.clientDestroyed && !gone && !(t.local && changed))
            && (u.joins == t.joins + 1 ==> u.established)
            && (u.joins == t.joins + 1 && !fails ==> !u.settled && !u.clientDestroyed)
            && (u.joins != t.joins + 1 ==> u.established == t.established && u.joins == t.joins)
            && (u.joins != t.joins + 1 || fails ==> u.settled && u.clientDestroyed)
  {
    hide Run;
    OneEvent(inputs, id, Upgraded(k, gone, changed, fails));
  }

  /** A second word about an attempt that is over changes nothing. */
  lemma SpentIsIgnored(inputs: seq<Input>, id: nat, k: nat, e: Event)
    requires id < |Run(inputs).tunnels| && Enabled(TunnelAt(inputs, id), e)
    requires e == Answered(k) || e == AttemptFails(k) || (e.Upgraded? && e.attempt == k)
    requires k < |TunnelAt(inputs, id).attempts| && TunnelAt(inputs, id).attempts[k] == Spent
    ensures TunnelAt(inputs + [At(id, e)], id) == TunnelAt(inputs, id)
  {
    hide Run;
    OneEvent(inputs, id, e);
  }

  /** A failed attempt, before or after its request: a client that was answered locally keeps waiting,
      with one more timer if it is still there; any other is settled. */
  lemma FailureSays(inputs: seq<Input>, id: nat, k: nat, e: Event)
    requires id < |Run(inputs).tunnels| && Enabled(TunnelAt(inputs, id), e)
    requires e == AttemptFails(k) || e == ResolveFails(k)
    requires k < |TunnelAt(inputs, id).attempts| && TunnelAt(inputs, id).attempts[k] != Spent
    requires !TunnelAt(inputs, id).settled && !TunnelAt(inputs, id).established
    ensures var t, u := TunnelAt(inputs, id), TunnelAt(inputs + [At(id, e)], id);
            && u.attempts == t.attempts[k := Spent] && u.clientDestroyed == t.clientDestroyed && !u.established
            && (u.settled <==> !t.local)
            && u.timers == t.timers + (if t.local && !t.clientDestroyed then 1 else 0)
  {
    hide Run;
    CounterIsSetSize(inputs);
    OneEvent(inputs, id, e);
  }

  /** An ordinary answer settles the tunnel; a client that was answered locally is destroyed. */
  lemma AnswerSays(inputs: seq<Input>, id: nat, k: nat)
    requires id < |Run(inputs).tunnels| && Enabled(TunnelAt(inputs, id), Answered(k))
    requires TunnelAt(inputs, id).attempts[k] != Spent
    ensures var t, u := TunnelAt(inputs, id), TunnelAt(inputs + [At(id, Answered(k))], id);
            && u.attempts == t.attempts[k := Spent] && u.settled && u.established == t.established
            && (u.clientDestroyed <==> t.clientDestroyed || t.local)
  {
    hide Run;
    OneEvent(inputs, id, Answered(k));
  }

  /** A timer that fires starts one more attempt. */
  lemma TimerSays(inputs: seq<Input>, id: nat)
    requires id < |Run(inputs).tunnels| && Enabled(TunnelAt(inputs, id), TimerFires)
    ensures var t, u := TunnelAt(inputs, id), TunnelAt(inputs + [At(id, TimerFires)], id);
            u == t.(timers := t.timers - 1, attempts := t.attempts + [Resolving]) && !u.settled
  {
    hide Run;
    CounterIsSetSize(inputs);
    OneEvent(inputs, id, TimerFires);
  }

  /** What ends a tunnel: a close of either side, an error, or the host falling back. A client's error
      before the tunnel is established, and the upstream's normal close, leave the client to itself. */
  lemma ClosingSays(inputs: seq<Input>, id: nat, e: Event)
    requires id < |Run(inputs).tunnels| && Enabled(TunnelAt(inputs, id), e)
    requires e.ClientClose? || e.ClientError? || e.UpstreamClose? || e.UpstreamError? || e.HostFallback?
    ensures var t, u := TunnelAt(inputs, id), TunnelAt(inputs + [At(id, e)], id);
            var spared := e.UpstreamClose? || (e.ClientError? && !t.established);
            && u.settled && u.timers <= t.timers && u.established == t.established && u.attempts == t.attempts
            && (u.clientDestroyed <==> t.clientDestroyed || !spared)
  {
    hide Run;
    OneEvent(inputs, id, e);
  }

  /** A client's socket that is destroyed stays in its tunnel until its close is heard. */
  lemma DestroyedSays(inputs: seq<Input>, id: nat)
    requires id < |Run(inputs).tunnels|
    ensures TunnelAt(inputs + [At(id, ClientDestroyed)], id) == TunnelAt(inputs, id).(clientDestroyed := true)
  {
    hide Run;
    OneEvent(inputs, id, ClientDestroyed);
  }

  /** The plain life of a tunnel: begun, its way resolved, answered by a 101 with both sockets alive. */
  lemma PlainUpgrade(inputs: seq<Input>, local: bool)
    ensures var id := |Run(inputs).tunnels|;
            var run := inputs + [Open(local, false)] + [At(id, Resolved(0))]
                       + [At(id, Upgraded(0, false, false, false))];
            && id < |Run(run).tunnels| && TunnelAt(run, id).established && !TunnelAt(run, id).settled
            && id in Run(run).reg.open
  {
    hide Run, Handle;
    var id := |Run(inputs).tunnels|;
    var begun := inputs + [Open(local, false)];
    OpeningSays(inputs, local, false);
    ResolvedSays(begun, id, 0);
    OneEvent(begun, id, Resolved(0));
    ResolvedKeeps(begun, id, 0);
    var asked := begun + [At(id, Resolved(0))];
    UpgradeSays(asked, id, 0, false, false, false);
    OneEvent(asked, id, Upgraded(0, false, false, false));
    CounterIsSetSize(asked + [At(id, Upgraded(0, false, false, false))]);
  }

  lemma ResolvedKeeps(inputs: seq<Input>, id: nat, k: nat)
    requires id < |Run(inputs).tunnels| && Enabled(TunnelAt(inputs, id), Resolved(k))
    ensures var t, u := TunnelAt(inputs, id), TunnelAt(inputs + [At(id, Resolved(k))], id);
            && u.clientDestroyed == t.clientDestroyed && u.settled == t.settled && u.local == t.local
            && u.established == t.established
  {
    hide Run;
    OneEvent(inputs, id, Resolved(k));
  }

  /** A client that was answered locally and is still there gets its next attempt after a failure. */
  lemma HeldClientRetries(inputs: seq<Input>, id: nat, k: nat)
    requires id < |Run(inputs).tunnels| && Enabled(TunnelAt(inputs, id), AttemptFails(k))
    requires var t := TunnelAt(inputs, id);
             t.local && !t.settled && !t.established && !t.clientDestroyed && t.attempts[k] != Spent
    ensures var run := inputs + [At(id, AttemptFails(k))] + [At(id, TimerFires)];
            && id < |Run(run).tunnels| && !TunnelAt(run, id).settled
            && TunnelAt(run, id).attempts == TunnelAt(inputs, id).attempts[k := Spent] + [Resolving]
  {
    hide Run, Handle;
    FailureSays(inputs, id, k, AttemptFails(k));
    OneEvent(inputs, id, AttemptFails(k));
    var failed := inputs + [At(id, AttemptFails(k))];
    CounterIsSetSize(failed);
    TimerSays(failed, id);
    OneEvent(failed, id, TimerFires);
  }
}
