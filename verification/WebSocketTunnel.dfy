/** The `upgrade` handler of server.ts as a system of events: tunnels that settle, retry and establish,
    and the counter and set of live connections they share. */
module WebSocketTunnels {
  import opened Bytes

  const RECONNECT_INITIAL_DELAY_MS: nat := 250
  const RECONNECT_MAX_DELAY_MS: nat := 5000

  function Power2(n: nat): nat {
    if n == 0 then 1 else 2 * Power2(n - 1)
  }

  /** The back-off before the next attempt when `attempt` attempts have been started. */
  function Delay(attempt: nat): nat {
    var exponent := if attempt == 0 then 0 else Min(attempt - 1, 8);
    Min(RECONNECT_INITIAL_DELAY_MS * Power2(exponent), RECONNECT_MAX_DELAY_MS)
  }

  lemma {:induction false} Power2Grows(m: nat, n: nat)
    requires m <= n
    ensures 1 <= Power2(m) <= Power2(n)
  {
    if m < n {
      Power2Grows(m, n - 1);
    } else if n > 0 {
      Power2Grows(m - 1, n - 1);
    }
  }

  /** Retries start a quarter of a second apart, double their distance four times, never come closer
      together again and never stop being made every five seconds. */
  lemma DelayGrows(a: nat, b: nat)
    requires a <= b
    ensures RECONNECT_INITIAL_DELAY_MS <= Delay(a) <= Delay(b) <= RECONNECT_MAX_DELAY_MS
    ensures b >= 6 ==> Delay(b) == RECONNECT_MAX_DELAY_MS
    ensures a <= 1 ==> Delay(a) == 250
    ensures 1 <= a < 5 ==> Delay(a + 1) == 2 * Delay(a)
  {
    assert Power2(1) == 2 && Power2(2) == 4 && Power2(3) == 8 && Power2(4) == 16;
    var m, n := if a == 0 then 0 else Min(a - 1, 8), if b == 0 then 0 else Min(b - 1, 8);
    Power2Grows(m, n);
    Power2Grows(0, m);
    if b >= 6 {
      Power2Grows(5, n);
      assert Power2(5) == 32;
    }
  }

  // ---- one tunnel --------------------------------------------------------------------------------------

  /** An upstream attempt: resolving its way out, with a request under way, or over. */
  datatype Attempt = Resolving | Requested | Spent

  /** The closure variables of one upgrade; `timers` counts the pending reconnect timers, of which the
      handler holds only the last. `requests`, `joins` and `settles` are its history. */
  datatype Tunnel = Tunnel(local: bool, established: bool, settled: bool, clientDestroyed: bool, timers: nat,
                           attempts: seq<Attempt>, requests: nat, joins: nat, settles: nat)

  /** `liveWebSockets` and `liveWebSocketConnections`. */
  datatype Registry = Registry(live: int, open: set<nat>)

  datatype Scene = Scene(reg: Registry, t: Tunnel)

  function Settle(id: nat, s: Scene): Scene {
    if s.t.settled then s
    else Scene(Registry(s.reg.live - 1, s.reg.open - {id}),
               s.t.(settled := true, timers := if s.t.timers > 0 then s.t.timers - 1 else 0,
                    settles := s.t.settles + 1))
  }

  /** Settling and destroying the client's socket. */
  function Drop(id: nat, s: Scene): Scene {
    var r := Settle(id, s);
    r.(t := r.t.(clientDestroyed := true))
  }

  /** `scheduleReconnectAttempt` */
  function Schedule(s: Scene): Scene {
    if !s.t.local || s.t.settled || s.t.clientDestroyed then s else s.(t := s.t.(timers := s.t.timers + 1))
  }

  /** `startUpstreamAttempt` up to its first `await`. */
  function Start(t: Tunnel): Tunnel {
    t.(attempts := t.attempts + [Resolving])
  }

  function Mark(t: Tunnel, k: nat, a: Attempt): Tunnel
    requires k < |t.attempts|
  {
    t.(attempts := t.attempts[k := a])
  }

  datatype Event =
    | Resolved(attempt: nat)
    | ResolveFails(attempt: nat)
    | Upgraded(attempt: nat, upstreamGone: bool, changed: bool, forwardFails: bool)
    | Answered(attempt: nat)
    | AttemptFails(attempt: nat)
    | TimerFires
    | ClientClose
    | ClientError
    | ClientDestroyed
    | UpstreamClose
    | UpstreamError
    | HostFallback

  predicate Enabled(t: Tunnel, e: Event) {
    match e
    case Resolved(k) => k < |t.attempts| && t.attempts[k] == Resolving
    case ResolveFails(k) => k < |t.attempts| && t.attempts[k] == Resolving
    case Upgraded(k, _, _, _) => k < |t.attempts| && t.attempts[k] != Resolving
    case Answered(k) => k < |t.attempts| && t.attempts[k] != Resolving
    case AttemptFails(k) => k < |t.attempts| && t.attempts[k] != Resolving
    case TimerFires => t.timers > 0
    case UpstreamClose => t.established
    case UpstreamError => t.established
    case _ => true
  }

  /** The `upgrade` listener of the upstream request. */
  function Join(id: nat, s0: Scene, k: nat, upstreamGone: bool, changed: bool, forwardFails: bool): Scene
    requires k < |s0.t.attempts|
  {
    if s0.t.attempts[k] == Spent then s0
    else
      var s := s0.(t := Mark(s0.t, k, Spent));
      if s.t.settled || s.t.clientDestroyed || upstreamGone then Drop(id, s)
      else if s.t.local && changed then Drop(id, s)
      else
        var joined := s.(t := s.t.(established := true, joins := s.t.joins + 1));
        if forwardFails then Drop(id, joined) else joined
  }

  /** `failTransientAttempt` */
  function FailAttempt(id: nat, s: Scene, k: nat): Scene
    requires k < |s.t.attempts|
  {
    if s.t.attempts[k] == Spent || s.t.established || s.t.settled then s
    else
      var r := s.(t := Mark(s.t, k, Spent));
      if s.t.local then Schedule(r) else Settle(id, r)
  }

  function Handle(id: nat, s: Scene, e: Event): Scene
    requires Enabled(s.t, e)
  {
    match e
    case Resolved(k) =>
      if s.t.settled || s.t.clientDestroyed then s.(t := Mark(s.t, k, Spent))
      else s.(t := Mark(s.t, k, Requested).(requests := s.t.requests + 1))
    case ResolveFails(k) =>
      var r := s.(t := Mark(s.t, k, Spent));
      if s.t.established || s.t.settled then r else if s.t.local then Schedule(r) else Settle(id, r)
    case Upgraded(k, gone, changed, fails) => Join(id, s, k, gone, changed, fails)
    case Answered(k) =>
      if s.t.attempts[k] == Spent then s
      else
        var r := Settle(id, s.(t := Mark(s.t, k, Spent)));
        if s.t.local then r.(t := r.t.(clientDestroyed := true)) else r
    case AttemptFails(k) => FailAttempt(id, s, k)
    case TimerFires => s.(t := Start(s.t.(timers := s.t.timers - 1)))
    case ClientClose => Drop(id, s)
    case ClientError => if s.t.established then Drop(id, s) else Settle(id, s)
    case ClientDestroyed => s.(t := s.t.(clientDestroyed := true))
    case UpstreamClose => Settle(id, s)
    case UpstreamError => Drop(id, s)
    case HostFallback => Drop(id, s)
  }

  // ---- all tunnels ----------------------------------------------------------------------------------------

  datatype World = World(reg: Registry, tunnels: seq<Tunnel>)

  /** An accepted upgrade, or an event of a tunnel. */
  datatype Input = Open(local: bool, handshakeFails: bool) | At(id: nat, event: Event)

  const NO_TUNNELS := World(Registry(0, {}), [])

  function NewTunnel(local: bool): Tunnel {
    Tunnel(local, false, false, false, 0, [], 0, 0, 0)
  }

  function Step(w: World, i: Input): World {
    match i
    case Open(local, handshakeFails) =>
      var id := |w.tunnels|;
      var s := Scene(Registry(w.reg.live + 1, w.reg.open + {id}), NewTunnel(local));
      var begun := if local && handshakeFails then Drop(id, s) else s.(t := Start(s.t));
      World(begun.reg, w.tunnels + [begun.t])
    case At(id, e) =>
      if id >= |w.tunnels| || !Enabled(w.tunnels[id], e) then w
      else
        var s := Handle(id, Scene(w.reg, w.tunnels[id]), e);
        World(s.reg, w.tunnels[id := s.t])
  }

  function Run(inputs: seq<Input>): World {
    if inputs == [] then NO_TUNNELS else Step(Run(inputs[..|inputs| - 1]), inputs[|inputs| - 1])
  }

  lemma RunSnoc(inputs: seq<Input>, i: Input)
    ensures Run(inputs + [i]) == Step(Run(inputs), i)
  {
    assert (inputs + [i])[..|inputs|] == inputs;
  }

  // ---- invariants ------------------------------------------------------------------------------------------

  /** At most one way forward: a pending timer, an attempt that is not over, or the established tunnel. */
  predicate TunnelOk(t: Tunnel) {
    && t.settles == (if t.settled then 1 else 0)
    && t.timers <= 1 && (t.settled ==> t.timers == 0)
    && t.joins == (if t.established then 1 else 0)
    && (forall k | 0 <= k < |t.attempts| - 1 :: t.attempts[k] == Spent)
    && (t.timers > 0 || t.established ==> forall k | 0 <= k < |t.attempts| :: t.attempts[k] == Spent)
    && (t.established ==> t.timers == 0)
    && t.requests + (if t.attempts != [] && t.attempts[|t.attempts| - 1] == Resolving then 1 else 0) <= |t.attempts|
    && (t.timers > 0 ==> t.local)
    && (!t.local ==> |t.attempts| <= 1)
  }

  /** What a handler may do to the registry: settle this tunnel, once. */
  predicate RegistryMoves(id: nat, s: Scene, r: Scene) {
    if s.t.settled || !r.t.settled then r.reg == s.reg && r.t.settled == s.t.settled
    else r.reg == Registry(s.reg.live - 1, s.reg.open - {id})
  }

  lemma SettleMoves(id: nat, s: Scene)
    ensures RegistryMoves(id, s, Settle(id, s)) && RegistryMoves(id, s, Drop(id, s))
    ensures TunnelOk(s.t) ==> TunnelOk(Settle(id, s).t) && TunnelOk(Drop(id, s).t)
  {
  }

  lemma MarkOk(t: Tunnel, k: nat)
    requires TunnelOk(t) && k < |t.attempts|
    ensures TunnelOk(Mark(t, k, Spent))
    ensures t.attempts[k] != Spent ==> forall j | 0 <= j < |t.attempts| :: Mark(t, k, Spent).attempts[j] == Spent
  {
  }

  lemma JoinOk(id: nat, s: Scene, k: nat, gone: bool, changed: bool, fails: bool)
    requires TunnelOk(s.t) && k < |s.t.attempts|
    ensures var r := Join(id, s, k, gone, changed, fails); TunnelOk(r.t) && RegistryMoves(id, s, r)
  {
    MarkOk(s.t, k);
    var m := s.(t := Mark(s.t, k, Spent));
    SettleMoves(id, m);
    if s.t.attempts[k] != Spent {
      var joined := m.(t := m.t.(established := true, joins := m.t.joins + 1));
      assert TunnelOk(joined.t);
      SettleMoves(id, joined);
    }
  }

  lemma FailAttemptOk(id: nat, s: Scene, k: nat)
    requires TunnelOk(s.t) && k < |s.t.attempts|
    ensures var r := FailAttempt(id, s, k); TunnelOk(r.t) && RegistryMoves(id, s, r)
  {
    MarkOk(s.t, k);
    SettleMoves(id, s.(t := Mark(s.t, k, Spent)));
  }

  lemma ResolvingOk(id: nat, s: Scene, e: Event)
    requires TunnelOk(s.t) && Enabled(s.t, e) && (e.Resolved? || e.ResolveFails?)
    ensures var r := Handle(id, s, e); TunnelOk(r.t) && RegistryMoves(id, s, r)
  {
    MarkOk(s.t, e.attempt);
    SettleMoves(id, s.(t := Mark(s.t, e.attempt, Spent)));
  }

  lemma AnsweredOk(id: nat, s: Scene, e: Event)
    requires TunnelOk(s.t) && Enabled(s.t, e) && e.Answered?
    ensures var r := Handle(id, s, e); TunnelOk(r.t) && RegistryMoves(id, s, r)
  {
    MarkOk(s.t, e.attempt);
    SettleMoves(id, s.(t := Mark(s.t, e.attempt, Spent)));
  }

  lemma TimerOk(id: nat, s: Scene)
    requires TunnelOk(s.t) && Enabled(s.t, TimerFires)
    ensures var r := Handle(id, s, TimerFires); TunnelOk(r.t) && RegistryMoves(id, s, r)
  {
  }

  lemma ClosingOk(id: nat, s: Scene, e: Event)
    requires TunnelOk(s.t) && Enabled(s.t, e)
    requires e.ClientClose? || e.ClientError? || e.ClientDestroyed? || e.UpstreamClose? || e.UpstreamError?
             || e.HostFallback?
    ensures var r := Handle(id, s, e); TunnelOk(r.t) && RegistryMoves(id, s, r)
  {
    hide Settle, Drop;
    SettleMoves(id, s);
  }

  lemma HandleOk(id: nat, s: Scene, e: Event)
    requires TunnelOk(s.t) && Enabled(s.t, e)
    ensures var r := Handle(id, s, e); TunnelOk(r.t) && RegistryMoves(id, s, r)
  {
    hide Join, FailAttempt, TunnelOk, RegistryMoves;
    match e
    case Resolved(_) => ResolvingOk(id, s, e);
    case ResolveFails(_) => ResolvingOk(id, s, e);
    case Upgraded(k, gone, changed, fails) => JoinOk(id, s, k, gone, changed, fails);
    case Answered(_) => AnsweredOk(id, s, e);
    case AttemptFails(k) => FailAttemptOk(id, s, k);
    case TimerFires => TimerOk(id, s);
    case _ => ClosingOk(id, s, e);
  }

  /** Once settled, nothing happens any more: no timer, no further request, no establishing. */
  predicate Quiet(t: Tunnel, u: Tunnel) {
    u.settled && u.settles == t.settles && u.timers == 0 && u.requests == t.requests && u.joins == t.joins
        && u.established == t.established
  }

  lemma SettledIsQuiet(id: nat, s: Scene, e: Event)
    requires TunnelOk(s.t) && s.t.settled && Enabled(s.t, e)
    ensures Quiet(s.t, Handle(id, s, e).t)
  {
  }

  ghost predicate WorldOk(w: World) {
    && w.reg.live == |w.reg.open|
    && (forall id: nat :: id in w.reg.open <==> id < |w.tunnels| && !w.tunnels[id].settled)
    && (forall id | 0 <= id < |w.tunnels| :: TunnelOk(w.tunnels[id]))
  }

  lemma OpenOk(w: World, local: bool, handshakeFails: bool)
    requires WorldOk(w)
    ensures WorldOk(Step(w, Open(local, handshakeFails)))
  {
    var id := |w.tunnels|;
    var s := Scene(Registry(w.reg.live + 1, w.reg.open + {id}), NewTunnel(local));
    SettleMoves(id, s);
    assert (w.reg.open + {id}) - {id} == w.reg.open;
  }

  lemma PlacedOk(w: World, id: nat, r: Scene)
    requires WorldOk(w) && id < |w.tunnels| && TunnelOk(r.t) && RegistryMoves(id, Scene(w.reg, w.tunnels[id]), r)
    ensures WorldOk(World(r.reg, w.tunnels[id := r.t]))
  {
  }

  lemma StepOk(w: World, i: Input)
    requires WorldOk(w)
    ensures WorldOk(Step(w, i))
  {
    match i
    case Open(local, handshakeFails) => OpenOk(w, local, handshakeFails);
    case At(id, e) =>
      if id < |w.tunnels| && Enabled(w.tunnels[id], e) {
        HandleOk(id, Scene(w.reg, w.tunnels[id]), e);
        PlacedOk(w, id, Handle(id, Scene(w.reg, w.tunnels[id]), e));
      }
  }

  /** At every event boundary the counter is the size of the set, which holds exactly the tunnels that
      have not settled; each tunnel settles at most once, is established at most once, and has at most
      one of a pending timer, an unfinished attempt and an established connection. */
  lemma {:induction false} CounterIsSetSize(inputs: seq<Input>)
    ensures WorldOk(Run(inputs))
  {
    if inputs != [] {
      CounterIsSetSize(inputs[..|inputs| - 1]);
      StepOk(Run(inputs[..|inputs| - 1]), inputs[|inputs| - 1]);
    } else {
      assert NO_TUNNELS.reg.open == {};
    }
  }

  /** After a tunnel has settled, no timer or late event, in any order and however the other tunnels
      go on, makes another upstream request, establishes it or settles it again. */
  lemma {:induction false} SettledStaysQuiet(inputs: seq<Input>, more: seq<Input>, id: nat)
    requires id < |Run(inputs).tunnels| && Run(inputs).tunnels[id].settled
    ensures id < |Run(inputs + more).tunnels| && Quiet(Run(inputs).tunnels[id], Run(inputs + more).tunnels[id])
  {
    hide Run, Handle;
    CounterIsSetSize(inputs);
    if more == [] {
      assert inputs + more == inputs;
    } else {
      var most, i := more[..|more| - 1], more[|more| - 1];
      SettledStaysQuiet(inputs, most, id);
      CounterIsSetSize(inputs + most);
      RunSnoc(inputs + most, i);
      assert inputs + more == inputs + most + [i];
      var w := Run(inputs + most);
      if i.At? && i.id == id && Enabled(w.tunnels[id], i.event) {
        SettledIsQuiet(id, Scene(w.reg, w.tunnels[id]), i.event);
      }
    }
  }

  // ---- the handler's objects ---------------------------------------------------------------------------------

  class LiveWebSockets {
    var live: int
    var connections: set<nat>

    ghost function Now(): Registry
      reads this
    {
      Registry(live, connections)
    }

    constructor ()
      ensures Now() == NO_TUNNELS.reg
    {
      live, connections := 0, {};
    }
  }

  class WebSocketTunnel {
    const id: nat
    const registry: LiveWebSockets
    const locallyAcceptedForReconnect: bool
    var established: bool
    var settled: bool
    var clientDestroyed: bool
    var reconnectTimers: nat
    var attempts: seq<Attempt>
    ghost var requests: nat
    ghost var joins: nat
    ghost var settles: nat

    ghost function T(): Tunnel
      reads this
    {
      Tunnel(locallyAcceptedForReconnect, established, settled, clientDestroyed, reconnectTimers, attempts, requests,
          joins, settles)
    }

    ghost function Now(): Scene
      reads this, registry
    {
      Scene(registry.Now(), T())
    }

    constructor (id: nat, registry: LiveWebSockets, local: bool)
      modifies registry
      ensures this.id == id && this.registry == registry && T() == NewTunnel(local)
      ensures registry.Now() == Registry(old(registry.live) + 1, old(registry.connections) + {id})
    {
      this.id, this.registry, locallyAcceptedForReconnect := id, registry, local;
      established, settled, clientDestroyed, reconnectTimers, attempts := false, false, false, 0, [];
      requests, joins, settles := 0, 0, 0;
      new;
      registry.live, registry.connections := registry.live + 1, registry.connections + {id};
    }

    method SettleOnce()
      modifies this, registry
      ensures Now() == Settle(id, old(Now()))
    {
      if settled {
        return;
      }
      settled := true;
      if reconnectTimers > 0 {
        reconnectTimers := reconnectTimers - 1;
      }
      registry.live := registry.live - 1;
      registry.connections := registry.connections - {id};
      settles := settles + 1;
    }

    /** `settle` and `clientSocket.destroy()`; also `closeForHostFallback`. */
    method DropClient()
      modifies this, registry
      ensures Now() == Drop(id, old(Now()))
    {
      SettleOnce();
      clientDestroyed := true;
    }

    method ScheduleReconnectAttempt()
      modifies this
      ensures Now() == Schedule(old(Now()))
    {
      if !locallyAcceptedForReconnect || settled || clientDestroyed {
        return;
      }
      reconnectTimers := reconnectTimers + 1;
    }

    method StartUpstreamAttempt()
      modifies this
      ensures T() == Start(old(T()))
    {
      attempts := attempts + [Resolving];
    }

    method OnTimer()
      requires reconnectTimers > 0
      modifies this
      ensures Now() == Handle(id, old(Now()), TimerFires)
    {
      reconnectTimers := reconnectTimers - 1;
      StartUpstreamAttempt();
    }

    /** After the `await`: nothing is sent for a tunnel that is no longer wanted. */
    method OnResolved(k: nat)
      requires k < |attempts| && attempts[k] == Resolving
      modifies this
      ensures Now() == Handle(id, old(Now()), Resolved(k))
    {
      if settled || clientDestroyed {
        attempts := attempts[k := Spent];
      } else {
        attempts := attempts[k := Requested];
        requests := requests + 1;
      }
    }

    method OnResolveFails(k: nat)
      requires k < |attempts| && attempts[k] == Resolving
      modifies this, registry
      ensures Now() == Handle(id, old(Now()), ResolveFails(k))
    {
      attempts := attempts[k := Spent];
      if established || settled {
        return;
      }
      if locallyAcceptedForReconnect {
        ScheduleReconnectAttempt();
      } else {
        SettleOnce();
      }
    }

    method FailTransientAttempt(k: nat)
      requires k < |attempts|
      modifies this, registry
      ensures Now() == FailAttempt(id, old(Now()), k)
    {
      if attempts[k] == Spent || established || settled {
        return;
      }
      attempts := attempts[k := Spent];
      if locallyAcceptedForReconnect {
        ScheduleReconnectAttempt();
      } else {
        SettleOnce();
      }
    }

    method OnUpgrade(k: nat, upstreamGone: bool, changed: bool, forwardFails: bool)
      requires k < |attempts|
      modifies this, registry
      ensures Now() == Join(id, old(Now()), k, upstreamGone, changed, forwardFails)
    {
      if attempts[k] == Spent {
        return;
      }
      attempts := attempts[k := Spent];
      if settled || clientDestroyed || upstreamGone {
        DropClient();
      } else if locallyAcceptedForReconnect && changed {
        DropClient();
      } else {
        established, joins := true, joins + 1;
        if forwardFails {
          DropClient();
        }
      }
    }

    method OnResponse(k: nat)
      requires k < |attempts| && attempts[k] != Resolving
      modifies this, registry
      ensures Now() == Handle(id, old(Now()), Answered(k))
    {
      if attempts[k] == Spent {
        return;
      }
      attempts := attempts[k := Spent];
      SettleOnce();
      if locallyAcceptedForReconnect {
        clientDestroyed := true;
      }
    }

    method OnClientError()
      modifies this, registry
      ensures Now() == Handle(id, old(Now()), ClientError)
    {
      if established {
        DropClient();
      } else {
        SettleOnce();
      }
    }

    method OnClientClose()
      modifies this, registry
      ensures Now() == Handle(id, old(Now()), ClientClose)
    {
      DropClient();
    }

    /** The client's socket goes without its `close` having been heard yet. */
    method OnClientDestroyed()
      modifies this
      ensures Now() == Handle(id, old(Now()), ClientDestroyed)
    {
      clientDestroyed := true;
    }

    method OnUpstreamClose()
      requires established
      modifies this, registry
      ensures Now() == Handle(id, old(Now()), UpstreamClose)
    {
      SettleOnce();
    }

    method OnUpstreamError()
      requires established
      modifies this, registry
      ensures Now() == Handle(id, old(Now()), UpstreamError)
    {
      DropClient();
    }

    method CloseForHostFallback()
      modifies this, registry
      ensures Now() == Handle(id, old(Now()), HostFallback)
    {
      DropClient();
    }

    /** Whether the event can come now. */
    method CanTake(e: Event) returns (can: bool)
      ensures can == Enabled(T(), e)
    {
      match e {
        case Resolved(k) => can := k < |attempts| && attempts[k] == Resolving;
        case ResolveFails(k) => can := k < |attempts| && attempts[k] == Resolving;
        case Upgraded(k, _, _, _) => can := k < |attempts| && attempts[k] != Resolving;
        case Answered(k) => can := k < |attempts| && attempts[k] != Resolving;
        case AttemptFails(k) => can := k < |attempts| && attempts[k] != Resolving;
        case TimerFires => can := reconnectTimers > 0;
        case UpstreamClose => can := established;
        case UpstreamError => can := established;
        case _ => can := true;
      }
    }

    method On(e: Event)
      requires Enabled(T(), e)
      modifies this, registry
      ensures Now() == Handle(id, old(Now()), e)
    {
      hide Settle, Drop, Join, FailAttempt, Schedule;
      match e {
        case Resolved(k) => OnResolved(k);
        case ResolveFails(k) => OnResolveFails(k);
        case Upgraded(k, gone, changed, fails) => OnUpgrade(k, gone, changed, fails);
        case Answered(k) => OnResponse(k);
        case AttemptFails(k) => FailTransientAttempt(k);
        case TimerFires => OnTimer();
        case ClientClose => OnClientClose();
        case ClientError => OnClientError();
        case ClientDestroyed => OnClientDestroyed();
        case UpstreamClose => OnUpstreamClose();
        case UpstreamError => OnUpstreamError();
        case HostFallback => CloseForHostFallback();
      }
    }
  }

  // ---- the server's share --------------------------------------------------------------------------------------

  /** All tunnels of a server and the registry they share. */
  class WebSocketServer {
    const registry: LiveWebSockets
    var tunnels: seq<WebSocketTunnel>
    ghost var inputs: seq<Input>

    ghost function Ts(): seq<Tunnel>
      reads this`tunnels, tunnels
    {
      var ts := tunnels;
      seq(|ts|, i requires 0 <= i < |ts| reads ts => ts[i].T())
    }

    ghost function Now(): World
      reads this`tunnels, tunnels, registry
    {
      World(registry.Now(), Ts())
    }

    /** The tunnels are distinct objects that share the registry. */
    ghost predicate Linked()
      reads this`tunnels, tunnels
    {
      && (forall i | 0 <= i < |tunnels| :: tunnels[i].id == i && tunnels[i].registry == registry)
      && forall i, j | 0 <= i < j < |tunnels| :: tunnels[i] != tunnels[j]
    }

    /** And they are where the run of the inputs so far is. */
    ghost predicate Valid()
      reads this, tunnels, registry
    {
      Linked() && Now() == Run(inputs)
    }

    constructor ()
      ensures Valid() && fresh(registry) && tunnels == [] && inputs == []
    {
      registry := new LiveWebSockets();
      tunnels, inputs := [], [];
    }

    /** An accepted upgrade. */
    method Accept(local: bool, handshakeFails: bool)
      requires Linked()
      modifies this`tunnels, registry
      ensures Linked() && Now() == Step(old(Now()), Open(local, handshakeFails))
      ensures exists t :: fresh(t) && tunnels == old(tunnels) + [t]
    {
      hide Drop;
      ghost var w := Now();
      var t := new WebSocketTunnel(|tunnels|, registry, local);
      if local && handshakeFails {
        t.DropClient();
      } else {
        t.StartUpstreamAttempt();
      }
      tunnels := tunnels + [t];
      assert Ts()[..|w.tunnels|] == w.tunnels;
    }

    /** An event of one tunnel. */
    method Dispatch(id: nat, e: Event)
      requires Linked()
      modifies tunnels, registry
      ensures Linked() && Now() == Step(old(Now()), At(id, e))
    {
      hide Handle, Enabled;
      if id < |tunnels| {
        var can := tunnels[id].CanTake(e);
        if can {
          ghost var w := Now();
          tunnels[id].On(e);
          assert forall i | 0 <= i < |tunnels| && i != id :: Ts()[i] == w.tunnels[i];
        }
      }
    }

    /** One input of any kind. */
    method Receive(i: Input)
      requires Valid()
      modifies this, registry, tunnels
      ensures Valid() && inputs == old(inputs) + [i]
      ensures tunnels == old(tunnels) || exists t :: fresh(t) && tunnels == old(tunnels) + [t]
    {
      hide Run, Step;
      RunSnoc(inputs, i);
      match i {
        case Open(local, handshakeFails) => Accept(local, handshakeFails);
        case At(id, e) => Dispatch(id, e);
      }
      inputs := inputs + [i];
    }
  }

  /** For every sequence of upgrades and events the objects end where the event system ends; so the shared
      counter is the size of the shared set, which holds exactly the tunnels that have not settled. */
  method ServeUpgrades(inputs: seq<Input>) returns (server: WebSocketServer)
    ensures server.Linked() && server.Now() == Run(inputs)
    ensures server.registry.live == |server.registry.connections|
    ensures forall id: nat ::
              id in server.registry.connections <==> id < |server.tunnels| && !server.tunnels[id].settled
  {
    server := new WebSocketServer();
    var n := 0;
    while n < |inputs|
      invariant n <= |inputs| && server.Valid() && server.inputs == inputs[..n]
      invariant fresh(server) && fresh(server.registry) && fresh(set t <- server.tunnels)
    {
      server.Receive(inputs[n]);
      n := n + 1;
    }
    assert inputs[..n] == inputs;
    CounterIsSetSize(inputs);
  }
}
