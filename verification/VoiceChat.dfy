/** A voice chat connection: one client bound to a succession of session incarnations, following
    their runtime tickets. */
module VoiceChatModel {
  import opened Common
  import R = RuntimeModel

  datatype Code =
    | Ok | Forbidden | StaleSession | Disconnected | NotRunning | StillStopping | AwaitingPlayer
    | AdmissionRejected | InputRejected | InvalidAudio

  datatype Phase = Idle | Starting | Running | Stopping | Retired

  datatype Client = Client(user: string, connection: string)

  datatype Config = Config(client: Client, maxMessages: nat, maxPayload: nat, timeout: int)

  /** The two tickets of an incarnation, as far as they are set. */
  datatype Ticket = Ticket(started: Option<R.Outcome>, retired: Option<R.Outcome>)

  datatype Item = Item(handle: R.Handle, payload: nat)

  /** The output route of one incarnation. */
  datatype Route = Route(handle: R.Handle, open: bool, overflow: bool, dropped: nat, queue: seq<Item>)

  /** `routes` and `tickets` have one element for each incarnation so far, the current one last. */
  datatype State = State(
    connected: bool,
    lastSeen: int,
    routes: seq<Route>,
    tickets: seq<Ticket>,
    phase: Phase,
    flushRequested: bool,
    playerStopped: bool)

  function Init(now: int): State { State(true, now, [], [], Idle, false, false) }

  /** Promises are set once and for all. */
  predicate Extends(t: Ticket, t': Ticket) {
    (t.started.Some? ==> t'.started == t.started) && (t.retired.Some? ==> t'.retired == t.retired)
  }

  /** What one refresh sees of the runtime: the tickets when it asks for the retirement, when it
      looks the session up, and when it asks for the startup again. They may change in between. */
  datatype Reads = Reads(first: Ticket, info: Option<R.Phase>, second: Ticket, third: Ticket)

  function Current(s: State): Route
    requires s.routes != []
  {
    s.routes[|s.routes| - 1]
  }

  predicate Follows(s: State, r: Reads) {
    s.tickets != [] ==> Extends(s.tickets[|s.tickets| - 1], r.first) && Extends(r.first, r.second) && Extends(r.second, r.third)
  }

  // ---------------------------------------------------------------- building blocks

  function Shut(r: Route): Route { r.(open := false, queue := []) }

  function CloseRoute(s: State): State {
    if s.routes == [] then s
    else s.(routes := s.routes[|s.routes| - 1 := Shut(Current(s))], flushRequested := true)
  }

  function StopLocked(s: State): State {
    if s.routes == [] then s
    else CloseRoute(s).(phase := if s.phase.Retired? then Retired else Stopping)
  }

  predicate Ended(r: Reads) {
    || r.info.None? || r.info.value.StopRequested? || r.info.value.Retiring?
    || (r.second.started.Some? && !r.second.started.value.Started?)
  }

  /** The tickets and the registry are authoritative; an overflow of the route counts as a failure. */
  function Refresh(s: State, r: Reads): State
    requires |s.tickets| == |s.routes|
  {
    if s.routes == [] then s
    else
      var n := |s.tickets| - 1;
      var t :=
        if Current(s).overflow && !s.phase.Stopping? && !s.phase.Retired? then CloseRoute(s).(phase := Stopping)
        else s;
      if r.first.retired.Some? then CloseRoute(t).(phase := Retired, tickets := s.tickets[n := r.first])
      else if Ended(r) then CloseRoute(t).(phase := Stopping, tickets := s.tickets[n := r.second])
      else if t.phase.Starting? && r.third.started.Some? then t.(phase := Running, tickets := s.tickets[n := r.third])
      else t.(tickets := s.tickets[n := r.third])
  }

  function Validate(c: Config, s: State, client: Client, handle: R.Handle): Code {
    if client != c.client then Forbidden
    else if !s.connected then Disconnected
    else if s.routes == [] || handle != Current(s).handle then StaleSession
    else Ok
  }

  /** A route takes what fits; the first thing that does not closes it for good. */
  function Append(c: Config, r: Route, payload: nat, bytes: nat, memory: bool): Route {
    if !r.open then r
    else if bytes > c.maxPayload || |r.queue| >= c.maxMessages || !memory then
      Shut(r).(dropped := r.dropped + 1, overflow := true)
    else r.(queue := r.queue + [Item(r.handle, payload)])
  }

  // ---------------------------------------------------------------- the connection's methods

  /** The admission is what the runtime answers if it is asked. */
  function Start(c: Config, s: State, client: Client, r: Reads, admission: Option<R.Handle>): (State, Code)
    requires |s.tickets| == |s.routes|
  {
    if client != c.client then (s, Forbidden)
    else if !s.connected then (s, Disconnected)
    else
      var t := Refresh(s, r);
      if t.phase.Starting? || t.phase.Running? then (t, Ok)
      else if t.phase.Stopping? then (t, StillStopping)
      else if t.phase.Retired? && !t.playerStopped then (t, AwaitingPlayer)
      else if admission.None? then (t, AdmissionRejected)
      else
        (t.(routes := t.routes + [Route(admission.value, true, false, 0, [])], tickets := t.tickets + [Ticket(None, None)],
            phase := Starting, flushRequested := false, playerStopped := false), Ok)
  }

  function Stop(c: Config, s: State, client: Client, handle: R.Handle, r: Reads): (State, Code)
    requires |s.tickets| == |s.routes|
  {
    var code := Validate(c, s, client, handle);
    if !code.Ok? then (s, code) else (Refresh(StopLocked(s), r), Ok)
  }

  function Push(c: Config, s: State, client: Client, handle: R.Handle, r: Reads, valid: bool, accepted: bool, r': Reads): (State, Code)
    requires |s.tickets| == |s.routes|
  {
    var code := Validate(c, s, client, handle);
    if !code.Ok? then (s, code)
    else
      var t := Refresh(s, r);
      if !t.phase.Running? then (t, NotRunning)
      else if !valid then (t, InvalidAudio)
      else
        var u := Refresh(t, r');
        (u, if accepted then Ok else if u.phase.Running? then InputRejected else NotRunning)
  }

  function Status(c: Config, s: State, client: Client, handle: R.Handle, r: Reads): (State, Code)
    requires |s.tickets| == |s.routes|
  {
    var code := Validate(c, s, client, handle);
    (if code.Ok? then Refresh(s, r) else s, code)
  }

  function TakeOutput(c: Config, s: State, client: Client, handle: R.Handle, r: Reads): (State, seq<Item>)
    requires |s.tickets| == |s.routes|
  {
    if !Validate(c, s, client, handle).Ok? then (s, [])
    else
      var t := Refresh(s, r);
      if !t.phase.Running? || t.routes == [] then (t, [])
      else (t.(routes := t.routes[|t.routes| - 1 := Current(t).(queue := [])]), Current(t).queue)
  }

  function PlayerStopped(c: Config, s: State, client: Client, handle: R.Handle, r: Reads): (State, Code)
    requires |s.tickets| == |s.routes|
  {
    var code := Validate(c, s, client, handle);
    if !code.Ok? then (s, code)
    else
      var t := Refresh(s, r);
      if !t.flushRequested then (t, NotRunning) else (t.(playerStopped := true), Ok)
  }

  function Expire(c: Config, s: State, now: int): State {
    if now - s.lastSeen >= c.timeout then StopLocked(s.(connected := false)) else s
  }

  function Heartbeat(c: Config, s: State, client: Client, now: int): (State, Code) {
    if client != c.client then (s, Forbidden)
    else
      var t := Expire(c, s, now);
      if !t.connected then (t, Disconnected)
      else (t.(lastSeen := if now > t.lastSeen then now else t.lastSeen), Ok)
  }

  function Tick(c: Config, s: State, now: int, r: Reads): State
    requires |s.tickets| == |s.routes|
  {
    Refresh(Expire(c, s, now), r)
  }

  function Disconnect(s: State): State { StopLocked(s.(connected := false)) }

  // ---------------------------------------------------------------- the whole system

  datatype Action =
    | DoStart(client: Client, seen: Reads, admission: Option<R.Handle>)
    | DoStop(client: Client, handle: R.Handle, seen: Reads)
    | DoPush(client: Client, handle: R.Handle, seen: Reads, valid: bool, accepted: bool, later: Reads)
    | DoStatus(client: Client, handle: R.Handle, seen: Reads)
    | DoTakeOutput(client: Client, handle: R.Handle, seen: Reads)
    | DoPlayerStopped(client: Client, handle: R.Handle, seen: Reads)
    | DoHeartbeat(client: Client, now: int)
    | DoTick(now: int, seen: Reads)
    | DoDisconnect
    | DoAppend(route: nat, payload: nat, bytes: nat, memory: bool)
    | DoTicket(index: nat, ticket: Ticket)

  predicate Enabled(c: Config, s: State, a: Action) {
    && |s.tickets| == |s.routes|
    && match a
       case DoStart(_, r, _) => Follows(s, r)
       case DoStop(_, _, r) => Follows(s, r)
       case DoPush(client, handle, r, _, _, r') => Follows(s, r) && Follows(Refresh(s, r), r')
       case DoStatus(_, _, r) => Follows(s, r)
       case DoTakeOutput(_, _, r) => Follows(s, r)
       case DoPlayerStopped(_, _, r) => Follows(s, r)
       case DoTick(_, r) => Follows(s, r)
       case DoAppend(k, _, _, _) => k < |s.routes|
       case DoTicket(k, t) => k < |s.tickets| && Extends(s.tickets[k], t)
       case _ => true
  }

  function Next(c: Config, s: State, a: Action): State
    requires Enabled(c, s, a)
  {
    match a
    case DoStart(client, r, admission) => Start(c, s, client, r, admission).0
    case DoStop(client, handle, r) => Stop(c, s, client, handle, r).0
    case DoPush(client, handle, r, valid, accepted, r') => Push(c, s, client, handle, r, valid, accepted, r').0
    case DoStatus(client, handle, r) => Status(c, s, client, handle, r).0
    case DoTakeOutput(client, handle, r) => TakeOutput(c, s, client, handle, r).0
    case DoPlayerStopped(client, handle, r) => PlayerStopped(c, s, client, handle, r).0
    case DoHeartbeat(client, now) => Heartbeat(c, s, client, now).0
    case DoTick(now, r) => Tick(c, s, now, r)
    case DoDisconnect => Disconnect(s)
    case DoAppend(k, payload, bytes, memory) => s.(routes := s.routes[k := Append(c, s.routes[k], payload, bytes, memory)])
    case DoTicket(k, t) => s.(tickets := s.tickets[k := t])
  }

  // ---------------------------------------------------------------- the invariant

  /** A closed route is empty; what an open one holds belongs to its incarnation. */
  ghost predicate RouteOk(c: Config, r: Route) {
    && (!r.open ==> r.queue == []) && (r.overflow ==> !r.open) && |r.queue| <= c.maxMessages
    && forall k :: 0 <= k < |r.queue| ==> r.queue[k].handle == r.handle
  }

  ghost predicate RoutesOk(c: Config, routes: seq<Route>) {
    forall k {:trigger RouteOk(c, routes[k])} :: 0 <= k < |routes| ==> RouteOk(c, routes[k])
  }

  /** Every incarnation but the current one is retired and its route closed. */
  ghost predicate PastOk(routes: seq<Route>, tickets: seq<Ticket>) {
    && |tickets| == |routes|
    && forall k {:trigger routes[k]} {:trigger tickets[k]} :: 0 <= k < |routes| - 1 ==> !routes[k].open && tickets[k].retired.Some?
  }

  predicate Flushing(p: Phase) { p.Stopping? || p.Retired? }

  ghost predicate PhaseOk(s: State) {
    && |s.tickets| == |s.routes|
    && (s.phase.Idle? <==> s.routes == [])
    && (s.flushRequested <==> Flushing(s.phase))
    && (s.playerStopped ==> s.flushRequested)
    && (!s.connected ==> s.phase.Idle? || Flushing(s.phase))
    && (s.routes != [] ==>
          && (s.flushRequested ==> !Current(s).open)
          && (s.phase.Retired? ==> s.tickets[|s.tickets| - 1].retired.Some?)
          && (s.phase.Running? ==> s.tickets[|s.tickets| - 1].started.Some?))
  }

  ghost predicate Inv(c: Config, s: State) {
    RoutesOk(c, s.routes) && PastOk(s.routes, s.tickets) && PhaseOk(s)
  }

  lemma LastChanged(c: Config, routes: seq<Route>, tickets: seq<Ticket>, r: Route, t: Ticket)
    requires RoutesOk(c, routes) && PastOk(routes, tickets) && routes != [] && RouteOk(c, r)
    ensures RoutesOk(c, routes[|routes| - 1 := r]) && PastOk(routes[|routes| - 1 := r], tickets[|tickets| - 1 := t])
    ensures PastOk(routes[|routes| - 1 := r], tickets)
  {
  }

  lemma StopLockedInv(c: Config, s: State)
    requires RoutesOk(c, s.routes) && PastOk(s.routes, s.tickets) && PhaseOk(s.(connected := true))
    ensures Inv(c, StopLocked(s))
  {
    if s.routes != [] {
      assert RouteOk(c, Current(s));
      LastChanged(c, s.routes, s.tickets, Shut(Current(s)), s.tickets[|s.tickets| - 1]);
    }
  }

  /** Following the runtime keeps the invariant: in particular a retired incarnation stays retired,
      because its ticket does. */
  lemma RefreshInv(c: Config, s: State, r: Reads)
    requires Inv(c, s) && Follows(s, r)
    ensures Inv(c, Refresh(s, r))
  {
    if s.routes != [] {
      RefreshRoutes(c, s, r);
      RefreshPhase(c, s, r);
    }
  }

  lemma RefreshRoutes(c: Config, s: State, r: Reads)
    requires RoutesOk(c, s.routes) && PastOk(s.routes, s.tickets) && s.routes != []
    ensures RoutesOk(c, Refresh(s, r).routes) && PastOk(Refresh(s, r).routes, Refresh(s, r).tickets)
  {
    var s' := Refresh(s, r);
    var n := |s.routes| - 1;
    assert RouteOk(c, Current(s));
    assert s.routes[n := Current(s)] == s.routes;
    LastChanged(c, s.routes, s.tickets, Shut(Current(s)), s'.tickets[n]);
    LastChanged(c, s.routes, s.tickets, Current(s), s'.tickets[n]);
  }

  lemma RefreshPhase(c: Config, s: State, r: Reads)
    requires PhaseOk(s) && RoutesOk(c, s.routes) && s.routes != [] && Follows(s, r)
    ensures PhaseOk(Refresh(s, r))
  {
  }

  lemma StartInv(c: Config, s: State, client: Client, r: Reads, admission: Option<R.Handle>)
    requires Inv(c, s) && Follows(s, r)
    ensures Inv(c, Start(c, s, client, r, admission).0)
  {
    RefreshInv(c, s, r);
  }

  lemma AppendOk(c: Config, r: Route, payload: nat, bytes: nat, memory: bool)
    requires RouteOk(c, r)
    ensures RouteOk(c, Append(c, r, payload, bytes, memory)) && Append(c, r, payload, bytes, memory).handle == r.handle
    ensures !r.open ==> Append(c, r, payload, bytes, memory) == r
  {
  }

  lemma AppendInv(c: Config, s: State, k: nat, payload: nat, bytes: nat, memory: bool)
    requires Inv(c, s) && k < |s.routes|
    ensures Inv(c, s.(routes := s.routes[k := Append(c, s.routes[k], payload, bytes, memory)]))
  {
    assert RouteOk(c, s.routes[k]);
    AppendOk(c, s.routes[k], payload, bytes, memory);
  }

  lemma TakeOutputInv(c: Config, s: State, client: Client, handle: R.Handle, r: Reads)
    requires Inv(c, s) && Follows(s, r)
    ensures Inv(c, TakeOutput(c, s, client, handle, r).0)
  {
    RefreshInv(c, s, r);
    var t := Refresh(s, r);
    if t.routes != [] {
      assert RouteOk(c, Current(t));
      LastChanged(c, t.routes, t.tickets, Current(t).(queue := []), t.tickets[|t.tickets| - 1]);
    }
  }

  lemma ExpireInv(c: Config, s: State, now: int)
    requires Inv(c, s)
    ensures Inv(c, Expire(c, s, now)) && Expire(c, s, now).tickets == s.tickets
  {
    StopLockedInv(c, s.(connected := false));
  }

  lemma NextInv(c: Config, s: State, a: Action)
    requires Inv(c, s) && Enabled(c, s, a)
    ensures Inv(c, Next(c, s, a))
  {
    match a
    case DoStart(client, r, admission) => StartInv(c, s, client, r, admission);
    case DoStop(client, handle, r) => StopLockedInv(c, s); RefreshInv(c, StopLocked(s), r);
    case DoPush(client, handle, r, valid, accepted, r') => RefreshInv(c, s, r); RefreshInv(c, Refresh(s, r), r');
    case DoStatus(client, handle, r) => RefreshInv(c, s, r);
    case DoTakeOutput(client, handle, r) => TakeOutputInv(c, s, client, handle, r);
    case DoPlayerStopped(client, handle, r) => RefreshInv(c, s, r);
    case DoHeartbeat(client, now) => ExpireInv(c, s, now);
    case DoTick(now, r) => ExpireInv(c, s, now); RefreshInv(c, Expire(c, s, now), r);
    case DoDisconnect => StopLockedInv(c, s.(connected := false));
    case DoAppend(k, payload, bytes, memory) => AppendInv(c, s, k, payload, bytes, memory);
    case DoTicket(k, t) =>
  }

  // ---------------------------------------------------------------- one step

  function Rank(p: Phase): nat {
    match p
    case Idle => 0
    case Starting => 1
    case Running => 2
    case Stopping => 3
    case Retired => 4
  }

  ghost predicate RoutesProgress(routes: seq<Route>, routes': seq<Route>) {
    && |routes| <= |routes'|
    && forall k {:trigger routes'[k]} :: 0 <= k < |routes| ==>
         routes'[k].handle == routes[k].handle && (!routes[k].open ==> routes'[k] == routes[k])
  }

  /** What a step may do: the connection is never re-established, the phase of an incarnation only
      moves forward, and a new incarnation begins only after the player has stopped and the old one
      has been retired. */
  ghost predicate Progress(s: State, s': State) {
    && (!s.connected ==> !s'.connected && |s'.routes| == |s.routes|)
    && |s.routes| <= |s'.routes| <= |s.routes| + 1 && |s'.tickets| == |s'.routes|
    && (|s'.routes| == |s.routes| ==> Rank(s.phase) <= Rank(s'.phase))
    && (|s'.routes| > |s.routes| ==>
          s'.phase.Starting? && (s.routes != [] ==> s.playerStopped && s'.tickets[|s.routes| - 1].retired.Some?))
  }

  lemma RefreshProgress(s: State, r: Reads)
    requires PhaseOk(s) && Follows(s, r)
    ensures var t := Refresh(s, r);
            && Progress(s, t) && |t.routes| == |s.routes| && t.connected == s.connected && t.playerStopped == s.playerStopped
            && (t.phase.Retired? && t.routes != [] ==> t.tickets[|t.tickets| - 1].retired.Some?)
            && (t.routes == [] ==> t == s)
  {
  }

  lemma StartProgress(c: Config, s: State, client: Client, r: Reads, admission: Option<R.Handle>)
    requires PhaseOk(s) && Follows(s, r)
    ensures Progress(s, Start(c, s, client, r, admission).0)
  {
    RefreshProgress(s, r);
  }

  lemma StopProgress(s: State, connected: bool)
    requires PhaseOk(s) && (connected ==> s.connected)
    ensures var t := StopLocked(s.(connected := connected));
            Progress(s, t) && PhaseOk(t) && t.tickets == s.tickets && |t.routes| == |s.routes|
  {
  }

  lemma ProgressTrans(s: State, t: State, u: State)
    requires Progress(s, t) && Progress(t, u) && |t.routes| == |s.routes| && |u.routes| == |s.routes|
    ensures Progress(s, u)
  {
  }

  lemma PushProgress(c: Config, s: State, r: Reads, r': Reads)
    requires Inv(c, s) && Follows(s, r) && Follows(Refresh(s, r), r')
    ensures Progress(s, Refresh(s, r)) && Progress(s, Refresh(Refresh(s, r), r'))
  {
    RefreshInv(c, s, r);
    RefreshProgress(s, r);
    RefreshProgress(Refresh(s, r), r');
    ProgressTrans(s, Refresh(s, r), Refresh(Refresh(s, r), r'));
  }

  lemma StopRefreshProgress(s: State, connected: bool, r: Reads)
    requires PhaseOk(s) && (connected ==> s.connected) && Follows(s, r)
    ensures Progress(s, Refresh(StopLocked(s.(connected := connected)), r)) && Progress(s, Refresh(s, r))
  {
    StopProgress(s, connected);
    var t := StopLocked(s.(connected := connected));
    RefreshProgress(t, r);
    RefreshProgress(s, r);
    ProgressTrans(s, t, Refresh(t, r));
  }

  lemma TakeProgress(c: Config, s: State, client: Client, handle: R.Handle, r: Reads)
    requires PhaseOk(s) && Follows(s, r)
    ensures Progress(s, TakeOutput(c, s, client, handle, r).0) && Progress(s, PlayerStopped(c, s, client, handle, r).0)
  {
    RefreshProgress(s, r);
  }

  lemma NextProgress(c: Config, s: State, a: Action)
    requires Inv(c, s) && Enabled(c, s, a)
    ensures Progress(s, Next(c, s, a))
  {
    match a
    case DoStart(client, r, admission) => StartProgress(c, s, client, r, admission);
    case DoStop(client, handle, r) => StopRefreshProgress(s, s.connected, r);
    case DoPush(client, handle, r, valid, accepted, r') => PushProgress(c, s, r, r');
    case DoStatus(client, handle, r) => RefreshProgress(s, r);
    case DoTakeOutput(client, handle, r) => TakeProgress(c, s, client, handle, r);
    case DoPlayerStopped(client, handle, r) => TakeProgress(c, s, client, handle, r);
    case DoHeartbeat(client, now) => StopProgress(s, false);
    case DoTick(now, r) => StopRefreshProgress(s, false, r);
    case DoDisconnect => StopProgress(s, false);
    case DoAppend(k, payload, bytes, memory) =>
    case DoTicket(k, t) =>
  }

  lemma ShutProgress(c: Config, s: State)
    requires RoutesOk(c, s.routes)
    ensures RoutesProgress(s.routes, CloseRoute(s).routes) && RoutesProgress(s.routes, StopLocked(s).routes)
    ensures RoutesOk(c, CloseRoute(s).routes) && RoutesOk(c, StopLocked(s).routes)
  {
    if s.routes != [] { assert RouteOk(c, Current(s)); }
  }

  lemma RoutesTrans(a: seq<Route>, b: seq<Route>, d: seq<Route>)
    requires RoutesProgress(a, b) && RoutesProgress(b, d)
    ensures RoutesProgress(a, d)
  {
    forall k | 0 <= k < |a| ensures d[k].handle == a[k].handle && (!a[k].open ==> d[k] == a[k]) {
      assert b[k].handle == a[k].handle;
    }
  }

  lemma RefreshRoutesProgress(c: Config, s: State, r: Reads)
    requires RoutesOk(c, s.routes) && |s.tickets| == |s.routes|
    ensures RoutesProgress(s.routes, Refresh(s, r).routes) && RoutesOk(c, Refresh(s, r).routes)
  {
    ShutProgress(c, s);
    ShutProgress(c, CloseRoute(s));
    RoutesTrans(s.routes, CloseRoute(s).routes, CloseRoute(CloseRoute(s)).routes);
  }

  /** Nothing ever enters a closed route again. */
  lemma NextRoutes(c: Config, s: State, a: Action)
    requires RoutesOk(c, s.routes) && Enabled(c, s, a)
    ensures RoutesProgress(s.routes, Next(c, s, a).routes)
  {
    match a
    case DoStart(client, r, admission) => RefreshRoutesProgress(c, s, r);
    case DoStop(client, handle, r) => ShutProgress(c, s); RefreshRoutesProgress(c, StopLocked(s), r);
      RoutesTrans(s.routes, StopLocked(s).routes, Refresh(StopLocked(s), r).routes);
    case DoPush(client, handle, r, valid, accepted, r') => PushRoutes(c, s, r, r');
    case DoStatus(client, handle, r) => RefreshRoutesProgress(c, s, r);
    case DoTakeOutput(client, handle, r) => TakeRoutes(c, s, client, handle, r);
    case DoPlayerStopped(client, handle, r) => RefreshRoutesProgress(c, s, r);
    case DoHeartbeat(client, now) => ShutProgress(c, s.(connected := false));
    case DoTick(now, r) => TickRoutes(c, s, now, r);
    case DoDisconnect => ShutProgress(c, s.(connected := false));
    case DoAppend(k, payload, bytes, memory) =>
    case DoTicket(k, t) =>
  }

  lemma PushRoutes(c: Config, s: State, r: Reads, r': Reads)
    requires RoutesOk(c, s.routes) && |s.tickets| == |s.routes|
    ensures RoutesProgress(s.routes, Refresh(s, r).routes) && RoutesProgress(s.routes, Refresh(Refresh(s, r), r').routes)
  {
    RefreshRoutesProgress(c, s, r);
    RefreshRoutesProgress(c, Refresh(s, r), r');
    RoutesTrans(s.routes, Refresh(s, r).routes, Refresh(Refresh(s, r), r').routes);
  }

  lemma TakeRoutes(c: Config, s: State, client: Client, handle: R.Handle, r: Reads)
    requires RoutesOk(c, s.routes) && |s.tickets| == |s.routes|
    ensures RoutesProgress(s.routes, TakeOutput(c, s, client, handle, r).0.routes)
  {
    RefreshRoutesProgress(c, s, r);
    var t := Refresh(s, r);
    if t.routes != [] {
      assert RouteOk(c, Current(t));
      RoutesTrans(s.routes, t.routes, t.routes[|t.routes| - 1 := Current(t).(queue := [])]);
    }
  }

  lemma TickRoutes(c: Config, s: State, now: int, r: Reads)
    requires RoutesOk(c, s.routes) && |s.tickets| == |s.routes|
    ensures RoutesProgress(s.routes, Tick(c, s, now, r).routes)
  {
    ShutProgress(c, s.(connected := false));
    var t := Expire(c, s, now);
    RefreshRoutesProgress(c, t, r);
    RoutesTrans(s.routes, t.routes, Tick(c, s, now, r).routes);
  }

  // ---------------------------------------------------------------- whole runs

  ghost predicate StepAt(c: Config, run: seq<State>, i: nat)
    requires i + 1 < |run|
  {
    exists a :: Enabled(c, run[i], a) && run[i + 1] == Next(c, run[i], a)
  }

  ghost predicate IsRun(c: Config, run: seq<State>, now: int) {
    && |run| > 0 && run[0] == Init(now)
    && forall i :: 0 <= i < |run| - 1 ==> StepAt(c, run, i)
  }

  lemma StepKeeps(c: Config, run: seq<State>, now: int, i: nat)
    requires IsRun(c, run, now) && 0 < i < |run| && Inv(c, run[i - 1])
    ensures Inv(c, run[i]) && Progress(run[i - 1], run[i]) && RoutesProgress(run[i - 1].routes, run[i].routes)
  {
    assert StepAt(c, run, i - 1);
    var a :| Enabled(c, run[i - 1], a) && run[i] == Next(c, run[i - 1], a);
    NextInv(c, run[i - 1], a);
    NextProgress(c, run[i - 1], a);
    NextRoutes(c, run[i - 1], a);
  }

  lemma {:induction false} RunsKeepInvariant(c: Config, run: seq<State>, now: int, i: nat)
    requires IsRun(c, run, now) && i < |run|
    ensures Inv(c, run[i])
  {
    if i > 0 {
      RunsKeepInvariant(c, run, now, i - 1);
      StepKeeps(c, run, now, i);
    }
  }

  lemma StepProgress(c: Config, run: seq<State>, now: int, i: nat)
    requires IsRun(c, run, now) && 0 < i < |run|
    ensures Progress(run[i - 1], run[i]) && RoutesProgress(run[i - 1].routes, run[i].routes)
  {
    RunsKeepInvariant(c, run, now, i - 1);
    StepKeeps(c, run, now, i);
  }

  /** Flushing is requested exactly while stopping or retired, only then can the player have stopped,
      and only a retired ticket makes an incarnation retired. */
  lemma PhasesAndFlags(c: Config, run: seq<State>, now: int, i: nat)
    requires IsRun(c, run, now) && i < |run|
    ensures run[i].flushRequested <==> Flushing(run[i].phase)
    ensures run[i].playerStopped ==> run[i].flushRequested
    ensures run[i].phase.Retired? ==> run[i].tickets != [] && run[i].tickets[|run[i].tickets| - 1].retired.Some?
  {
    RunsKeepInvariant(c, run, now, i);
  }

  /** Within one incarnation the phase only moves forward. */
  lemma {:induction false} PhaseMovesForward(c: Config, run: seq<State>, now: int, i: nat, j: nat)
    requires IsRun(c, run, now) && i <= j < |run|
    ensures |run[i].routes| <= |run[j].routes|
    ensures |run[i].routes| == |run[j].routes| ==> Rank(run[i].phase) <= Rank(run[j].phase)
    decreases j
  {
    if i < j {
      PhaseMovesForward(c, run, now, i, j - 1);
      StepProgress(c, run, now, j);
    }
  }

  /** A disconnected client never gets another session, and the one it has is on its way out. */
  lemma {:induction false} DisconnectionIsPermanent(c: Config, run: seq<State>, now: int, i: nat, j: nat)
    requires IsRun(c, run, now) && i <= j < |run| && !run[i].connected
    ensures !run[j].connected && |run[j].routes| == |run[i].routes| && (run[j].phase.Idle? || Flushing(run[j].phase))
    decreases j
  {
    if i < j {
      DisconnectionIsPermanent(c, run, now, i, j - 1);
      StepProgress(c, run, now, j);
    }
    RunsKeepInvariant(c, run, now, j);
  }

  /** A closed route is empty and stays as it is for ever. */
  lemma {:induction false} ClosedRouteStaysEmpty(c: Config, run: seq<State>, now: int, i: nat, j: nat, k: nat)
    requires IsRun(c, run, now) && i <= j < |run| && k < |run[i].routes| && !run[i].routes[k].open
    ensures k < |run[j].routes| && run[j].routes[k] == run[i].routes[k] && run[j].routes[k].queue == []
    decreases j
  {
    if i == j {
      RunsKeepInvariant(c, run, now, i);
      assert RouteOk(c, run[i].routes[k]);
    } else {
      ClosedRouteStaysEmpty(c, run, now, i, j - 1, k);
      StepProgress(c, run, now, j);
    }
  }

  /** A replacement begins only when the old incarnation is retired and its player has stopped; from
      then on the old route is closed. */
  lemma ReplacementWaits(c: Config, run: seq<State>, now: int, i: nat)
    requires IsRun(c, run, now) && 0 < i < |run| && 0 < |run[i - 1].routes| < |run[i].routes|
    ensures run[i - 1].playerStopped && Flushing(run[i - 1].phase)
    ensures var last := |run[i - 1].routes| - 1;
            last < |run[i].tickets| && run[i].tickets[last].retired.Some? && !run[i].routes[last].open
  {
    StepProgress(c, run, now, i);
    RunsKeepInvariant(c, run, now, i - 1);
    RunsKeepInvariant(c, run, now, i);
    assert !run[i].routes[|run[i - 1].routes| - 1].open;
  }

  /** Output is handed out only to the client, for the current handle, and all of it carries that
      handle. */
  lemma OutputIsOfCurrentHandle(c: Config, run: seq<State>, now: int, i: nat, client: Client, handle: R.Handle, r: Reads)
    requires IsRun(c, run, now) && i < |run| && Enabled(c, run[i], DoTakeOutput(client, handle, r))
    ensures var items := TakeOutput(c, run[i], client, handle, r).1;
            && (forall k :: 0 <= k < |items| ==> items[k].handle == handle)
            && (items != [] ==> client == c.client && run[i].connected && run[i].routes != [] && Current(run[i]).handle == handle)
  {
    RunsKeepInvariant(c, run, now, i);
    TakenItems(c, run[i], client, handle, r);
  }

  lemma TakenItems(c: Config, s: State, client: Client, handle: R.Handle, r: Reads)
    requires Inv(c, s) && Follows(s, r)
    ensures var items := TakeOutput(c, s, client, handle, r).1;
            && (forall k :: 0 <= k < |items| ==> items[k].handle == handle)
            && (items != [] ==> client == c.client && s.connected && s.routes != [] && Current(s).handle == handle)
  {
    if Validate(c, s, client, handle).Ok? {
      RefreshRoutesProgress(c, s, r);
      RefreshProgress(s, r);
      var t := Refresh(s, r);
      assert RouteOk(c, Current(t));
      assert t.routes[|t.routes| - 1].handle == s.routes[|s.routes| - 1].handle;
    }
  }

  // ---------------------------------------------------------------- the startup ticket

  /** Whatever a refresh sees of the runtime, if it enters Running then the session has started. */
  ghost predicate NeverMisled(s: State)
    requires |s.tickets| == |s.routes| > 0
  {
    forall r {:trigger Follows(s, r)} :: Follows(s, r) && Refresh(s, r).phase.Running? ==>
      Refresh(s, r).tickets[|s.tickets| - 1].started == Some(R.Started)
  }

  /** The startup ticket is read twice, and may be set to something else in between. So a starting
      connection can be misled exactly as long as its ticket is open: not once the ticket is set before
      the refresh, nor when the route has overflowed (or, which the runtime rules out, a session was
      retired before its startup was reported). */
  lemma RunningMeansStartedIff(s: State)
    requires PhaseOk(s) && s.phase.Starting?
    ensures var ticket := s.tickets[|s.tickets| - 1];
            NeverMisled(s) <==> ticket.started.Some? || Current(s).overflow || ticket.retired.Some?
  {
    var ticket := s.tickets[|s.tickets| - 1];
    if !ticket.started.Some? && !Current(s).overflow && !ticket.retired.Some? {
      var r := Misleading(ticket);
      assert Follows(s, r) && Refresh(s, r).phase.Running?;
      assert Refresh(s, r).tickets[|s.tickets| - 1].started == Some(R.StartupFailed);
    }
  }

  /** The startup fails between the two reads. */
  function Misleading(t: Ticket): Reads {
    Reads(t, Some(R.Starting), t, t.(started := Some(R.StartupFailed)))
  }

  /** The race is reached from the beginning: a client starts a session and asks for its status, and a
      session whose startup failed is shown as running. */
  lemma RunningDespiteFailure(c: Config, now: int, handle: R.Handle) returns (run: seq<State>)
    ensures IsRun(c, run, now) && |run| == 3
    ensures |run[2].tickets| == 1 && run[2].phase.Running? && run[2].tickets[0].started == Some(R.StartupFailed)
  {
    var none := Ticket(None, None);
    var first := DoStart(c.client, Reads(none, None, none, none), Some(handle));
    var second := DoStatus(c.client, handle, Misleading(none));
    var s := Next(c, Init(now), first);
    run := [Init(now), s, Next(c, s, second)];
    assert Enabled(c, run[0], first) && run[1] == Next(c, run[0], first);
    assert Enabled(c, run[1], second) && run[2] == Next(c, run[1], second);
    assert StepAt(c, run, 0) && StepAt(c, run, 1);
  }

  /** The next refresh corrects it. */
  lemma RunningIsCorrected(s: State, r: Reads)
    requires PhaseOk(s) && Follows(s, r) && s.phase.Running? && s.tickets[|s.tickets| - 1].started != Some(R.Started)
    ensures Flushing(Refresh(s, r).phase)
  {
  }
}

/** The connection object and its routes. */
module VoiceChats {
  import opened Common
  import opened VoiceChatModel
  import R = RuntimeModel

  class VoiceChatConnection {
    const config: Config
    var connected: bool
    var lastSeen: int
    var routes: seq<Route>
    var tickets: seq<Ticket>
    var phase: Phase
    var flushRequested: bool
    var playerStopped: bool

    ghost function Model(): State
      reads this
    {
      State(connected, lastSeen, routes, tickets, phase, flushRequested, playerStopped)
    }

    ghost predicate Valid()
      reads this
    {
      Inv(config, Model())
    }

    constructor (c: Config, now: int)
      ensures config == c && Model() == Init(now) && Valid()
    {
      config := c;
      connected, lastSeen, routes, tickets := true, now, [], [];
      phase, flushRequested, playerStopped := Idle, false, false;
    }

    /** The sink side: runs on provider threads under the route's own lock. */
    method AppendOutput(route: nat, payload: nat, bytes: nat, memory: bool)
      requires route < |routes|
      modifies this`routes
      ensures Model() == old(Model()).(routes := old(routes)[route := Append(config, old(routes)[route], payload, bytes, memory)])
    {
      var r := routes[route];
      if !r.open { return; }
      if bytes > config.maxPayload || |r.queue| >= config.maxMessages || !memory {
        routes := routes[route := r.(dropped := r.dropped + 1, overflow := true, open := false, queue := [])];
        return;
      }
      routes := routes[route := r.(queue := r.queue + [Item(r.handle, payload)])];
    }

    method Close()
      modifies this`routes, this`flushRequested
      ensures Model() == CloseRoute(old(Model()))
    {
      if routes == [] { return; }
      var n := |routes| - 1;
      routes := routes[n := routes[n].(open := false, queue := [])];
      flushRequested := true;
    }

    method StopCurrent()
      modifies this`routes, this`flushRequested, this`phase
      ensures Model() == StopLocked(old(Model()))
    {
      if routes == [] { return; }
      Close();
      if !phase.Retired? { phase := Stopping; }
    }

    method RefreshFrom(r: Reads)
      requires |tickets| == |routes|
      modifies this`routes, this`flushRequested, this`phase, this`tickets
      ensures Model() == Refresh(old(Model()), r)
    {
      if routes == [] { return; }
      var n := |routes| - 1;
      if routes[n].overflow && !phase.Stopping? && !phase.Retired? {
        Close();
        phase := Stopping;
      }
      if r.first.retired.Some? {
        Close();
        phase, tickets := Retired, tickets[n := r.first];
        return;
      }
      if r.info.None? || r.info.value.StopRequested? || r.info.value.Retiring?
         || (r.second.started.Some? && !r.second.started.value.Started?)
      {
        Close();
        phase, tickets := Stopping, tickets[n := r.second];
        return;
      }
      if phase.Starting? && r.third.started.Some? { phase := Running; }
      tickets := tickets[n := r.third];
    }

    method StartSession(client: Client, r: Reads, admission: Option<R.Handle>) returns (code: Code)
      requires Valid() && Follows(Model(), r)
      modifies this
      ensures Valid() && (Model(), code) == Start(config, old(Model()), client, r, admission)
    {
      StartInv(config, Model(), client, r, admission);
      if client != config.client { return Forbidden; }
      if !connected { return Disconnected; }
      RefreshFrom(r);
      if phase.Starting? || phase.Running? { return Ok; }
      if phase.Stopping? { return StillStopping; }
      if phase.Retired? && !playerStopped { return AwaitingPlayer; }
      if admission.None? { return AdmissionRejected; }
      routes := routes + [Route(admission.value, true, false, 0, [])];
      tickets := tickets + [Ticket(None, None)];
      phase, flushRequested, playerStopped := Starting, false, false;
      return Ok;
    }

    method StopSession(client: Client, handle: R.Handle, r: Reads) returns (code: Code)
      requires Valid() && Follows(Model(), r)
      modifies this
      ensures Valid() && (Model(), code) == Stop(config, old(Model()), client, handle, r)
    {
      NextInv(config, Model(), DoStop(client, handle, r));
      code := Check(client, handle);
      if code != Ok { return; }
      StopCurrent();
      RefreshFrom(r);
    }

    method Check(client: Client, handle: R.Handle) returns (code: Code)
      ensures code == Validate(config, Model(), client, handle)
    {
      if client != config.client { return Forbidden; }
      if !connected { return Disconnected; }
      if routes == [] || handle != routes[|routes| - 1].handle { return StaleSession; }
      return Ok;
    }

    /** Drains the queue of the current route, front first. */
    method TakeAll(client: Client, handle: R.Handle, r: Reads) returns (items: seq<Item>)
      requires Valid() && Follows(Model(), r)
      modifies this
      ensures Valid() && (Model(), items) == TakeOutput(config, old(Model()), client, handle, r)
    {
      TakeOutputInv(config, Model(), client, handle, r);
      RefreshInv(config, Model(), r);
      items := [];
      var code := Check(client, handle);
      if code != Ok { return; }
      RefreshFrom(r);
      if !phase.Running? { return; }
      items := Drain();
    }

    method Drain() returns (items: seq<Item>)
      requires routes != []
      modifies this`routes
      ensures items == old(routes)[|old(routes)| - 1].queue
      ensures routes == old(routes)[|old(routes)| - 1 := old(routes)[|old(routes)| - 1].(queue := [])]
    {
      items := [];
      var n := |routes| - 1;
      var queue := routes[n].queue;
      while queue != []
        invariant items + queue == routes[n].queue
        decreases |queue|
      {
        assert queue == [queue[0]] + queue[1..];
        items := items + [queue[0]];
        queue := queue[1..];
      }
      routes := routes[n := routes[n].(queue := queue)];
    }

    method AcknowledgePlayerStop(client: Client, handle: R.Handle, r: Reads) returns (code: Code)
      requires Valid() && Follows(Model(), r)
      modifies this
      ensures Valid() && (Model(), code) == PlayerStopped(config, old(Model()), client, handle, r)
    {
      NextInv(config, Model(), DoPlayerStopped(client, handle, r));
      code := Check(client, handle);
      if code != Ok { return; }
      RefreshFrom(r);
      if !flushRequested { return NotRunning; }
      playerStopped := true;
    }

    method Beat(client: Client, now: int) returns (code: Code)
      requires Valid()
      modifies this
      ensures Valid() && (Model(), code) == Heartbeat(config, old(Model()), client, now)
    {
      NextInv(config, Model(), DoHeartbeat(client, now));
      if client != config.client { return Forbidden; }
      if now - lastSeen >= config.timeout {
        connected := false;
        StopCurrent();
      }
      if !connected { return Disconnected; }
      if now > lastSeen { lastSeen := now; }
      return Ok;
    }

    method OnTick(now: int, r: Reads)
      requires Valid() && Follows(Model(), r)
      modifies this
      ensures Valid() && Model() == Tick(config, old(Model()), now, r)
    {
      NextInv(config, Model(), DoTick(now, r));
      if now - lastSeen >= config.timeout {
        connected := false;
        StopCurrent();
      }
      RefreshFrom(r);
    }

    method HangUp()
      requires Valid()
      modifies this
      ensures Valid() && Model() == Disconnect(old(Model()))
    {
      NextInv(config, Model(), DoDisconnect);
      connected := false;
      StopCurrent();
    }
  }
}
