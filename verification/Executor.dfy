/** The per-session executor: FIFO lanes of turns over a shared pool of workers.

    Every region of the program that holds the executor mutex is one transition of the state
    machine below; what a worker does between two such regions (running the turn and settling
    its promise) is a transition of its own. `turns` is the heap of work objects in acceptance
    order, so a turn is named by its acceptance number. */
module ExecutorModel {
  import opened Common

  datatype Config = Config(maxPerSession: nat, maxTotal: nat)

  /** The constructor refuses zero queue limits. */
  predicate ValidConfig(c: Config) {
    c.maxPerSession > 0 && c.maxTotal > 0
  }

  datatype TurnId = Given(name: string) | Numbered(number: nat)

  datatype Settlement = Returned | Raised | CancelledWhileQueued | StoppedWhileQueued

  /** `settled` lists every value or exception ever stored into the turn's promise. */
  datatype Turn = Turn(session: string, id: TurnId, cancelled: bool, settled: seq<Settlement>)

  datatype Lane = Lane(queue: seq<nat>, running: Option<nat>, scheduled: bool)

  datatype Worker = Idle | Executing(session: string, turn: nat) | Reporting(session: string, turn: nat) | Exited

  /** `started` is the order in which turns left their queues; `faulted` records a `sessions_.at`
      miss or a promise satisfied twice, either of which would end the process. */
  datatype State = State(
    lanes: map<string, Lane>,
    ready: seq<string>,
    pendingTotal: int,
    stopping: bool,
    nextTurnId: nat,
    turns: seq<Turn>,
    workers: seq<Worker>,
    started: seq<nat>,
    faulted: bool)

  datatype SubmitResult = Accepted(turn: nat, id: TurnId) | InvalidArgument | ExecutorStopped | SessionOverloaded | ExecutorOverloaded

  function Init(workerCount: nat): State {
    State(map[], [], 0, false, 1, [], seq(workerCount, i => Idle), [], false)
  }

  // ---------------------------------------------------------------- transitions

  /** The turns waiting in the lanes `ids`. */
  function QueuedIn(lanes: map<string, Lane>, ids: set<string>): set<nat> {
    set id, t | id in lanes && id in ids && t in lanes[id].queue :: t
  }

  /** The turns running in the lanes `ids`. */
  function RunningIn(lanes: map<string, Lane>, ids: set<string>): set<nat> {
    set id | id in lanes && id in ids && lanes[id].running.Some? :: lanes[id].running.value
  }

  /** Raises the cancellation flag of the turns in `flagged` and `dropped`; those in `dropped`
      also get `how` stored into their promises. */
  function Abandon(turns: seq<Turn>, flagged: set<nat>, dropped: set<nat>, how: Settlement): (r: seq<Turn>)
    ensures |r| == |turns|
    ensures forall t :: 0 <= t < |turns| ==>
      && r[t].session == turns[t].session
      && r[t].settled == (if t in dropped then turns[t].settled + [how] else turns[t].settled)
  {
    seq(|turns|, t requires 0 <= t < |turns| =>
      Turn(turns[t].session, turns[t].id, turns[t].cancelled || t in flagged || t in dropped,
           if t in dropped then turns[t].settled + [how] else turns[t].settled))
  }

  /** Cancels what runs and abandons what waits in the lanes `ids`. */
  function Drain(s: State, ids: set<string>, how: Settlement): State {
    s.(turns := Abandon(s.turns, RunningIn(s.lanes, ids), QueuedIn(s.lanes, ids), how),
       lanes := map id | id in s.lanes :: if id in ids then s.lanes[id].(queue := []) else s.lanes[id])
  }

  function LaneOf(s: State, session: string): Lane {
    if session in s.lanes then s.lanes[session] else Lane([], None, false)
  }

  function Submit(c: Config, s: State, session: string, turnId: string, positiveTimeout: bool): (State, SubmitResult) {
    if session == "" || !positiveTimeout then (s, InvalidArgument)
    else if s.stopping then (s, ExecutorStopped)
    else
      // The number is consumed even when the turn is then rejected for overload.
      var id := if turnId == "" then Numbered(s.nextTurnId) else Given(turnId);
      var s1 := if turnId == "" then s.(nextTurnId := s.nextTurnId + 1) else s;
      if session in s.lanes && |s.lanes[session].queue| >= c.maxPerSession then (s1, SessionOverloaded)
      else if s.pendingTotal >= c.maxTotal then (s1, ExecutorOverloaded)
      else
        var lane := LaneOf(s, session);
        var wake := !lane.scheduled && lane.running.None?;
        (s1.(lanes := s.lanes[session := lane.(queue := lane.queue + [|s.turns|], scheduled := lane.scheduled || wake)],
             pendingTotal := s.pendingTotal + 1,
             turns := s.turns + [Turn(session, id, false, [])],
             ready := if wake then s.ready + [session] else s.ready),
         Accepted(|s.turns|, id))
  }

  function Cancel(s: State, session: string): State {
    if session !in s.lanes then s
    else Drain(s, {session}, CancelledWhileQueued).(pendingTotal := s.pendingTotal - |s.lanes[session].queue|)
  }

  function Shutdown(s: State): State {
    if s.stopping then s
    else Drain(s, s.lanes.Keys, StoppedWhileQueued).(stopping := true, pendingTotal := 0)
  }

  function Take(s: State, w: nat): State
    requires w < |s.workers| && s.ready != []
  {
    var session := s.ready[0];
    if session !in s.lanes then s.(faulted := true)
    else
      var lane := s.lanes[session];
      if lane.queue == [] then
        s.(ready := s.ready[1..], lanes := s.lanes[session := lane.(scheduled := false)])
      else
        s.(ready := s.ready[1..],
           lanes := s.lanes[session := Lane(lane.queue[1..], Some(lane.queue[0]), false)],
           pendingTotal := s.pendingTotal - 1,
           workers := s.workers[w := Executing(session, lane.queue[0])],
           started := s.started + [lane.queue[0]])
  }

  /** A worker notices that the deadline passed before the turn ran. */
  function Expire(s: State, w: nat): State
    requires w < |s.workers| && s.workers[w].Executing?
  {
    s.(turns := Abandon(s.turns, {s.workers[w].turn}, {}, Raised))
  }

  /** The turn returned or raised, and the worker stores that into the promise. */
  function Settle(s: State, w: nat, returned: bool): State
    requires w < |s.workers| && s.workers[w].Executing?
  {
    var t := s.workers[w].turn;
    if t >= |s.turns| || s.turns[t].settled != [] then s.(faulted := true)
    else
      s.(turns := s.turns[t := s.turns[t].(settled := [if returned then Returned else Raised])],
         workers := s.workers[w := Reporting(s.workers[w].session, t)])
  }

  /** The last mutex region of the loop body: hand the lane back, re-queue or reclaim it. */
  function Report(s: State, w: nat): State
    requires w < |s.workers| && s.workers[w].Reporting?
  {
    var session := s.workers[w].session;
    if session !in s.lanes then s.(faulted := true)
    else
      var lane := s.lanes[session].(running := None);
      var s1 := s.(workers := s.workers[w := Idle]);
      if lane.queue != [] && !s.stopping then
        s1.(lanes := s.lanes[session := lane.(scheduled := true)], ready := s.ready + [session])
      else if lane.queue == [] then s1.(lanes := s.lanes - {session})
      else s1.(lanes := s.lanes[session := lane])
  }

  function Exit(s: State, w: nat): State
    requires w < |s.workers|
  {
    s.(workers := s.workers[w := Exited])
  }

  datatype Action =
    | DoSubmit(session: string, turnId: string, positiveTimeout: bool)
    | DoCancel(session: string)
    | DoShutdown
    | DoTake(worker: nat)
    | DoExpire(worker: nat)
    | DoSettle(worker: nat, returned: bool)
    | DoReport(worker: nat)
    | DoExit(worker: nat)

  predicate WorkerAction(a: Action) {
    a.DoTake? || a.DoSettle? || a.DoReport? || a.DoExit?
  }

  predicate Enabled(s: State, a: Action) {
    match a
    case DoSubmit(_, _, _) => true
    case DoCancel(_) => true
    case DoShutdown => true
    case DoTake(w) => w < |s.workers| && s.workers[w].Idle? && s.ready != []
    case DoExpire(w) => w < |s.workers| && s.workers[w].Executing?
    case DoSettle(w, _) => w < |s.workers| && s.workers[w].Executing?
    case DoReport(w) => w < |s.workers| && s.workers[w].Reporting?
    case DoExit(w) => w < |s.workers| && s.workers[w].Idle? && s.stopping && s.ready == []
  }

  function Next(c: Config, s: State, a: Action): State
    requires Enabled(s, a)
  {
    match a
    case DoSubmit(session, turnId, positiveTimeout) => Submit(c, s, session, turnId, positiveTimeout).0
    case DoCancel(session) => Cancel(s, session)
    case DoShutdown => Shutdown(s)
    case DoTake(w) => Take(s, w)
    case DoExpire(w) => Expire(s, w)
    case DoSettle(w, returned) => Settle(s, w, returned)
    case DoReport(w) => Report(s, w)
    case DoExit(w) => Exit(s, w)
  }

  // ---------------------------------------------------------------- the scheduling invariant

  ghost function QueueLengths(lanes: map<string, Lane>): map<string, nat> {
    map id | id in lanes :: |lanes[id].queue|
  }

  predicate Busy(w: Worker) {
    w.Executing? || w.Reporting?
  }

  predicate Holds(w: Worker, session: string, turn: nat) {
    Busy(w) && w.session == session && w.turn == turn
  }

  /** A session is scheduled exactly when its id is in the ready deque, once. */
  ghost predicate ReadyOk(ready: seq<string>, lanes: map<string, Lane>) {
    && NoDuplicates(ready)
    && (forall i :: 0 <= i < |ready| ==> ready[i] in lanes && lanes[ready[i]].scheduled)
    && (forall id :: id in lanes && lanes[id].scheduled ==> id in ready)
  }

  /** No overlap and no lost work within a lane; the queue is in acceptance order and bounded. */
  ghost predicate LaneOk(c: Config, lane: Lane) {
    && (lane.running.Some? ==> !lane.scheduled)
    && (lane.queue != [] ==> lane.scheduled || lane.running.Some?)
    && Increasing(lane.queue)
    && |lane.queue| <= c.maxPerSession
  }

  ghost predicate LanesOk(c: Config, lanes: map<string, Lane>) {
    forall id :: id in lanes ==> LaneOk(c, lanes[id])
  }

  ghost predicate TotalOk(c: Config, lanes: map<string, Lane>, total: int) {
    total == MapSum(QueueLengths(lanes)) <= c.maxTotal
  }

  /** Queued turns are accepted, belong to their lane, are unsettled, and come after
      every turn of the session that already started. */
  ghost predicate QueueOk(turns: seq<Turn>, started: seq<nat>, id: string, queue: seq<nat>) {
    && (forall k :: 0 <= k < |queue| ==> Waits(turns, id, queue[k]))
    && (forall i, k :: 0 <= i < |started| && 0 <= k < |queue| ==> InOrder(turns, id, started[i], queue[k]))
  }

  predicate Waits(turns: seq<Turn>, id: string, t: nat) {
    t < |turns| && turns[t].session == id && turns[t].settled == []
  }

  predicate InOrder(turns: seq<Turn>, id: string, earlier: nat, later: nat) {
    earlier < |turns| && turns[earlier].session == id ==> earlier < later
  }

  ghost predicate QueuesOk(turns: seq<Turn>, started: seq<nat>, lanes: map<string, Lane>) {
    forall id :: id in lanes ==> QueueOk(turns, started, id, lanes[id].queue)
  }

  ghost predicate WorkerOk(s: State, w: Worker) {
    match w
    case Idle => true
    case Executing(session, t) =>
      session in s.lanes && s.lanes[session].running == Some(t) && Waits(s.turns, session, t) && t in s.started
    case Reporting(session, t) =>
      session in s.lanes && s.lanes[session].running == Some(t) && t in s.started
      && t < |s.turns| && s.turns[t].session == session && |s.turns[t].settled| == 1
    case Exited => s.stopping
  }

  ghost predicate WorkersOk(s: State) {
    && (forall w :: 0 <= w < |s.workers| ==> WorkerOk(s, s.workers[w]))
    && (forall v, w :: 0 <= v < w < |s.workers| && Busy(s.workers[v]) && Busy(s.workers[w]) ==>
          s.workers[v].session != s.workers[w].session)
  }

  ghost predicate HasHolder(workers: seq<Worker>, id: string, t: nat) {
    exists w :: 0 <= w < |workers| && Holds(workers[w], id, t)
  }

  /** A lane marked running is in the hands of a worker. */
  ghost predicate RunningHeld(workers: seq<Worker>, lanes: map<string, Lane>) {
    forall id :: id in lanes && lanes[id].running.Some? ==> HasHolder(workers, id, lanes[id].running.value)
  }

  ghost predicate Live(lanes: map<string, Lane>, id: string, t: nat) {
    id in lanes && (t in lanes[id].queue || lanes[id].running == Some(t))
  }

  /** An unsettled turn is still queued in its lane, or the lane is running it. */
  ghost predicate TurnsOk(turns: seq<Turn>, lanes: map<string, Lane>) {
    forall t :: 0 <= t < |turns| ==>
      |turns[t].settled| <= 1 && (turns[t].settled == [] ==> Live(lanes, turns[t].session, t))
  }

  /** Within a session, turns start in acceptance order. */
  ghost predicate StartOrder(turns: seq<Turn>, started: seq<nat>) {
    && (forall i :: 0 <= i < |started| ==> started[i] < |turns|)
    && (forall i, j :: 0 <= i < j < |started| ==> InOrder(turns, turns[started[j]].session, started[i], started[j]))
  }

  ghost predicate StoppedClean(s: State) {
    s.stopping ==> forall id :: id in s.lanes ==> s.lanes[id].queue == []
  }

  ghost predicate Inv(c: Config, s: State) {
    && ValidConfig(c)
    && ReadyOk(s.ready, s.lanes)
    && LanesOk(c, s.lanes)
    && TotalOk(c, s.lanes, s.pendingTotal)
    && QueuesOk(s.turns, s.started, s.lanes)
    && WorkersOk(s)
    && RunningHeld(s.workers, s.lanes)
    && TurnsOk(s.turns, s.lanes)
    && StartOrder(s.turns, s.started)
    && StoppedClean(s)
    && !s.faulted
  }

  lemma InitInv(c: Config, n: nat)
    requires ValidConfig(c)
    ensures Inv(c, Init(n))
  {
  }

  // ------------------------------------------ what most transitions keep, component by component

  lemma TotalUpdate(c: Config, lanes: map<string, Lane>, total: int, id: string, lane: Lane)
    requires TotalOk(c, lanes, total)
    requires total - (if id in lanes then |lanes[id].queue| else 0) + |lane.queue| <= c.maxTotal
    ensures TotalOk(c, lanes[id := lane], total - (if id in lanes then |lanes[id].queue| else 0) + |lane.queue|)
  {
    assert QueueLengths(lanes[id := lane]) == QueueLengths(lanes)[id := |lane.queue|];
    MapSumUpdate(QueueLengths(lanes), id, |lane.queue|);
  }

  lemma TotalRemove(c: Config, lanes: map<string, Lane>, total: int, id: string)
    requires TotalOk(c, lanes, total) && id in lanes && lanes[id].queue == []
    ensures TotalOk(c, lanes - {id}, total)
  {
    assert QueueLengths(lanes - {id}) == QueueLengths(lanes) - {id};
    MapSumTake(QueueLengths(lanes), id);
  }

  lemma ReadyKept(ready: seq<string>, lanes: map<string, Lane>, lanes': map<string, Lane>)
    requires ReadyOk(ready, lanes) && lanes'.Keys == lanes.Keys
    requires forall id :: id in lanes ==> lanes'[id].scheduled == lanes[id].scheduled
    ensures ReadyOk(ready, lanes')
  {
  }

  /** Settling or flagging turns moves none of them to another session. */
  ghost predicate SameSessions(turns: seq<Turn>, turns': seq<Turn>) {
    |turns'| == |turns| && forall t :: 0 <= t < |turns| ==> turns'[t].session == turns[t].session
  }

  lemma StartOrderKept(turns: seq<Turn>, turns': seq<Turn>, started: seq<nat>)
    requires StartOrder(turns, started) && SameSessions(turns, turns')
    ensures StartOrder(turns', started)
  {
    forall i, j | 0 <= i < j < |started|
      ensures InOrder(turns', turns'[started[j]].session, started[i], started[j])
    {
      assert InOrder(turns, turns[started[j]].session, started[i], started[j]);
    }
  }

  lemma QueueKept(turns: seq<Turn>, turns': seq<Turn>, started: seq<nat>, id: string, queue: seq<nat>)
    requires QueueOk(turns, started, id, queue) && SameSessions(turns, turns')
    requires forall k :: 0 <= k < |queue| && queue[k] < |turns| ==> turns'[queue[k]].settled == turns[queue[k]].settled
    ensures QueueOk(turns', started, id, queue)
  {
    forall k | 0 <= k < |queue| ensures Waits(turns', id, queue[k]) {
      assert Waits(turns, id, queue[k]);
    }
    forall i, k | 0 <= i < |started| && 0 <= k < |queue| ensures InOrder(turns', id, started[i], queue[k]) {
      assert InOrder(turns, id, started[i], queue[k]);
    }
  }

  lemma WorkersKept(s: State, s': State)
    requires WorkersOk(s) && s'.workers == s.workers && (s.stopping ==> s'.stopping) && s.started <= s'.started
    requires |s.turns| <= |s'.turns|
    requires forall w :: 0 <= w < |s.workers| && Busy(s.workers[w]) ==> WorkerUntouched(s, s', s.workers[w])
    ensures WorkersOk(s')
  {
    forall w | 0 <= w < |s.workers| ensures WorkerOk(s', s'.workers[w]) {
      assert WorkerOk(s, s.workers[w]);
    }
  }

  /** The lane a worker holds keeps running its turn, and the turn is not settled behind its back. */
  ghost predicate WorkerUntouched(s: State, s': State, w: Worker)
    requires Busy(w)
  {
    && (w.session in s.lanes ==> w.session in s'.lanes && s'.lanes[w.session].running == s.lanes[w.session].running)
    && (w.turn < |s.turns| <= |s'.turns| ==>
          s'.turns[w.turn].session == s.turns[w.turn].session && s'.turns[w.turn].settled == s.turns[w.turn].settled)
  }

  lemma HoldersKept(workers: seq<Worker>, lanes: map<string, Lane>, lanes': map<string, Lane>)
    requires RunningHeld(workers, lanes)
    requires forall id :: id in lanes' && lanes'[id].running.Some? ==> id in lanes && lanes[id].running == lanes'[id].running
    ensures RunningHeld(workers, lanes')
  {
  }

  /** Handing worker `w` another occupation keeps every other worker's grip. */
  lemma HoldersMove(workers: seq<Worker>, w: nat, now: Worker, lanes: map<string, Lane>, lanes': map<string, Lane>)
    requires RunningHeld(workers, lanes) && w < |workers|
    requires forall id :: id in lanes' && lanes'[id].running.Some? ==>
      (id in lanes && lanes[id].running == lanes'[id].running && !Holds(workers[w], id, lanes[id].running.value))
      || Holds(now, id, lanes'[id].running.value)
    ensures RunningHeld(workers[w := now], lanes')
  {
    forall id | id in lanes' && lanes'[id].running.Some? ensures HasHolder(workers[w := now], id, lanes'[id].running.value) {
      if Holds(now, id, lanes'[id].running.value) {
        assert Holds(workers[w := now][w], id, lanes'[id].running.value);
      } else {
        var v :| 0 <= v < |workers| && Holds(workers[v], id, lanes[id].running.value);
        assert Holds(workers[w := now][v], id, lanes'[id].running.value);
      }
    }
  }

  lemma TurnsKept(turns: seq<Turn>, turns': seq<Turn>, lanes: map<string, Lane>, lanes': map<string, Lane>)
    requires TurnsOk(turns, lanes) && SameSessions(turns, turns')
    requires forall t :: 0 <= t < |turns| ==> |turns'[t].settled| <= 1
    requires forall t :: 0 <= t < |turns| && turns'[t].settled == [] ==>
               turns[t].settled == [] && (Live(lanes, turns[t].session, t) ==> Live(lanes', turns[t].session, t))
    ensures TurnsOk(turns', lanes')
  {
  }

  /** A turn that started has left every queue. */
  lemma StartedLeftQueue(turns: seq<Turn>, started: seq<nat>, id: string, queue: seq<nat>, t: nat)
    requires QueueOk(turns, started, id, queue) && t in started
    ensures t !in queue
  {
    var i :| 0 <= i < |started| && started[i] == t;
    forall k | 0 <= k < |queue| ensures queue[k] != t {
      assert Waits(turns, id, queue[k]) && InOrder(turns, id, started[i], queue[k]);
    }
  }

  // ------------------------------------------ preservation, step by step

  lemma SubmitInv(c: Config, s: State, session: string, turnId: string, positiveTimeout: bool)
    requires Inv(c, s)
    ensures Inv(c, Submit(c, s, session, turnId, positiveTimeout).0)
  {
    if Submit(c, s, session, turnId, positiveTimeout).1.Accepted? {
      SubmitLanes(c, s, session, turnId);
      SubmitTurns(c, s, session, turnId);
      SubmitWorkers(c, s, session, turnId);
    } else {
      WorkersKept(s, Submit(c, s, session, turnId, positiveTimeout).0);
    }
  }

  lemma SubmitWorkers(c: Config, s: State, session: string, turnId: string)
    requires WorkersOk(s) && RunningHeld(s.workers, s.lanes) && Submit(c, s, session, turnId, true).1.Accepted?
    ensures var s' := Submit(c, s, session, turnId, true).0; WorkersOk(s') && RunningHeld(s'.workers, s'.lanes)
  {
    var s' := Submit(c, s, session, turnId, true).0;
    WorkersKept(s, s');
    HoldersKept(s.workers, s.lanes, s'.lanes);
  }

  lemma SubmitLanes(c: Config, s: State, session: string, turnId: string)
    requires Inv(c, s) && Submit(c, s, session, turnId, true).1.Accepted?
    ensures var s' := Submit(c, s, session, turnId, true).0;
            ReadyOk(s'.ready, s'.lanes) && LanesOk(c, s'.lanes) && TotalOk(c, s'.lanes, s'.pendingTotal)
  {
    var s' := Submit(c, s, session, turnId, true).0;
    var queue := LaneOf(s, session).queue;
    TotalUpdate(c, s.lanes, s.pendingTotal, session, s'.lanes[session]);
    assert LaneOk(c, LaneOf(s, session));
    assert QueueOk(s.turns, s.started, session, queue);
    forall k | 0 <= k < |queue| ensures queue[k] < |s.turns| {
      assert Waits(s.turns, session, queue[k]);
    }
    assert LaneOk(c, s'.lanes[session]);
  }

  lemma SubmitTurns(c: Config, s: State, session: string, turnId: string)
    requires TurnsOk(s.turns, s.lanes) && QueuesOk(s.turns, s.started, s.lanes) && StartOrder(s.turns, s.started)
    requires Submit(c, s, session, turnId, true).1.Accepted?
    ensures var s' := Submit(c, s, session, turnId, true).0;
            TurnsOk(s'.turns, s'.lanes) && QueuesOk(s'.turns, s'.started, s'.lanes) && StartOrder(s'.turns, s'.started)
  {
    var s' := Submit(c, s, session, turnId, true).0;
    forall t | 0 <= t < |s'.turns| ensures |s'.turns[t].settled| <= 1 && (s'.turns[t].settled == [] ==> Live(s'.lanes, s'.turns[t].session, t)) {
      if t < |s.turns| {
        assert s.turns[t].settled == [] ==> Live(s.lanes, s.turns[t].session, t);
      }
    }
    forall i, j | 0 <= i < j < |s.started| ensures InOrder(s'.turns, s'.turns[s.started[j]].session, s.started[i], s.started[j]) {
      assert InOrder(s.turns, s.turns[s.started[j]].session, s.started[i], s.started[j]);
    }
    forall id | id in s'.lanes ensures QueueOk(s'.turns, s.started, id, s'.lanes[id].queue) {
      var queue := LaneOf(s, id).queue;
      assert QueueOk(s.turns, s.started, id, queue);
      forall k | 0 <= k < |queue| ensures Waits(s'.turns, id, queue[k]) {
        assert Waits(s.turns, id, queue[k]);
      }
      forall i, k | 0 <= i < |s.started| && 0 <= k < |queue| ensures InOrder(s'.turns, id, s.started[i], queue[k]) {
        assert InOrder(s.turns, id, s.started[i], queue[k]);
      }
    }
  }

  /** What draining some lanes keeps; only the total and `stopping` are left to its two callers. */
  lemma DrainKeeps(c: Config, s: State, s': State, ids: set<string>, how: Settlement)
    requires Inv(c, s)
    requires s' == Drain(s, ids, how).(pendingTotal := s'.pendingTotal, stopping := s'.stopping)
    requires s.stopping ==> s'.stopping
    ensures ReadyOk(s'.ready, s'.lanes) && LanesOk(c, s'.lanes) && WorkersOk(s') && RunningHeld(s'.workers, s'.lanes)
    ensures QueuesOk(s'.turns, s'.started, s'.lanes) && TurnsOk(s'.turns, s'.lanes) && StartOrder(s'.turns, s'.started)
  {
    forall id | id in s.lanes ensures LaneOk(c, s'.lanes[id]) {
      assert LaneOk(c, s.lanes[id]);
    }
    ReadyKept(s.ready, s.lanes, s'.lanes);
    HoldersKept(s.workers, s.lanes, s'.lanes);
    StartOrderKept(s.turns, s'.turns, s.started);
    DrainWorkers(s, s', ids, how);
    DrainTurns(s, ids, how);
  }

  lemma DrainWorkers(s: State, s': State, ids: set<string>, how: Settlement)
    requires WorkersOk(s) && QueuesOk(s.turns, s.started, s.lanes)
    requires s' == Drain(s, ids, how).(pendingTotal := s'.pendingTotal, stopping := s'.stopping)
    requires s.stopping ==> s'.stopping
    ensures WorkersOk(s')
  {
    forall w | 0 <= w < |s.workers| && Busy(s.workers[w]) ensures WorkerUntouched(s, s', s.workers[w]) {
      assert WorkerOk(s, s.workers[w]);
      forall id | id in s.lanes && id in ids ensures s.workers[w].turn !in s.lanes[id].queue {
        StartedLeftQueue(s.turns, s.started, id, s.lanes[id].queue, s.workers[w].turn);
      }
    }
    WorkersKept(s, s');
  }

  lemma DrainTurns(s: State, ids: set<string>, how: Settlement)
    requires QueuesOk(s.turns, s.started, s.lanes) && TurnsOk(s.turns, s.lanes)
    ensures QueuesOk(Drain(s, ids, how).turns, s.started, Drain(s, ids, how).lanes)
    ensures TurnsOk(Drain(s, ids, how).turns, Drain(s, ids, how).lanes)
  {
    var s' := Drain(s, ids, how);
    forall id, t | id in s.lanes && t in s.lanes[id].queue ensures Waits(s.turns, id, t) {
      assert QueueOk(s.turns, s.started, id, s.lanes[id].queue);
    }
    forall id | id in s'.lanes ensures QueueOk(s'.turns, s.started, id, s'.lanes[id].queue) {
      if id !in ids {
        assert QueueOk(s.turns, s.started, id, s.lanes[id].queue);
        QueueKept(s.turns, s'.turns, s.started, id, s.lanes[id].queue);
      }
    }
    TurnsKept(s.turns, s'.turns, s.lanes, s'.lanes);
  }

  lemma CancelTotal(c: Config, s: State, session: string)
    requires TotalOk(c, s.lanes, s.pendingTotal) && StoppedClean(s) && session in s.lanes
    ensures TotalOk(c, Cancel(s, session).lanes, Cancel(s, session).pendingTotal) && StoppedClean(Cancel(s, session))
  {
    TotalUpdate(c, s.lanes, s.pendingTotal, session, s.lanes[session].(queue := []));
    assert Cancel(s, session).lanes == s.lanes[session := s.lanes[session].(queue := [])];
  }

  lemma CancelInv(c: Config, s: State, session: string)
    requires Inv(c, s)
    ensures Inv(c, Cancel(s, session))
  {
    if session in s.lanes {
      DrainKeeps(c, s, Cancel(s, session), {session}, CancelledWhileQueued);
      CancelTotal(c, s, session);
    }
  }

  lemma ShutdownInv(c: Config, s: State)
    requires Inv(c, s)
    ensures Inv(c, Shutdown(s))
  {
    if !s.stopping {
      DrainKeeps(c, s, Shutdown(s), s.lanes.Keys, StoppedWhileQueued);
      MapSumZero(QueueLengths(Shutdown(s).lanes));
    }
  }

  lemma TakeInv(c: Config, s: State, w: nat)
    requires Inv(c, s) && Enabled(s, DoTake(w))
    ensures Inv(c, Take(s, w))
  {
    TakeReady(s, w);
    TakeLanes(c, s, w);
    if s.lanes[s.ready[0]].queue == [] {
      TakeNothing(s, w);
    } else {
      TakeWorkers(s, w);
      TakeTurns(s, w);
    }
  }

  lemma TakeLanes(c: Config, s: State, w: nat)
    requires LanesOk(c, s.lanes) && TotalOk(c, s.lanes, s.pendingTotal) && StoppedClean(s)
    requires Enabled(s, DoTake(w)) && s.ready[0] in s.lanes && s.lanes[s.ready[0]].scheduled
    ensures LanesOk(c, Take(s, w).lanes) && TotalOk(c, Take(s, w).lanes, Take(s, w).pendingTotal) && StoppedClean(Take(s, w))
    ensures s.lanes[s.ready[0]].running.None? && Increasing(s.lanes[s.ready[0]].queue)
  {
    var session := s.ready[0];
    assert LaneOk(c, s.lanes[session]) && LaneOk(c, Take(s, w).lanes[session]);
    TotalUpdate(c, s.lanes, s.pendingTotal, session, Take(s, w).lanes[session]);
  }

  /** A session cancelled while scheduled is popped with an empty queue. */
  lemma TakeNothing(s: State, w: nat)
    requires WorkersOk(s) && RunningHeld(s.workers, s.lanes)
    requires TurnsOk(s.turns, s.lanes) && QueuesOk(s.turns, s.started, s.lanes)
    requires Enabled(s, DoTake(w)) && s.ready[0] in s.lanes && s.lanes[s.ready[0]].queue == []
    ensures var s' := Take(s, w);
            && WorkersOk(s') && RunningHeld(s'.workers, s'.lanes)
            && TurnsOk(s'.turns, s'.lanes) && QueuesOk(s'.turns, s'.started, s'.lanes)
  {
    var s' := Take(s, w);
    WorkersKept(s, s');
    HoldersKept(s.workers, s.lanes, s'.lanes);
    TurnsKept(s.turns, s.turns, s.lanes, s'.lanes);
  }

  lemma TakeReady(s: State, w: nat)
    requires ReadyOk(s.ready, s.lanes) && w < |s.workers| && s.ready != []
    ensures s.ready[0] in s.lanes && s.lanes[s.ready[0]].scheduled
    ensures ReadyOk(Take(s, w).ready, Take(s, w).lanes)
  {
    assert s.ready == [s.ready[0]] + s.ready[1..];
  }

  ghost predicate TakesTurn(s: State, w: nat) {
    && w < |s.workers| && s.workers[w].Idle? && s.ready != [] && s.ready[0] in s.lanes
    && s.lanes[s.ready[0]].queue != [] && s.lanes[s.ready[0]].running.None?
  }

  /** The head of the lane goes to worker `w`. */
  lemma TakeWorkers(s: State, w: nat)
    requires WorkersOk(s) && RunningHeld(s.workers, s.lanes) && QueuesOk(s.turns, s.started, s.lanes) && TakesTurn(s, w)
    ensures WorkersOk(Take(s, w)) && RunningHeld(Take(s, w).workers, Take(s, w).lanes)
  {
    var s' := Take(s, w);
    var session := s.ready[0];
    var queue := s.lanes[session].queue;
    assert QueueOk(s.turns, s.started, session, queue);
    assert WorkerOk(s', s'.workers[w]) by {
      assert Waits(s.turns, session, queue[0]) && s'.started[|s.started|] == queue[0];
    }
    forall v | 0 <= v < |s.workers| && v != w ensures WorkerOk(s', s'.workers[v]) && (Busy(s.workers[v]) ==> s.workers[v].session != session) {
      assert WorkerOk(s, s.workers[v]);
    }
    HoldersMove(s.workers, w, s'.workers[w], s.lanes, s'.lanes);
  }

  lemma TakeTurns(s: State, w: nat)
    requires TurnsOk(s.turns, s.lanes) && QueuesOk(s.turns, s.started, s.lanes) && StartOrder(s.turns, s.started)
    requires TakesTurn(s, w) && Increasing(s.lanes[s.ready[0]].queue)
    ensures var s' := Take(s, w);
            TurnsOk(s'.turns, s'.lanes) && QueuesOk(s'.turns, s'.started, s'.lanes) && StartOrder(s'.turns, s'.started)
  {
    var s' := Take(s, w);
    var session := s.ready[0];
    var queue := s.lanes[session].queue;
    assert queue == [queue[0]] + queue[1..];
    assert QueueOk(s.turns, s.started, session, queue) && Waits(s.turns, session, queue[0]);
    TurnsKept(s.turns, s.turns, s.lanes, s'.lanes);
    forall i | 0 <= i < |s.started| ensures InOrder(s.turns, session, s.started[i], queue[0]) {}
    forall id | id in s'.lanes ensures QueueOk(s.turns, s'.started, id, s'.lanes[id].queue) {
      var rest := s'.lanes[id].queue;
      assert QueueOk(s.turns, s.started, id, s.lanes[id].queue);
      forall k | 0 <= k < |rest| ensures Waits(s.turns, id, rest[k]) && forall i :: 0 <= i < |s'.started| ==> InOrder(s.turns, id, s'.started[i], rest[k]) {
        var k' := if id == session then k + 1 else k;
        assert rest[k] == s.lanes[id].queue[k'];
        assert Waits(s.turns, id, s.lanes[id].queue[k']);
        forall i | 0 <= i < |s'.started| ensures InOrder(s.turns, id, s'.started[i], rest[k]) {
          if i < |s.started| { assert InOrder(s.turns, id, s.started[i], s.lanes[id].queue[k']); }
        }
      }
    }
  }

  lemma ExpireInv(c: Config, s: State, w: nat)
    requires Inv(c, s) && Enabled(s, DoExpire(w))
    ensures Inv(c, Expire(s, w))
  {
    var s' := Expire(s, w);
    WorkersKept(s, s');
    StartOrderKept(s.turns, s'.turns, s.started);
    TurnsKept(s.turns, s'.turns, s.lanes, s.lanes);
    forall id | id in s.lanes ensures QueueOk(s'.turns, s.started, id, s.lanes[id].queue) {
      QueueKept(s.turns, s'.turns, s.started, id, s.lanes[id].queue);
    }
  }

  lemma SettleInv(c: Config, s: State, w: nat, returned: bool)
    requires Inv(c, s) && Enabled(s, DoSettle(w, returned))
    ensures Inv(c, Settle(s, w, returned))
  {
    var s' := Settle(s, w, returned);
    assert WorkerOk(s, s.workers[w]);
    StartOrderKept(s.turns, s'.turns, s.started);
    SettleWorkers(s, w, returned);
    TurnsKept(s.turns, s'.turns, s.lanes, s.lanes);
    forall id | id in s.lanes ensures QueueOk(s'.turns, s.started, id, s.lanes[id].queue) {
      StartedLeftQueue(s.turns, s.started, id, s.lanes[id].queue, s.workers[w].turn);
      QueueKept(s.turns, s'.turns, s.started, id, s.lanes[id].queue);
    }
  }

  lemma SettleWorkers(s: State, w: nat, returned: bool)
    requires WorkersOk(s) && RunningHeld(s.workers, s.lanes) && Enabled(s, DoSettle(w, returned))
    ensures WorkersOk(Settle(s, w, returned)) && RunningHeld(Settle(s, w, returned).workers, s.lanes)
  {
    var s' := Settle(s, w, returned);
    assert WorkerOk(s, s.workers[w]);
    forall v | 0 <= v < |s.workers| ensures WorkerOk(s', s'.workers[v]) {
      assert WorkerOk(s, s.workers[v]);
    }
    HoldersMove(s.workers, w, s'.workers[w], s.lanes, s.lanes);
  }

  lemma ReportInv(c: Config, s: State, w: nat)
    requires Inv(c, s) && Enabled(s, DoReport(w))
    ensures Inv(c, Report(s, w))
  {
    assert WorkerOk(s, s.workers[w]);
    ReportLanes(c, s, w);
    ReportReady(s, w);
    ReportWorkers(s, w);
    ReportTurns(s, w);
  }

  lemma ReportLanes(c: Config, s: State, w: nat)
    requires LanesOk(c, s.lanes) && TotalOk(c, s.lanes, s.pendingTotal) && StoppedClean(s)
    requires Enabled(s, DoReport(w)) && WorkerOk(s, s.workers[w])
    ensures LanesOk(c, Report(s, w).lanes) && TotalOk(c, Report(s, w).lanes, Report(s, w).pendingTotal)
    ensures StoppedClean(Report(s, w)) && !s.lanes[s.workers[w].session].scheduled
  {
    var s' := Report(s, w);
    var session := s.workers[w].session;
    assert LaneOk(c, s.lanes[session]);
    if session in s'.lanes {
      TotalUpdate(c, s.lanes, s.pendingTotal, session, s'.lanes[session]);
    } else {
      TotalRemove(c, s.lanes, s.pendingTotal, session);
    }
  }

  lemma ReportTurns(s: State, w: nat)
    requires TurnsOk(s.turns, s.lanes) && QueuesOk(s.turns, s.started, s.lanes)
    requires Enabled(s, DoReport(w)) && WorkerOk(s, s.workers[w])
    ensures TurnsOk(s.turns, Report(s, w).lanes) && QueuesOk(s.turns, s.started, Report(s, w).lanes)
  {
    TurnsKept(s.turns, s.turns, s.lanes, Report(s, w).lanes);
  }

  lemma ReportReady(s: State, w: nat)
    requires ReadyOk(s.ready, s.lanes) && Enabled(s, DoReport(w))
    requires s.workers[w].session in s.lanes && !s.lanes[s.workers[w].session].scheduled
    ensures ReadyOk(Report(s, w).ready, Report(s, w).lanes)
  {
    assert s.workers[w].session !in s.ready;
  }

  lemma ReportWorkers(s: State, w: nat)
    requires WorkersOk(s) && RunningHeld(s.workers, s.lanes) && Enabled(s, DoReport(w))
    ensures WorkersOk(Report(s, w)) && RunningHeld(Report(s, w).workers, Report(s, w).lanes)
  {
    assert WorkerOk(s, s.workers[w]);
    ReportOthers(s, w);
    HoldersMove(s.workers, w, Idle, s.lanes, Report(s, w).lanes);
  }

  /** Only the reporting worker's own lane changes hands. */
  lemma ReportOthers(s: State, w: nat)
    requires WorkersOk(s) && Enabled(s, DoReport(w)) && WorkerOk(s, s.workers[w])
    ensures WorkersOk(Report(s, w))
  {
    var s' := Report(s, w);
    var session := s.workers[w].session;
    forall v | 0 <= v < |s.workers| && v != w ensures WorkerOk(s', s.workers[v]) {
      assert WorkerOk(s, s.workers[v]);
      assert Busy(s.workers[v]) ==> s.workers[v].session != session;
    }
  }

  lemma ExitInv(c: Config, s: State, w: nat)
    requires Inv(c, s) && Enabled(s, DoExit(w))
    ensures Inv(c, Exit(s, w))
  {
    var s' := Exit(s, w);
    forall v | 0 <= v < |s.workers| ensures WorkerOk(s', s'.workers[v]) {
      assert WorkerOk(s, s.workers[v]);
    }
    HoldersMove(s.workers, w, Exited, s.lanes, s.lanes);
  }

  lemma NextInv(c: Config, s: State, a: Action)
    requires Inv(c, s) && Enabled(s, a)
    ensures Inv(c, Next(c, s, a))
  {
    match a
    case DoSubmit(session, turnId, positiveTimeout) => SubmitInv(c, s, session, turnId, positiveTimeout);
    case DoCancel(session) => CancelInv(c, s, session);
    case DoShutdown => ShutdownInv(c, s);
    case DoTake(w) => TakeInv(c, s, w);
    case DoExpire(w) => ExpireInv(c, s, w);
    case DoSettle(w, returned) => SettleInv(c, s, w, returned);
    case DoReport(w) => ReportInv(c, s, w);
    case DoExit(w) => ExitInv(c, s, w);
  }

  // ---------------------------------------------------------------- whole runs

  ghost predicate StepAt(c: Config, run: seq<State>, i: nat)
    requires i + 1 < |run|
  {
    exists a :: Enabled(run[i], a) && run[i + 1] == Next(c, run[i], a)
  }

  /** Every interleaving of callers and workers, from the freshly built executor. */
  ghost predicate IsRun(c: Config, workerCount: nat, run: seq<State>) {
    && ValidConfig(c)
    && |run| > 0 && run[0] == Init(workerCount)
    && forall i :: 0 <= i < |run| - 1 ==> StepAt(c, run, i)
  }

  lemma StepKeeps(c: Config, n: nat, run: seq<State>, i: nat)
    requires IsRun(c, n, run) && 0 < i < |run| && Inv(c, run[i - 1])
    ensures Inv(c, run[i])
  {
    assert StepAt(c, run, i - 1);
    var a :| Enabled(run[i - 1], a) && run[i] == Next(c, run[i - 1], a);
    NextInv(c, run[i - 1], a);
  }

  lemma {:induction false} RunsKeepSchedulingInvariant(c: Config, n: nat, run: seq<State>, i: nat)
    requires IsRun(c, n, run) && i < |run|
    ensures Inv(c, run[i])
  {
    if i == 0 {
      InitInv(c, n);
    } else {
      RunsKeepSchedulingInvariant(c, n, run, i - 1);
      StepKeeps(c, n, run, i);
    }
  }

  /** At most one worker is ever inside a session. */
  lemma SessionsNeverOverlap(c: Config, n: nat, run: seq<State>, i: nat, v: nat, w: nat)
    requires IsRun(c, n, run) && i < |run|
    requires v < |run[i].workers| && w < |run[i].workers|
    requires Busy(run[i].workers[v]) && Busy(run[i].workers[w])
    requires run[i].workers[v].session == run[i].workers[w].session
    ensures v == w
  {
    RunsKeepSchedulingInvariant(c, n, run, i);
    assert WorkersOk(run[i]);
  }

  /** Promises are never overwritten: what a turn was settled with stays. */
  lemma StepKeepsSettlements(c: Config, s: State, a: Action, t: nat)
    requires Enabled(s, a) && t < |s.turns|
    ensures t < |Next(c, s, a).turns| && s.turns[t].settled <= Next(c, s, a).turns[t].settled
    ensures s.started <= Next(c, s, a).started
  {
  }

  lemma RunStepKeepsSettlements(c: Config, n: nat, run: seq<State>, i: nat, t: nat)
    requires IsRun(c, n, run) && i + 1 < |run| && t < |run[i].turns|
    ensures t < |run[i + 1].turns| && run[i].turns[t].settled <= run[i + 1].turns[t].settled
    ensures run[i].started <= run[i + 1].started
  {
    assert StepAt(c, run, i);
    var a :| Enabled(run[i], a) && run[i + 1] == Next(c, run[i], a);
    StepKeepsSettlements(c, run[i], a, t);
  }

  lemma SettlementsBounded(c: Config, n: nat, run: seq<State>, i: nat, t: nat)
    requires IsRun(c, n, run) && i < |run| && t < |run[i].turns|
    ensures |run[i].turns[t].settled| <= 1
  {
    RunsKeepSchedulingInvariant(c, n, run, i);
  }

  /** Over any stretch of a run, a turn keeps what it was settled with, and never gets a second settlement. */
  lemma {:induction false} SettledAtMostOnce(c: Config, n: nat, run: seq<State>, i: nat, j: nat, t: nat)
    requires IsRun(c, n, run) && i <= j < |run| && t < |run[i].turns|
    ensures t < |run[j].turns| && run[i].turns[t].settled <= run[j].turns[t].settled
    ensures |run[j].turns[t].settled| <= 1
    ensures run[i].started <= run[j].started
    decreases j
  {
    if i < j {
      SettledAtMostOnce(c, n, run, i, j - 1, t);
      RunStepKeepsSettlements(c, n, run, j - 1, t);
    }
    SettlementsBounded(c, n, run, j, t);
  }

  /** Once shutdown has joined every worker, each accepted turn was settled exactly once. */
  lemma JoinedMeansSettledOnce(c: Config, n: nat, run: seq<State>, i: nat)
    requires IsRun(c, n, run) && i < |run|
    requires run[i].stopping && forall w :: 0 <= w < |run[i].workers| ==> run[i].workers[w].Exited?
    ensures forall t :: 0 <= t < |run[i].turns| ==> |run[i].turns[t].settled| == 1
    ensures run[i].pendingTotal == 0
  {
    var s := run[i];
    RunsKeepSchedulingInvariant(c, n, run, i);
    MapSumZero(QueueLengths(s.lanes));
    forall t: nat | t < |s.turns| ensures |s.turns[t].settled| == 1 {
      var session := s.turns[t].session;
      assert s.turns[t].settled == [] ==> Live(s.lanes, session, t);
    }
  }

  /** No worker can take a step of its own. */
  ghost predicate AtRest(s: State) {
    forall a :: WorkerAction(a) ==> !Enabled(s, a)
  }

  /** What rest means for the workers: each waits for work, or has exited after shutdown. */
  lemma RestingWorkers(c: Config, s: State, w: nat)
    requires Inv(c, s) && AtRest(s) && w < |s.workers|
    ensures if s.stopping then s.workers[w].Exited? else s.workers[w].Idle? && s.ready == []
  {
    assert WorkerOk(s, s.workers[w]);
    assert !Enabled(s, DoTake(w)) && !Enabled(s, DoSettle(w, true)) && !Enabled(s, DoReport(w)) && !Enabled(s, DoExit(w));
  }

  /** Nothing is left over when the workers rest: every accepted turn has exactly one settlement, and
      if the executor was stopped every worker has exited. */
  lemma RestMeansSettled(c: Config, s: State)
    requires Inv(c, s) && AtRest(s) && |s.workers| > 0
    ensures forall t :: 0 <= t < |s.turns| ==> |s.turns[t].settled| == 1
    ensures s.stopping ==> forall w :: 0 <= w < |s.workers| ==> s.workers[w].Exited?
  {
    RestingWorkers(c, s, 0);
    forall w: nat | w < |s.workers| ensures !Busy(s.workers[w]) && (s.stopping ==> s.workers[w].Exited?) {
      RestingWorkers(c, s, w);
    }
    forall t: nat | t < |s.turns| ensures |s.turns[t].settled| == 1 {
      if s.turns[t].settled == [] { NobodyLives(c, s, s.turns[t].session, t); }
    }
  }

  lemma NobodyLives(c: Config, s: State, session: string, t: nat)
    requires ReadyOk(s.ready, s.lanes) && LanesOk(c, s.lanes) && RunningHeld(s.workers, s.lanes)
    requires StoppedClean(s) && (s.stopping || s.ready == [])
    requires forall w :: 0 <= w < |s.workers| ==> !Busy(s.workers[w])
    ensures !Live(s.lanes, session, t)
  {
  }

  /** The wait of shutdown: once the workers rest they can be joined, and nothing is left over. */
  lemma ShutdownLeavesNothing(c: Config, n: nat, run: seq<State>, i: nat)
    requires IsRun(c, n, run) && i < |run| && |run[i].workers| > 0 && run[i].stopping && AtRest(run[i])
    ensures forall w :: 0 <= w < |run[i].workers| ==> run[i].workers[w].Exited?
    ensures (forall t :: 0 <= t < |run[i].turns| ==> |run[i].turns[t].settled| == 1) && run[i].pendingTotal == 0
  {
    RunsKeepSchedulingInvariant(c, n, run, i);
    RestMeansSettled(c, run[i]);
    JoinedMeansSettledOnce(c, n, run, i);
  }

  /** Within a session turns start in the order in which they were accepted, none twice. */
  lemma StartsFollowAcceptance(c: Config, n: nat, run: seq<State>, i: nat, a: nat, b: nat)
    requires IsRun(c, n, run) && i < |run| && a < b < |run[i].started|
    ensures run[i].started[a] < |run[i].turns| && run[i].started[b] < |run[i].turns|
    ensures run[i].turns[run[i].started[a]].session == run[i].turns[run[i].started[b]].session
            ==> run[i].started[a] < run[i].started[b]
  {
    RunsKeepSchedulingInvariant(c, n, run, i);
  }

  // ---------------------------------------------------------------- who is told to stop

  /** A turn that a lane holds belongs to that lane's session, and if it is queued it is unsettled. */
  lemma HeldAtHome(s: State, id: string, t: nat)
    requires QueuesOk(s.turns, s.started, s.lanes) && WorkersOk(s) && RunningHeld(s.workers, s.lanes) && Live(s.lanes, id, t)
    ensures t < |s.turns| && s.turns[t].session == id && (t in s.lanes[id].queue ==> s.turns[t].settled == [])
  {
    if t in s.lanes[id].queue {
      assert QueueOk(s.turns, s.started, id, s.lanes[id].queue);
      var k :| 0 <= k < |s.lanes[id].queue| && s.lanes[id].queue[k] == t;
      assert Waits(s.turns, id, s.lanes[id].queue[k]);
    }
    if s.lanes[id].running == Some(t) {
      var w :| 0 <= w < |s.workers| && Holds(s.workers[w], id, t);
      assert WorkerOk(s, s.workers[w]);
    }
  }

  /** What draining some sessions does to one turn. */
  lemma DrainedTurn(c: Config, s: State, ids: set<string>, how: Settlement, t: nat)
    requires Inv(c, s) && t < |s.turns|
    ensures var x, y := s.turns[t], Drain(s, ids, how).turns[t];
            && y.session == x.session
            && (x.session !in ids ==> y == x)
            && (x.session in ids && y.settled == [] ==> y.cancelled)
            && (y.settled != x.settled ==> x.session in ids && y.cancelled && y.settled == [how])
            && (x.session in ids && x.settled == [] && !(x.session in s.lanes && s.lanes[x.session].running == Some(t)) ==>
                  y.settled == [how])
  {
    forall id | Live(s.lanes, id, t) ensures s.turns[t].session == id && (t in s.lanes[id].queue ==> s.turns[t].settled == []) {
      HeldAtHome(s, id, t);
    }
    assert s.turns[t].settled == [] ==> Live(s.lanes, s.turns[t].session, t);
  }

  /** Cancelling a session reaches every turn of it that is not over: each that is still unsettled
      afterwards is told to stop, each that the call settles is told so and settled as cancelled, and no
      turn of another session is touched. */
  lemma CancelReachesTurns(c: Config, s: State, session: string, t: nat)
    requires Inv(c, s) && t < |s.turns|
    ensures var s' := Next(c, s, DoCancel(session));
            && |s'.turns| == |s.turns|
            && var x, y := s.turns[t], s'.turns[t];
               && y.session == x.session
               && (x.session != session ==> y == x)
               && (x.session == session && y.settled == [] ==> y.cancelled)
               && (y.settled != x.settled ==> x.session == session && y.cancelled && y.settled == [CancelledWhileQueued])
  {
    DrainedTurn(c, s, {session}, CancelledWhileQueued, t);
    if session !in s.lanes {
      assert s.turns[t].settled == [] ==> Live(s.lanes, s.turns[t].session, t);
    }
  }

  /** Shutting down reaches every turn that is not over, in the same way. */
  lemma ShutdownReachesTurns(c: Config, s: State, t: nat)
    requires Inv(c, s) && !s.stopping && t < |s.turns|
    ensures var s' := Next(c, s, DoShutdown);
            && |s'.turns| == |s.turns|
            && var x, y := s.turns[t], s'.turns[t];
               && (y.settled == [] ==> y.cancelled)
               && (y.settled != x.settled ==> y.cancelled && y.settled == [StoppedWhileQueued])
  {
    DrainedTurn(c, s, s.lanes.Keys, StoppedWhileQueued, t);
    assert s.turns[t].settled == [] ==> Live(s.lanes, s.turns[t].session, t);
  }

  /** A flag that is raised never falls. */
  lemma FlagStays(c: Config, s: State, a: Action, t: nat)
    requires Enabled(s, a) && t < |s.turns|
    ensures t < |Next(c, s, a).turns| && (s.turns[t].cancelled ==> Next(c, s, a).turns[t].cancelled)
  {
  }

  lemma FlagStaysAt(c: Config, n: nat, run: seq<State>, i: nat, t: nat)
    requires IsRun(c, n, run) && 0 < i < |run| && t < |run[i - 1].turns|
    ensures t < |run[i].turns| && (run[i - 1].turns[t].cancelled ==> run[i].turns[t].cancelled)
  {
    assert StepAt(c, run, i - 1);
    var a :| Enabled(run[i - 1], a) && run[i] == Next(c, run[i - 1], a);
    FlagStays(c, run[i - 1], a, t);
  }

  lemma {:induction false} FlagsNeverFall(c: Config, n: nat, run: seq<State>, i: nat, j: nat, t: nat)
    requires IsRun(c, n, run) && i <= j < |run| && t < |run[i].turns|
    ensures t < |run[j].turns| && (run[i].turns[t].cancelled ==> run[j].turns[t].cancelled)
    decreases j
  {
    if i < j {
      FlagsNeverFall(c, n, run, i, j - 1, t);
      FlagStaysAt(c, n, run, j, t);
    }
  }

  ghost predicate AllTold(s: State) {
    s.stopping ==> forall t {:trigger s.turns[t]} :: 0 <= t < |s.turns| && s.turns[t].settled == [] ==> s.turns[t].cancelled
  }

  lemma ToldStep(c: Config, s: State, a: Action)
    requires Inv(c, s) && Enabled(s, a) && AllTold(s)
    ensures AllTold(Next(c, s, a))
  {
    var s' := Next(c, s, a);
    if s'.stopping {
      forall t: nat | t < |s'.turns| && s'.turns[t].settled == [] ensures s'.turns[t].cancelled {
        if s.stopping {
          StoppedKeepsTurns(c, s, a);
          FlagStays(c, s, a, t);
          StepKeepsSettlements(c, s, a, t);
        } else {
          ShutdownReachesTurns(c, s, t);
        }
      }
    }
  }

  lemma StoppedKeepsTurns(c: Config, s: State, a: Action)
    requires Enabled(s, a) && s.stopping
    ensures |Next(c, s, a).turns| == |s.turns|
  {
  }

  lemma ToldStepAt(c: Config, n: nat, run: seq<State>, i: nat)
    requires IsRun(c, n, run) && 0 < i < |run| && AllTold(run[i - 1])
    ensures AllTold(run[i])
  {
    RunsKeepSchedulingInvariant(c, n, run, i - 1);
    assert StepAt(c, run, i - 1);
    var a :| Enabled(run[i - 1], a) && run[i] == Next(c, run[i - 1], a);
    ToldStep(c, run[i - 1], a);
  }

  /** Once the executor is stopping, every turn that is not over has been told to stop. */
  lemma {:induction false} StoppingTellsAll(c: Config, n: nat, run: seq<State>, i: nat, t: nat)
    requires IsRun(c, n, run) && i < |run|
    ensures AllTold(run[i])
    ensures run[i].stopping && t < |run[i].turns| && run[i].turns[t].settled == [] ==> run[i].turns[t].cancelled
  {
    if i > 0 {
      StoppingTellsAll(c, n, run, i - 1, t);
      ToldStepAt(c, n, run, i);
    }
  }

  // ---------------------------------------------------------------- progress

  function Weight(w: Worker): nat {
    match w
    case Exited => 0
    case Idle => 1
    case Reporting(_, _) => 3
    case Executing(_, _) => 4
  }

  function Weights(ws: seq<Worker>): nat {
    if ws == [] then 0 else Weight(ws[0]) + Weights(ws[1..])
  }

  lemma {:induction false} WeightsUpdate(ws: seq<Worker>, i: nat, w: Worker)
    requires i < |ws|
    ensures Weights(ws[i := w]) == Weights(ws) - Weight(ws[i]) + Weight(w)
  {
    if i == 0 {
      assert ws[0 := w][1..] == ws[1..];
    } else {
      WeightsUpdate(ws[1..], i - 1, w);
      assert ws[i := w][1..] == ws[1..][i - 1 := w];
    }
  }

  /** Four for a queued turn, and the work left in every worker and in the ready deque. */
  function Remaining(s: State): int {
    4 * s.pendingTotal + Weights(s.workers) + |s.ready|
  }

  lemma WorkerStepsShrinkRemaining(c: Config, s: State, a: Action)
    requires Inv(c, s) && Enabled(s, a) && WorkerAction(a)
    ensures Remaining(Next(c, s, a)) < Remaining(s)
  {
    var s' := Next(c, s, a);
    if a.DoTake? {
      TakeReady(s, a.worker);
    } else {
      assert WorkerOk(s, s.workers[a.worker]);
    }
    assert s'.workers == s.workers[a.worker := s'.workers[a.worker]];
    WeightsUpdate(s.workers, a.worker, s'.workers[a.worker]);
  }

  function Occupied(ws: seq<Worker>): nat {
    if ws == [] then 0 else (if Busy(ws[0]) then 1 else 0) + Occupied(ws[1..])
  }

  lemma {:induction false} OccupiedUpdate(ws: seq<Worker>, i: nat, w: Worker)
    requires i < |ws|
    ensures Occupied(ws[i := w]) == Occupied(ws) - (if Busy(ws[i]) then 1 else 0) + (if Busy(w) then 1 else 0)
  {
    if i == 0 {
      assert ws[0 := w][1..] == ws[1..];
    } else {
      OccupiedUpdate(ws[1..], i - 1, w);
      assert ws[i := w][1..] == ws[1..][i - 1 := w];
    }
  }

  /** Counted in mutex regions alone, three for a queued turn, two for a running one and one for a
      ready session: both regions of the worker loop lower the sum. */
  lemma RegionsShrinkMeasure(c: Config, s: State, a: Action)
    requires Inv(c, s) && Enabled(s, a) && (a.DoTake? || a.DoReport?)
    ensures var s' := Next(c, s, a);
            3 * s'.pendingTotal + 2 * Occupied(s'.workers) + |s'.ready| < 3 * s.pendingTotal + 2 * Occupied(s.workers) + |s.ready|
  {
    var s' := Next(c, s, a);
    if a.DoTake? {
      TakeReady(s, a.worker);
    } else {
      assert WorkerOk(s, s.workers[a.worker]);
    }
    assert s'.workers == s.workers[a.worker := s'.workers[a.worker]];
    OccupiedUpdate(s.workers, a.worker, s'.workers[a.worker]);
  }

  ghost predicate WorkerStepAt(c: Config, run: seq<State>, i: nat)
    requires i + 1 < |run|
  {
    exists a :: WorkerAction(a) && Enabled(run[i], a) && run[i + 1] == Next(c, run[i], a)
  }

  lemma OneWorkerStep(c: Config, run: seq<State>, i: nat)
    requires 0 < i < |run| && Inv(c, run[i - 1]) && AllWorkerSteps(c, run)
    ensures Inv(c, run[i]) && Remaining(run[i]) < Remaining(run[i - 1])
  {
    assert WorkerStepAt(c, run, i - 1);
    var a :| WorkerAction(a) && Enabled(run[i - 1], a) && run[i] == Next(c, run[i - 1], a);
    NextInv(c, run[i - 1], a);
    WorkerStepsShrinkRemaining(c, run[i - 1], a);
  }

  ghost predicate AllWorkerSteps(c: Config, run: seq<State>) {
    forall k :: 0 <= k < |run| - 1 ==> WorkerStepAt(c, run, k)
  }

  lemma {:induction false} InvAlong(c: Config, run: seq<State>, i: nat)
    requires i < |run| && Inv(c, run[0]) && AllWorkerSteps(c, run)
    ensures Inv(c, run[i])
  {
    if i > 0 {
      InvAlong(c, run, i - 1);
      OneWorkerStep(c, run, i);
    }
  }

  lemma StepLowers(c: Config, run: seq<State>, i: nat)
    requires 0 < i < |run| && Inv(c, run[0]) && AllWorkerSteps(c, run)
    ensures Remaining(run[i]) < Remaining(run[i - 1])
  {
    InvAlong(c, run, i - 1);
    OneWorkerStep(c, run, i);
  }

  /** Without new calls the workers come to rest: a pure worker run is no longer than `Remaining`. */
  lemma {:induction false} WorkersComeToRest(c: Config, run: seq<State>, i: nat)
    requires i < |run| && Inv(c, run[0])
    requires AllWorkerSteps(c, run)
    ensures Inv(c, run[i]) && i <= i + Remaining(run[i]) <= Remaining(run[0])
  {
    InvAlong(c, run, i);
    if i > 0 {
      WorkersComeToRest(c, run, i - 1);
      StepLowers(c, run, i);
    }
  }
}

/** The executor as the program has it: one object whose mutex regions are methods. */
module SessionExecutors {
  import opened Common
  import opened ExecutorModel

  /** Abandoning twice is abandoning the union, when nothing is abandoned by both. */
  lemma AbandonTwice(turns: seq<Turn>, f1: set<nat>, d1: set<nat>, f2: set<nat>, d2: set<nat>, how: Settlement)
    requires d1 !! d2
    ensures Abandon(Abandon(turns, f1, d1, how), f2, d2, how) == Abandon(turns, f1 + f2, d1 + d2, how)
  {
  }

  class SessionExecutor {
    const config: Config
    var lanes: map<string, Lane>
    var ready: seq<string>
    var pendingTotal: int
    var stopping: bool
    var nextTurnId: nat
    var turns: seq<Turn>
    var workers: seq<Worker>
    ghost var started: seq<nat>

    ghost function Model(): State
      reads this
    {
      State(lanes, ready, pendingTotal, stopping, nextTurnId, turns, workers, started, false)
    }

    ghost predicate Valid()
      reads this
    {
      Inv(config, Model())
    }

    /** The limits must be positive; `Create` refuses others as the program's constructor does. */
    constructor Build(config: Config, workerCount: nat)
      requires ValidConfig(config)
      ensures Valid() && this.config == config && Model() == Init(workerCount)
    {
      this.config := config;
      lanes, ready, pendingTotal, stopping, nextTurnId := map[], [], 0, false, 1;
      turns, workers, started := [], seq(workerCount, i => Idle), [];
      new;
      InitInv(config, workerCount);
    }

    static method Create(config: Config, workerCount: nat) returns (r: Option<SessionExecutor>)
      ensures r.Some? <==> ValidConfig(config)
      ensures r.Some? ==> fresh(r.value) && r.value.Valid() && r.value.config == config && r.value.Model() == Init(workerCount)
    {
      if config.maxPerSession == 0 || config.maxTotal == 0 {
        return None;
      }
      var e := new SessionExecutor.Build(config, workerCount);
      return Some(e);
    }

    method SubmitTurn(session: string, turnId: string, positiveTimeout: bool) returns (r: SubmitResult)
      modifies this
      ensures (Model(), r) == Submit(config, old(Model()), session, turnId, positiveTimeout)
    {
      if session == "" { return InvalidArgument; }
      if !positiveTimeout { return InvalidArgument; }
      if stopping { return ExecutorStopped; }
      var id: TurnId;
      if turnId == "" {
        id := Numbered(nextTurnId);
        nextTurnId := nextTurnId + 1;
      } else {
        id := Given(turnId);
      }
      if session in lanes && |lanes[session].queue| >= config.maxPerSession { return SessionOverloaded; }
      if pendingTotal >= config.maxTotal { return ExecutorOverloaded; }
      var lane := if session in lanes then lanes[session] else Lane([], None, false);
      var turn := |turns|;
      turns := turns + [Turn(session, id, false, [])];
      lane := lane.(queue := lane.queue + [turn]);
      pendingTotal := pendingTotal + 1;
      if !lane.scheduled && lane.running.None? {
        lane := lane.(scheduled := true);
        ready := ready + [session];
      }
      lanes := lanes[session := lane];
      return Accepted(turn, id);
    }

    /** Flags what runs in one lane and abandons what waits there, turn by turn. */
    method DrainLane(session: string, how: Settlement)
      requires session in lanes && PointersOk(lanes[session], |turns|)
      modifies this`turns, this`lanes
      ensures turns == Abandon(old(turns), RunningIn(old(lanes), {session}), QueuedIn(old(lanes), {session}), how)
      ensures lanes == old(lanes)[session := old(lanes)[session].(queue := [])]
    {
      var lane := lanes[session];
      ghost var flagged := RunningIn(lanes, {session});
      assert flagged == if lane.running.Some? then {lane.running.value} else {};
      assert QueuedIn(lanes, {session}) == Elements(lane.queue);
      if lane.running.Some? {
        turns := turns[lane.running.value := turns[lane.running.value].(cancelled := true)];
      }
      assert turns == Abandon(old(turns), flagged, Elements(lane.queue[..0]), how);
      var k := 0;
      while k < |lane.queue|
        invariant 0 <= k <= |lane.queue| && lanes == old(lanes) && |turns| == |old(turns)|
        invariant turns == Abandon(old(turns), flagged, Elements(lane.queue[..k]), how)
      {
        var t := lane.queue[k];
        AbandonNext(old(turns), flagged, lane.queue, k, how);
        turns := turns[t := turns[t].(cancelled := true, settled := turns[t].settled + [how])];
        k := k + 1;
      }
      assert lane.queue[..k] == lane.queue;
      lanes := lanes[session := lane.(queue := [])];
    }

    method CancelSession(session: string)
      requires session in lanes ==> PointersOk(lanes[session], |turns|)
      modifies this
      ensures Model() == Cancel(old(Model()), session)
    {
      if session !in lanes { return; }
      pendingTotal := pendingTotal - |lanes[session].queue|;
      DrainLane(session, CancelledWhileQueued);
      assert lanes == Drain(old(Model()), {session}, CancelledWhileQueued).lanes;
    }

    /** Takes the head of the ready deque: the first mutex region of the worker loop. */
    method WorkerTake(w: nat) returns (work: Option<nat>)
      requires Enabled(Model(), DoTake(w)) && ready[0] in lanes
      modifies this
      ensures Model() == Take(old(Model()), w)
      ensures work.Some? ==> workers[w] == Executing(old(ready)[0], work.value)
      ensures work.None? ==> workers == old(workers)
    {
      var session := ready[0];
      ready := ready[1..];
      var lane := lanes[session].(scheduled := false);
      if lane.queue == [] {
        lanes := lanes[session := lane];
        return None;
      }
      var turn := lane.queue[0];
      pendingTotal := pendingTotal - 1;
      lanes := lanes[session := lane.(queue := lane.queue[1..], running := Some(turn))];
      workers := workers[w := Executing(session, turn)];
      started := started + [turn];
      return Some(turn);
    }

    method WorkerExpire(w: nat)
      requires Enabled(Model(), DoExpire(w)) && workers[w].turn < |turns|
      modifies this`turns
      ensures Model() == Expire(old(Model()), w)
    {
      var turn := workers[w].turn;
      turns := turns[turn := turns[turn].(cancelled := true)];
      assert turns == Expire(old(Model()), w).turns;
    }

    /** The turn ended; its value or exception goes into the promise, which is still open. */
    method WorkerSettle(w: nat, returned: bool)
      requires Enabled(Model(), DoSettle(w, returned))
      requires workers[w].turn < |turns| && turns[workers[w].turn].settled == []
      modifies this`turns, this`workers
      ensures Model() == Settle(old(Model()), w, returned)
    {
      var turn := workers[w].turn;
      turns := turns[turn := turns[turn].(settled := [if returned then Returned else Raised])];
      workers := workers[w := Reporting(workers[w].session, turn)];
    }

    /** The last mutex region of the worker loop. */
    method WorkerReport(w: nat)
      requires Enabled(Model(), DoReport(w)) && workers[w].session in lanes
      modifies this`lanes, this`ready, this`workers
      ensures Model() == Report(old(Model()), w)
    {
      var session := workers[w].session;
      var lane := lanes[session].(running := None);
      workers := workers[w := Idle];
      if lane.queue != [] && !stopping {
        lanes := lanes[session := lane.(scheduled := true)];
        ready := ready + [session];
      } else if lane.queue == [] {
        lanes := lanes - {session};
      } else {
        lanes := lanes[session := lane];
      }
    }

    method WorkerExit(w: nat)
      requires Enabled(Model(), DoExit(w))
      modifies this`workers
      ensures Model() == Exit(old(Model()), w)
    {
      workers := workers[w := Exited];
    }

    /** One round of the shutdown loop; `s0` is the state before it and `done` the lanes drained. */
    method ShutdownLane(session: string, ghost s0: State, ghost done: set<string>)
      requires Model() == Drain(s0, done, StoppedWhileQueued).(stopping := true, pendingTotal := pendingTotal)
      requires pendingTotal == MapSum(QueueLengths(lanes))
      requires session in s0.lanes && session !in done && PointersOk(s0.lanes[session], |s0.turns|)
      requires QueuesOk(s0.turns, s0.started, s0.lanes)
      modifies this
      ensures Model() == Drain(s0, done + {session}, StoppedWhileQueued).(stopping := true, pendingTotal := pendingTotal)
      ensures pendingTotal == MapSum(QueueLengths(lanes))
    {
      DrainOneMore(s0, done, session);
      QueueLengthsAfter(lanes, session);
      pendingTotal := pendingTotal - |lanes[session].queue|;
      DrainLane(session, StoppedWhileQueued);
    }

    method ShutdownNext(session: string, ghost s0: State, ghost done: set<string>)
      requires DrainedTo(s0, done, Model()) && session in s0.lanes && session !in done && Drainable(s0)
      modifies this
      ensures DrainedTo(s0, done + {session}, Model())
    {
      assert PointersOk(s0.lanes[session], |s0.turns|);
      assert Model() == Drain(s0, done, StoppedWhileQueued).(stopping := true, pendingTotal := pendingTotal);
      ShutdownLane(session, s0, done);
    }

    /** The walk over the lanes. */
    method DrainAll(ghost s0: State)
      requires Model() == s0.(stopping := true) && Drainable(s0) && pendingTotal == MapSum(QueueLengths(lanes))
      modifies this
      ensures DrainedTo(s0, s0.lanes.Keys, Model())
    {
      ghost var done: set<string> := {};
      var todo := lanes.Keys;
      NothingDrained(s0, Model());
      while todo != {}
        invariant done + todo == s0.lanes.Keys && done !! todo && DrainedTo(s0, done, Model())
        decreases todo
      {
        var session :| session in todo;
        ShutdownNext(session, s0, done);
        todo, done := todo - {session}, done + {session};
      }
      assert done == s0.lanes.Keys;
    }

    /** The locked part of shutdown; the joins that follow wait for the workers' exits. */
    method BeginShutdown()
      requires Drainable(Model()) && pendingTotal == MapSum(QueueLengths(lanes))
      modifies this
      ensures Model() == Shutdown(old(Model()))
    {
      if stopping { return; }
      stopping := true;
      ghost var s0 := old(Model());
      DrainAll(s0);
      assert Model() == Drain(s0, s0.lanes.Keys, StoppedWhileQueued).(stopping := true, pendingTotal := pendingTotal);
      DrainedTotal(s0);
    }

    /** Any region, whoever enters it: the scheduling invariant is what makes the preconditions
        of the regions hold, and every region restores it. */
    method Perform(a: Action)
      requires Valid() && Enabled(Model(), a)
      modifies this
      ensures Valid() && Model() == Next(config, old(Model()), a)
    {
      NextInv(config, Model(), a);
      RegionsReady(config, Model(), a);
      match a
      case DoSubmit(session, turnId, positiveTimeout) => var _ := SubmitTurn(session, turnId, positiveTimeout);
      case DoCancel(session) => CancelSession(session);
      case DoShutdown => BeginShutdown();
      case DoTake(w) => var _ := WorkerTake(w);
      case DoExpire(w) => WorkerExpire(w);
      case DoSettle(w, returned) => WorkerSettle(w, returned);
      case DoReport(w) => WorkerReport(w);
      case DoExit(w) => WorkerExit(w);
    }
  }

  /** Shutdown has drained these lanes, and the pending total has kept up. */
  ghost predicate DrainedTo(s0: State, done: set<string>, s: State) {
    && (forall how {:trigger Drain(s0, done, how)} :: how == StoppedWhileQueued ==>
          s == Drain(s0, done, how).(stopping := true, pendingTotal := s.pendingTotal))
    && s.pendingTotal == MapSum(QueueLengths(s.lanes))
  }

  /** What the lanes refer to exists, and no turn waits in two of them. */
  ghost predicate Drainable(s: State) {
    && (forall id {:trigger PointersOk(s.lanes[id], |s.turns|)} :: id in s.lanes ==> PointersOk(s.lanes[id], |s.turns|))
    && QueuesOk(s.turns, s.started, s.lanes)
  }

  function Elements(q: seq<nat>): set<nat> { set t | t in q }

  /** The work objects a lane refers to exist, and none is queued twice. */
  predicate PointersOk(lane: Lane, existing: nat) {
    && Increasing(lane.queue)
    && (forall k :: 0 <= k < |lane.queue| ==> lane.queue[k] < existing)
    && (lane.running.Some? ==> lane.running.value < existing)
  }

  lemma AbandonNext(turns: seq<Turn>, flagged: set<nat>, queue: seq<nat>, k: nat, how: Settlement)
    requires k < |queue| && Increasing(queue) && queue[k] < |turns|
    ensures var now := Abandon(turns, flagged, Elements(queue[..k]), how);
            Abandon(turns, flagged, Elements(queue[..k + 1]), how)
            == now[queue[k] := now[queue[k]].(cancelled := true, settled := now[queue[k]].settled + [how])]
  {
    assert queue[..k + 1] == queue[..k] + [queue[k]];
    assert queue[k] !in queue[..k];
  }

  lemma DrainedTotal(s: State)
    ensures MapSum(QueueLengths(Drain(s, s.lanes.Keys, StoppedWhileQueued).lanes)) == 0
  {
    MapSumZero(QueueLengths(Drain(s, s.lanes.Keys, StoppedWhileQueued).lanes));
  }

  lemma NothingDrained(s0: State, s: State)
    requires s == s0.(stopping := true) && s.pendingTotal == MapSum(QueueLengths(s.lanes))
    ensures DrainedTo(s0, {}, s)
  {
    DrainNothing(s0);
  }

  lemma DrainNothing(s: State)
    ensures Drain(s, {}, StoppedWhileQueued) == s
  {
    assert s.turns == Abandon(s.turns, {}, {}, StoppedWhileQueued);
  }

  lemma RegionsReady(c: Config, s: State, a: Action)
    requires Inv(c, s) && Enabled(s, a)
    ensures a.DoCancel? && a.session in s.lanes ==> PointersOk(s.lanes[a.session], |s.turns|)
    ensures a.DoShutdown? ==> forall id :: id in s.lanes ==> PointersOk(s.lanes[id], |s.turns|)
    ensures a.DoTake? ==> s.ready[0] in s.lanes
    ensures a.DoExpire? || a.DoSettle? ==> s.workers[a.worker].turn < |s.turns|
    ensures a.DoSettle? ==> s.turns[s.workers[a.worker].turn].settled == []
    ensures a.DoReport? ==> s.workers[a.worker].session in s.lanes
  {
    if a.DoTake? {
      TakeReady(s, a.worker);
    } else if WorkerAction(a) || a.DoExpire? {
      assert WorkerOk(s, s.workers[a.worker]);
    } else {
      forall id | id in s.lanes ensures PointersOk(s.lanes[id], |s.turns|) {
        LaneTurnsExist(c, s, id);
      }
    }
  }

  lemma LaneTurnsExist(c: Config, s: State, session: string)
    requires LanesOk(c, s.lanes) && QueuesOk(s.turns, s.started, s.lanes)
    requires WorkersOk(s) && RunningHeld(s.workers, s.lanes) && session in s.lanes
    ensures PointersOk(s.lanes[session], |s.turns|)
  {
    var lane := s.lanes[session];
    assert LaneOk(c, lane) && QueueOk(s.turns, s.started, session, lane.queue);
    assert forall k :: 0 <= k < |lane.queue| ==> Waits(s.turns, session, lane.queue[k]);
    if lane.running.Some? {
      var w :| 0 <= w < |s.workers| && Holds(s.workers[w], session, lane.running.value);
      assert WorkerOk(s, s.workers[w]);
    }
  }

  lemma QueueLengthsAfter(lanes: map<string, Lane>, session: string)
    requires session in lanes
    ensures MapSum(QueueLengths(lanes[session := lanes[session].(queue := [])]))
            == MapSum(QueueLengths(lanes)) - |lanes[session].queue|
  {
    assert QueueLengths(lanes[session := lanes[session].(queue := [])]) == QueueLengths(lanes)[session := 0];
    MapSumUpdate(QueueLengths(lanes), session, 0);
  }

  /** Draining lane after lane amounts to draining them together. */
  lemma DrainOneMore(s: State, done: set<string>, session: string)
    requires QueuesOk(s.turns, s.started, s.lanes) && session in s.lanes && session !in done
    ensures var d := Drain(s, done, StoppedWhileQueued);
            && d.lanes[session] == s.lanes[session]
            && Drain(s, done + {session}, StoppedWhileQueued)
               == d.(lanes := d.lanes[session := d.lanes[session].(queue := [])],
                     turns := Abandon(d.turns, RunningIn(d.lanes, {session}), QueuedIn(d.lanes, {session}), StoppedWhileQueued))
  {
    var d := Drain(s, done, StoppedWhileQueued);
    QueuedApart(s.turns, s.started, s.lanes, done, session);
    SetsSplit(s.lanes, d.lanes, done, session);
    AbandonTwice(s.turns, RunningIn(s.lanes, done), QueuedIn(s.lanes, done),
                 RunningIn(s.lanes, {session}), QueuedIn(s.lanes, {session}), StoppedWhileQueued);
  }

  lemma SetsSplit(lanes: map<string, Lane>, lanes': map<string, Lane>, done: set<string>, session: string)
    requires session in lanes && session in lanes' && lanes'[session] == lanes[session]
    ensures RunningIn(lanes, done + {session}) == RunningIn(lanes, done) + RunningIn(lanes, {session})
    ensures QueuedIn(lanes, done + {session}) == QueuedIn(lanes, done) + QueuedIn(lanes, {session})
    ensures RunningIn(lanes', {session}) == RunningIn(lanes, {session})
    ensures QueuedIn(lanes', {session}) == QueuedIn(lanes, {session})
  {
  }

  /** Different lanes hold different turns. */
  lemma QueuedApart(turns: seq<Turn>, started: seq<nat>, lanes: map<string, Lane>, done: set<string>, session: string)
    requires QueuesOk(turns, started, lanes) && session in lanes && session !in done
    ensures QueuedIn(lanes, done) !! QueuedIn(lanes, {session})
  {
    forall id, t | id in lanes && t in lanes[id].queue ensures Waits(turns, id, t) {
      assert QueueOk(turns, started, id, lanes[id].queue);
    }
  }
}
