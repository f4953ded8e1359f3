/** Sample accounting of a full-duplex conversation: what was delivered, what was acknowledged as
    heard, and where a barge-in cuts a response. */
module FullDuplexModel {
  import opened Common

  /** A piece of output audio, `size` samples from `start` on. */
  datatype Chunk = Chunk(start: nat, size: nat)

  /** What happened to one response: the chunks emitted, the playback offsets accepted, whether its
      generation completed, and the offsets with which it was cancelled. */
  datatype Response = Response(id: string, chunks: seq<Chunk>, heard: seq<nat>, completed: bool, cancelled: seq<nat>)

  /** `responses` records every incarnation, the current one last; `taken` the input frames accepted
      and `forwarded` those given to the provider. */
  datatype State = State(
    id: string,
    delivered: nat,
    played: nat,
    active: bool,
    generated: bool,
    playing: bool,
    speaking: bool,
    stopping: bool,
    input: seq<nat>,
    inputDone: bool,
    responses: seq<Response>,
    taken: seq<nat>,
    forwarded: seq<nat>)

  function Init(): State {
    State("", 0, 0, false, false, false, false, false, [], false, [], [], [])
  }

  function Current(s: State): Response
    requires s.responses != []
  {
    s.responses[|s.responses| - 1]
  }

  function SetCurrent(s: State, r: Response): State
    requires s.responses != []
  {
    s.(responses := s.responses[|s.responses| - 1 := r])
  }

  // ---------------------------------------------------------------- transitions

  function Begin(s: State, id: string): State {
    s.(id := id, delivered := 0, played := 0, active := true, generated := false, playing := false,
       responses := s.responses + [Response(id, [], [], false, [])])
  }

  predicate TakesAudio(s: State, id: string) { s.active && !s.generated && id == s.id }

  /** An audio delta of the current response becomes the next chunk; any other is dropped. */
  function Audio(s: State, id: string, size: nat): State
    requires TakesAudio(s, id) ==> s.responses != []
  {
    if !TakesAudio(s, id) then s
    else
      SetCurrent(s, Current(s).(chunks := Current(s).chunks + [Chunk(s.delivered, size)]))
      .(delivered := s.delivered + size)
  }

  /** Generated audio may still be buffered by the player: the response stays active while some of it
      is unheard. */
  function Complete(s: State, id: string): State
    requires TakesAudio(s, id) ==> s.responses != []
  {
    if !TakesAudio(s, id) then s
    else SetCurrent(s, Current(s).(completed := true)).(generated := true, active := s.played < s.delivered)
  }

  function Min(a: nat, b: nat): nat { if a < b then a else b }

  /** The offset an acknowledgement moves playback to, if it does. */
  predicate Progresses(s: State, id: string, offset: nat) {
    s.active && id == s.id && Min(offset, s.delivered) > s.played
  }

  function Acknowledge(s: State, id: string, offset: nat): State
    requires Progresses(s, id, offset) ==> s.responses != []
  {
    if !Progresses(s, id, offset) then s
    else
      var accepted := Min(offset, s.delivered);
      SetCurrent(s, Current(s).(heard := Current(s).heard + [accepted]))
      .(played := accepted, active := !(s.generated && accepted == s.delivered))
  }

  function StartPlayback(s: State, id: string): State {
    if s.active && id == s.id && !s.playing then s.(playing := true) else s
  }

  /** A barge-in, by the speaker or because the sink refused a chunk. */
  function BargeIn(s: State): State
    requires s.active ==> s.responses != []
  {
    if !s.active then s
    else SetCurrent(s, Current(s).(cancelled := Current(s).cancelled + [s.played])).(active := false)
  }

  function Push(max: nat, s: State, frame: nat): (State, bool) {
    if s.stopping || |s.input| >= max then (s, false)
    else (s.(input := s.input + [frame], taken := s.taken + [frame]), true)
  }

  /** The input worker: forwards the oldest frame, or clears the queue and ends. */
  function Forward(s: State): State
    requires s.stopping || s.input != []
  {
    if s.stopping then s.(input := [], inputDone := true)
    else s.(input := s.input[1..], forwarded := s.forwarded + [s.input[0]])
  }

  datatype Action =
    | DoBegin(id: string)
    | DoAudio(id: string, size: nat)
    | DoComplete(id: string)
    | DoAcknowledge(id: string, offset: nat)
    | DoStartPlayback(id: string)
    | DoBargeIn
    | DoSpeech(speaking: bool)
    | DoPush(frame: nat)
    | DoForward
    | DoClose

  predicate Enabled(s: State, a: Action) {
    match a
    case DoForward => !s.inputDone && (s.stopping || s.input != [])
    case _ => s.active ==> s.responses != []
  }

  function Next(max: nat, s: State, a: Action): State
    requires Enabled(s, a)
  {
    match a
    case DoBegin(id) => Begin(s, id)
    case DoAudio(id, size) => Audio(s, id, size)
    case DoComplete(id) => Complete(s, id)
    case DoAcknowledge(id, offset) => Acknowledge(s, id, offset)
    case DoStartPlayback(id) => StartPlayback(s, id)
    case DoBargeIn => BargeIn(s)
    case DoSpeech(speaking) => s.(speaking := speaking)
    case DoPush(frame) => Push(max, s, frame).0
    case DoForward => Forward(s)
    case DoClose => s.(stopping := true)
  }

  // ---------------------------------------------------------------- the invariant

  function Total(chunks: seq<Chunk>): nat {
    if chunks == [] then 0 else Total(chunks[..|chunks| - 1]) + chunks[|chunks| - 1].size
  }

  /** Where playback stands: the last offset accepted. */
  function Heard(heard: seq<nat>): nat { if heard == [] then 0 else heard[|heard| - 1] }

  /** Every chunk starts where the earlier ones of the response end; playback only moves forward
      within what was delivered; a cancellation happens at most once, at the last accepted offset. */
  ghost predicate ResponseOk(r: Response) {
    && (forall k {:trigger r.chunks[k]} :: 0 <= k < |r.chunks| ==> r.chunks[k].start == Total(r.chunks[..k]))
    && Increasing(r.heard) && Heard(r.heard) <= Total(r.chunks)
    && (r.cancelled == [] || r.cancelled == [Heard(r.heard)])
  }

  /** The current response is active exactly while it is neither cancelled nor both generated and
      heard to its end. */
  ghost predicate CurrentOk(s: State) {
    if s.responses == [] then !s.active && s.delivered == 0 && s.played == 0
    else
      var r := Current(s);
      && s.id == r.id && s.delivered == Total(r.chunks) && s.played == Heard(r.heard) && s.generated == r.completed
      && (s.active <==> r.cancelled == [] && (!s.generated || s.played < s.delivered))
  }

  ghost predicate InputOk(max: nat, s: State) {
    && |s.input| <= max
    && (s.inputDone ==> s.stopping && s.input == [])
    && if s.inputDone then s.forwarded <= s.taken else s.taken == s.forwarded + s.input
  }

  ghost predicate ResponsesOk(rs: seq<Response>) {
    forall k {:trigger ResponseOk(rs[k])} :: 0 <= k < |rs| ==> ResponseOk(rs[k])
  }

  ghost predicate Inv(max: nat, s: State) {
    ResponsesOk(s.responses) && CurrentOk(s) && InputOk(max, s)
  }

  lemma ChunkAdded(r: Response, size: nat)
    requires ResponseOk(r) && r.cancelled == []
    ensures var r' := r.(chunks := r.chunks + [Chunk(Total(r.chunks), size)]);
            ResponseOk(r') && Total(r'.chunks) == Total(r.chunks) + size
  {
    var chunks' := r.chunks + [Chunk(Total(r.chunks), size)];
    assert chunks'[..|r.chunks|] == r.chunks;
    forall k | 0 <= k < |chunks'| ensures chunks'[k].start == Total(chunks'[..k]) {
      if k < |r.chunks| { assert chunks'[..k] == r.chunks[..k] && chunks'[k] == r.chunks[k]; }
    }
  }

  lemma OffsetAccepted(r: Response, offset: nat)
    requires ResponseOk(r) && r.cancelled == [] && Heard(r.heard) < offset <= Total(r.chunks)
    ensures ResponseOk(r.(heard := r.heard + [offset]))
  {
  }

  lemma LastChanged(rs: seq<Response>, r: Response)
    requires ResponsesOk(rs) && rs != [] && ResponseOk(r)
    ensures ResponsesOk(rs[|rs| - 1 := r])
  {
  }

  lemma AudioInv(s: State, id: string, size: nat)
    requires ResponsesOk(s.responses) && CurrentOk(s)
    ensures ResponsesOk(Audio(s, id, size).responses) && CurrentOk(Audio(s, id, size))
  {
    if TakesAudio(s, id) {
      assert ResponseOk(Current(s));
      ChunkAdded(Current(s), size);
      LastChanged(s.responses, Current(Audio(s, id, size)));
    }
  }

  lemma CompleteInv(s: State, id: string)
    requires ResponsesOk(s.responses) && CurrentOk(s)
    ensures ResponsesOk(Complete(s, id).responses) && CurrentOk(Complete(s, id))
  {
    if TakesAudio(s, id) {
      assert ResponseOk(Current(s));
      LastChanged(s.responses, Current(s).(completed := true));
    }
  }

  lemma AcknowledgeInv(s: State, id: string, offset: nat)
    requires ResponsesOk(s.responses) && CurrentOk(s)
    ensures ResponsesOk(Acknowledge(s, id, offset).responses) && CurrentOk(Acknowledge(s, id, offset))
  {
    if Progresses(s, id, offset) {
      assert ResponseOk(Current(s));
      OffsetAccepted(Current(s), Min(offset, s.delivered));
      LastChanged(s.responses, Current(Acknowledge(s, id, offset)));
    }
  }

  lemma BargeInInv(s: State)
    requires ResponsesOk(s.responses) && CurrentOk(s)
    ensures ResponsesOk(BargeIn(s).responses) && CurrentOk(BargeIn(s))
  {
    if s.active {
      assert ResponseOk(Current(s));
      LastChanged(s.responses, Current(BargeIn(s)));
    }
  }

  lemma BeginInv(s: State, id: string)
    requires ResponsesOk(s.responses)
    ensures ResponsesOk(Begin(s, id).responses) && CurrentOk(Begin(s, id))
  {
  }

  lemma InputKept(max: nat, s: State, a: Action)
    requires InputOk(max, s) && Enabled(s, a)
    ensures InputOk(max, Next(max, s, a))
  {
  }

  lemma NextInv(max: nat, s: State, a: Action)
    requires Inv(max, s) && Enabled(s, a)
    ensures Inv(max, Next(max, s, a))
  {
    InputKept(max, s, a);
    match a
    case DoBegin(id) => BeginInv(s, id);
    case DoAudio(id, size) => AudioInv(s, id, size);
    case DoComplete(id) => CompleteInv(s, id);
    case DoAcknowledge(id, offset) => AcknowledgeInv(s, id, offset);
    case DoBargeIn => BargeInInv(s);
    case _ =>
  }

  // ---------------------------------------------------------------- whole runs

  ghost predicate StepAt(max: nat, run: seq<State>, i: nat)
    requires i + 1 < |run|
  {
    exists a :: Enabled(run[i], a) && run[i + 1] == Next(max, run[i], a)
  }

  /** Any interleaving of provider events, acknowledgements, barge-ins and input. */
  ghost predicate IsRun(max: nat, run: seq<State>) {
    && |run| > 0 && run[0] == Init()
    && forall i :: 0 <= i < |run| - 1 ==> StepAt(max, run, i)
  }

  lemma StepKeeps(max: nat, run: seq<State>, i: nat)
    requires IsRun(max, run) && 0 < i < |run| && Inv(max, run[i - 1])
    ensures Inv(max, run[i])
  {
    assert StepAt(max, run, i - 1);
    var a :| Enabled(run[i - 1], a) && run[i] == Next(max, run[i - 1], a);
    NextInv(max, run[i - 1], a);
  }

  lemma {:induction false} RunsKeepAccounts(max: nat, run: seq<State>, i: nat)
    requires IsRun(max, run) && i < |run|
    ensures Inv(max, run[i])
  {
    if i > 0 {
      RunsKeepAccounts(max, run, i - 1);
      StepKeeps(max, run, i);
    }
  }

  predicate Over(r: Response) { r.completed || r.cancelled != [] }

  /** What may still happen to a response: no chunk once it is completed or cancelled, and nothing
      at all once it is cancelled. */
  ghost predicate Grows(r: Response, r': Response) {
    && r'.id == r.id && r.chunks <= r'.chunks && r.heard <= r'.heard && r.cancelled <= r'.cancelled
    && (r.completed ==> r'.completed)
    && (Over(r) ==> r'.chunks == r.chunks)
    && (r.cancelled != [] ==> r' == r)
  }

  ghost predicate AllGrow(rs: seq<Response>, rs': seq<Response>) {
    && |rs| <= |rs'|
    && forall k {:trigger Grows(rs[k], rs'[k])} :: 0 <= k < |rs| ==> Grows(rs[k], rs'[k])
  }

  /** The current response changes only as it may; the earlier ones not at all. */
  lemma LastGrows(rs: seq<Response>, r: Response)
    requires rs != [] && Grows(rs[|rs| - 1], r)
    ensures AllGrow(rs, rs[|rs| - 1 := r])
  {
  }

  lemma SameGrows(rs: seq<Response>)
    ensures AllGrow(rs, rs)
  {
  }

  lemma BeginGrows(s: State, id: string)
    ensures AllGrow(s.responses, Begin(s, id).responses)
  {
  }

  lemma AudioGrows(s: State, id: string, size: nat)
    requires CurrentOk(s)
    ensures AllGrow(s.responses, Audio(s, id, size).responses)
  {
    SameGrows(s.responses);
    if TakesAudio(s, id) { LastGrows(s.responses, Current(Audio(s, id, size))); }
  }

  lemma CompleteGrows(s: State, id: string)
    requires CurrentOk(s)
    ensures AllGrow(s.responses, Complete(s, id).responses)
  {
    SameGrows(s.responses);
    if TakesAudio(s, id) { LastGrows(s.responses, Current(Complete(s, id))); }
  }

  lemma AcknowledgeGrows(s: State, id: string, offset: nat)
    requires CurrentOk(s)
    ensures AllGrow(s.responses, Acknowledge(s, id, offset).responses)
  {
    SameGrows(s.responses);
    if Progresses(s, id, offset) { LastGrows(s.responses, Current(Acknowledge(s, id, offset))); }
  }

  lemma BargeInGrows(s: State)
    requires CurrentOk(s)
    ensures AllGrow(s.responses, BargeIn(s).responses)
  {
    SameGrows(s.responses);
    if s.active { LastGrows(s.responses, Current(BargeIn(s))); }
  }

  lemma StepGrows(max: nat, s: State, a: Action)
    requires CurrentOk(s) && Enabled(s, a)
    ensures AllGrow(s.responses, Next(max, s, a).responses)
  {
    match a
    case DoBegin(id) => BeginGrows(s, id);
    case DoAudio(id, size) => AudioGrows(s, id, size);
    case DoComplete(id) => CompleteGrows(s, id);
    case DoAcknowledge(id, offset) => AcknowledgeGrows(s, id, offset);
    case DoBargeIn => BargeInGrows(s);
    case _ => SameGrows(s.responses);
  }

  lemma StepGrowsAt(max: nat, run: seq<State>, i: nat)
    requires IsRun(max, run) && 0 < i < |run|
    ensures AllGrow(run[i - 1].responses, run[i].responses)
  {
    RunsKeepAccounts(max, run, i - 1);
    assert StepAt(max, run, i - 1);
    var a :| Enabled(run[i - 1], a) && run[i] == Next(max, run[i - 1], a);
    StepGrows(max, run[i - 1], a);
  }

  lemma AllGrowTrans(rs1: seq<Response>, rs2: seq<Response>, rs3: seq<Response>)
    requires AllGrow(rs1, rs2) && AllGrow(rs2, rs3)
    ensures AllGrow(rs1, rs3)
  {
    forall k | 0 <= k < |rs1| ensures Grows(rs1[k], rs3[k]) {
      assert Grows(rs1[k], rs2[k]) && Grows(rs2[k], rs3[k]);
    }
  }

  lemma {:induction false} RunGrows(max: nat, run: seq<State>, i: nat, j: nat)
    requires IsRun(max, run) && i <= j < |run|
    ensures AllGrow(run[i].responses, run[j].responses)
    decreases j
  {
    if i < j {
      RunGrows(max, run, i, j - 1);
      StepGrowsAt(max, run, j);
      AllGrowTrans(run[i].responses, run[j - 1].responses, run[j].responses);
    }
  }

  /** Playback never passes delivery; an active response has unfinished generation or unheard audio. */
  lemma PlayedWithinDelivered(max: nat, run: seq<State>, i: nat)
    requires IsRun(max, run) && i < |run|
    ensures run[i].played <= run[i].delivered
    ensures run[i].active ==> !run[i].generated || run[i].played < run[i].delivered
  {
    RunsKeepAccounts(max, run, i);
    if run[i].responses != [] { assert ResponseOk(Current(run[i])); }
  }

  /** Every chunk of every incarnation starts at the total size of its earlier chunks. */
  lemma ChunksAreContiguous(max: nat, run: seq<State>, i: nat, r: nat, k: nat)
    requires IsRun(max, run) && i < |run| && r < |run[i].responses| && k < |run[i].responses[r].chunks|
    ensures run[i].responses[r].chunks[k].start == Total(run[i].responses[r].chunks[..k])
  {
    RunsKeepAccounts(max, run, i);
    assert ResponseOk(run[i].responses[r]);
  }

  /** After completion or cancellation no chunk is ever emitted for that incarnation again. */
  lemma NoChunkAfterTheEnd(max: nat, run: seq<State>, i: nat, j: nat, r: nat)
    requires IsRun(max, run) && i <= j < |run| && r < |run[i].responses| && Over(run[i].responses[r])
    ensures r < |run[j].responses| && Over(run[j].responses[r]) && run[j].responses[r].chunks == run[i].responses[r].chunks
  {
    RunGrows(max, run, i, j);
    assert Grows(run[i].responses[r], run[j].responses[r]);
  }

  /** Cancellation is decided at most once per incarnation, with the last accepted offset, and is
      the last thing that happens to it. */
  lemma CancelledOnce(max: nat, run: seq<State>, i: nat, j: nat, r: nat)
    requires IsRun(max, run) && i <= j < |run| && r < |run[i].responses|
    ensures r < |run[j].responses| && |run[j].responses[r].cancelled| <= 1
    ensures run[i].responses[r].cancelled != [] ==>
              run[j].responses[r] == run[i].responses[r] && run[i].responses[r].cancelled == [Heard(run[i].responses[r].heard)]
  {
    RunsKeepAccounts(max, run, i);
    RunsKeepAccounts(max, run, j);
    RunGrows(max, run, i, j);
    assert ResponseOk(run[i].responses[r]) && Grows(run[i].responses[r], run[j].responses[r]);
    assert ResponseOk(run[j].responses[r]);
  }

  /** Input frames reach the provider in the order in which they were accepted; only closing loses
      the ones still queued. */
  lemma InputForwardedInOrder(max: nat, run: seq<State>, i: nat)
    requires IsRun(max, run) && i < |run|
    ensures run[i].forwarded <= run[i].taken && |run[i].input| <= max
    ensures !run[i].inputDone ==> run[i].taken == run[i].forwarded + run[i].input
  {
    RunsKeepAccounts(max, run, i);
  }
}

/** The conversation object. */
module FullDuplexConversations {
  import opened Common
  import opened FullDuplexModel

  class FullDuplexConversation {
    const maxFrames: nat
    var id: string
    var delivered: nat
    var played: nat
    var active: bool
    var generated: bool
    var playing: bool
    var speaking: bool
    var stopping: bool
    var input: seq<nat>
    var inputDone: bool
    ghost var responses: seq<Response>
    ghost var taken: seq<nat>
    ghost var forwarded: seq<nat>

    ghost function Model(): State
      reads this
    {
      State(id, delivered, played, active, generated, playing, speaking, stopping, input, inputDone, responses, taken, forwarded)
    }

    ghost predicate Valid()
      reads this
    {
      Inv(maxFrames, Model())
    }

    constructor (maxInputFrames: nat)
      ensures maxFrames == maxInputFrames && Valid() && Model() == Init()
    {
      maxFrames := maxInputFrames;
      id, delivered, played, active, generated, playing := "", 0, 0, false, false, false;
      speaking, stopping, input, inputDone := false, false, [], false;
      responses, taken, forwarded := [], [], [];
    }

    method ResponseStarted(response: string)
      modifies this
      ensures Model() == Begin(old(Model()), response)
    {
      id, delivered, played, active, generated, playing := response, 0, 0, true, false, false;
      responses := responses + [Response(response, [], [], false, [])];
    }

    /** The chunk to hand to the sink, if the delta belongs to the current response. */
    method AudioDelta(response: string, size: nat) returns (chunk: Option<Chunk>)
      requires active ==> responses != []
      modifies this
      ensures Model() == Audio(old(Model()), response, size)
      ensures chunk == if TakesAudio(old(Model()), response) then Some(Chunk(old(delivered), size)) else None
    {
      if !active || generated || response != id { return None; }
      chunk := Some(Chunk(delivered, size));
      delivered := delivered + size;
      responses := SetCurrent(Model(), Current(Model()).(chunks := Current(Model()).chunks + [chunk.value])).responses;
    }

    method ResponseCompleted(response: string) returns (current: bool)
      requires active ==> responses != []
      modifies this
      ensures Model() == Complete(old(Model()), response) && current == TakesAudio(old(Model()), response)
    {
      current := active && !generated && response == id;
      if current {
        generated := true;
        active := played < delivered;
        responses := SetCurrent(Model(), Current(Model()).(completed := true)).responses;
      }
    }

    /** The offset published as progress, if playback moved. */
    method AcknowledgePlayback(response: string, offset: nat) returns (accepted: Option<nat>)
      requires active ==> responses != []
      modifies this
      ensures Model() == Acknowledge(old(Model()), response, offset)
      ensures accepted == if Progresses(old(Model()), response, offset) then Some(played) else None
    {
      accepted := None;
      if active && response == id {
        var position := if offset < delivered then offset else delivered;
        if position > played {
          played := position;
          if generated && played == delivered { active := false; }
          responses := SetCurrent(Model(), Current(Model()).(heard := Current(Model()).heard + [position])).responses;
          accepted := Some(position);
        }
      }
    }

    method PlaybackStarted(response: string) returns (changed: bool)
      modifies this`playing
      ensures Model() == StartPlayback(old(Model()), response) && changed == (Model() != old(Model()))
    {
      changed := active && response == id && !playing;
      if changed { playing := true; }
    }

    /** The response and offset to cancel at the provider, if one was active. */
    method BeginBargeIn() returns (cancel: Option<(string, nat)>)
      requires active ==> responses != []
      modifies this
      ensures Model() == BargeIn(old(Model()))
      ensures cancel == if old(active) then Some((id, played)) else None
    {
      if !active { return None; }
      cancel := Some((id, played));
      active := false;
      responses := SetCurrent(Model(), Current(Model()).(cancelled := Current(Model()).cancelled + [played])).responses;
    }

    /** Reports whether the speech state changed; a start that did is followed by a barge-in. */
    method InputSpeech(speech: bool) returns (changed: bool)
      modifies this`speaking
      ensures Model() == old(Model()).(speaking := speech) && changed == (speech != old(speaking))
    {
      changed := speech != speaking;
      speaking := speech;
    }

    method PushAudio(frame: nat) returns (accepted: bool)
      modifies this`input, this`taken
      ensures (Model(), accepted) == Push(maxFrames, old(Model()), frame)
    {
      if stopping || |input| >= maxFrames { return false; }
      input, taken := input + [frame], taken + [frame];
      return true;
    }

    method InputStep() returns (frame: Option<nat>)
      requires Enabled(Model(), DoForward)
      modifies this`input, this`inputDone, this`forwarded
      ensures Model() == Forward(old(Model()))
      ensures frame == if stopping then None else Some(old(input)[0])
    {
      if stopping {
        input, inputDone := [], true;
        return None;
      }
      frame := Some(input[0]);
      forwarded := forwarded + [input[0]];
      input := input[1..];
    }

    /** Only the first close does anything. */
    method Close() returns (first: bool)
      modifies this`stopping
      ensures Model() == old(Model()).(stopping := true) && first == !old(stopping)
    {
      first := !stopping;
      stopping := true;
    }

    /** Whatever comes next, the accounts stay right. */
    method Perform(a: Action)
      requires Valid() && Enabled(Model(), a)
      modifies this
      ensures Valid() && Model() == Next(maxFrames, old(Model()), a)
    {
      NextInv(maxFrames, Model(), a);
      match a
      case DoBegin(response) => ResponseStarted(response);
      case DoAudio(response, size) => var _ := AudioDelta(response, size);
      case DoComplete(response) => var _ := ResponseCompleted(response);
      case DoAcknowledge(response, offset) => var _ := AcknowledgePlayback(response, offset);
      case DoStartPlayback(response) => var _ := PlaybackStarted(response);
      case DoBargeIn => var _ := BeginBargeIn();
      case DoSpeech(speech) => var _ := InputSpeech(speech);
      case DoPush(frame) => var _ := PushAudio(frame);
      case DoForward => var _ := InputStep();
      case DoClose => var _ := Close();
    }
  }
}
