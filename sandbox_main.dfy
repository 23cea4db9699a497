/**
 * function/bidding_function_sapi_adapter_main: the sandboxee's request
 * loop. Each request starts with a tag naming the operation; compile and
 * batch-execute requests are followed by their message and answered with
 * a status (and, for a successful batch, the outputs).
 */
module SandboxMain {
  import opened Status
  import opened StatusEncoding
  import opened SandboxAdapter
  import opened Comms

  /** How serving one request ended. */
  datatype ServeOutcome =
    | Served          // the request was handled (or ignored); serving goes on
    | Exited(code: int) // exit(code) ended the process
    | CheckFailed     // CHECK on the tag receive aborted the process

  datatype ServeResult = ServeResult(outcome: ServeOutcome, state: WorkerState, channel: Channel)

  /** The operation a received frame asks for: only a tag frame with a known opcode names one. */
  function RequestedOp(f: Frame): Option<SandboxedFunctionOp> {
    if f.TagFrame? then DecodeOp(f.tag) else None
  }

  /**
   * ServeRequest: one request, from the tag to the reply. Unknown tags are
   * ignored; Exit ends the process without a reply; a missing tag aborts.
   */
  function Serve(rt: Runtime, w: WorkerState, ch: Channel): (r: ServeResult)
    requires ValidState(w)
    ensures ValidState(r.state)
    ensures ch.inbox == [] <==> r.outcome.CheckFailed?
    ensures ch.inbox != [] ==> |r.channel.inbox| < |ch.inbox|
    ensures |r.channel.outbox| >= |ch.outbox| && r.channel.outbox[..|ch.outbox|] == ch.outbox
  {
    var tag := Receive(ch);
    if tag.frame.None? then ServeResult(CheckFailed, w, tag.channel)
    else
      match RequestedOp(tag.frame.value)
      case None => ServeResult(Served, w, tag.channel)
      case Some(MsgExit) => ServeResult(Exited(0), w, tag.channel)
      case Some(Compile) => ServeCompile(rt, w, tag.channel)
      case Some(BatchExecute) => ServeBatch(rt, w, tag.channel)
  }

  /**
   * The rest of a compile request, once its tag is read: the spec, the
   * compilation and the status reply.
   */
  function ServeCompile(rt: Runtime, w: WorkerState, ch: Channel): (r: ServeResult)
    requires ValidState(w)
    ensures r.outcome == Served && ValidState(r.state)
    ensures |r.channel.inbox| <= |ch.inbox|
    // It reads one frame, and only sends after that.
    ensures r.channel.inbox == Receive(ch).channel.inbox
    ensures |r.channel.outbox| >= |ch.outbox| && r.channel.outbox[..|ch.outbox|] == ch.outbox
  {
    var msg := Receive(ch);
    if msg.frame.Some? && msg.frame.value.SpecFrame? then
      var c := CompileStep(rt, w, msg.frame.value.spec);
      ServeResult(Served, c.state, Send(msg.channel, StatusFrame(c.status)).channel)
    else
      ServeResult(Served, w, Send(msg.channel, StatusFrame(InvalidArgumentError("RecvProtoBuf failed"))).channel)
  }

  /**
   * The rest of a batch request, once its tag is read: the inputs, the
   * status reply and, after an OK status that was sent, the outputs.
   */
  function ServeBatch(rt: Runtime, w: WorkerState, ch: Channel): (r: ServeResult)
    requires ValidState(w)
    ensures r.outcome == Served && r.state == w
    ensures |r.channel.inbox| <= |ch.inbox|
    // It reads one frame, and only sends after that.
    ensures r.channel.inbox == Receive(ch).channel.inbox
    ensures |r.channel.outbox| >= |ch.outbox| && r.channel.outbox[..|ch.outbox|] == ch.outbox
  {
    var msg := Receive(ch);
    if msg.frame.Some? && msg.frame.value.InputsFrame? then
      var outputs := ExecuteStep(rt, w, msg.frame.value.inputs);
      var reply := Send(msg.channel, StatusFrame(ToStatus(outputs)));
      if reply.ok && outputs.Ok? then
        SendTwiceExtends(msg.channel, StatusFrame(ToStatus(outputs)), OutputsFrame(outputs.value));
        ServeResult(Served, w, Send(reply.channel, OutputsFrame(outputs.value)).channel)
      else
        ServeResult(Served, w, reply.channel)
    else
      ServeResult(Served, w, Send(msg.channel, StatusFrame(InvalidArgumentError("RecvProtoBuf failed"))).channel)
  }

  /** Two sends in a row keep what the outbox held before them. */
  lemma SendTwiceExtends(ch: Channel, f: Frame, g: Frame)
    ensures var after := Send(Send(ch, f).channel, g).channel;
            |after.outbox| >= |ch.outbox| && after.outbox[..|ch.outbox|] == ch.outbox
  {
    if ch.capacity > 0 {
      var once := Send(ch, f).channel;
      assert once.outbox[..|ch.outbox|] == ch.outbox;
      if once.capacity > 0 {
        assert (once.outbox + [g])[..|ch.outbox|] == ch.outbox;
      }
    }
  }

  /** The frames a request added to the outbox. */
  function Replies(before: Channel, after: Channel): seq<Frame>
    requires |after.outbox| >= |before.outbox|
  {
    after.outbox[|before.outbox|..]
  }

  /** The Exit tag ends the process with code 0, sends nothing and leaves the slot alone. */
  lemma ExitRepliesNothing(rt: Runtime, w: WorkerState, ch: Channel)
    requires ValidState(w)
    requires ch.inbox != [] && ch.inbox[0] == TagFrame(MSG_EXIT_TAG)
    ensures Serve(rt, w, ch).outcome == Exited(0)
    ensures Serve(rt, w, ch).channel.outbox == ch.outbox
    ensures Serve(rt, w, ch).state == w
  {
  }

  /** A frame naming no operation is consumed and nothing else happens. */
  lemma UnknownTagIgnored(rt: Runtime, w: WorkerState, ch: Channel)
    requires ValidState(w)
    requires ch.inbox != [] && RequestedOp(ch.inbox[0]).None?
    ensures Serve(rt, w, ch) == ServeResult(Served, w, ch.(inbox := ch.inbox[1..]))
  {
  }

  /**
   * A compile request is answered with exactly one status frame: the
   * status of CompileFunction, or INVALID_ARGUMENT when no spec followed
   * the tag (the slot is then untouched).
   */
  lemma CompileRepliesWithStatus(rt: Runtime, w: WorkerState, ch: Channel)
    requires ValidState(w)
    requires ch.inbox != [] && ch.inbox[0] == TagFrame(COMPILE_TAG)
    requires ch.capacity > 0
    ensures var r := Serve(rt, w, ch);
            var rest := ch.inbox[1..];
            r.outcome == Served &&
            (if rest != [] && rest[0].SpecFrame?
             then Replies(ch, r.channel) == [StatusFrame(CompileStep(rt, w, rest[0].spec).status)] &&
                  r.state == CompileStep(rt, w, rest[0].spec).state
             else Replies(ch, r.channel) == [StatusFrame(InvalidArgumentError("RecvProtoBuf failed"))] &&
                  r.state == w)
  {
    var r := Serve(rt, w, ch);
    assert Replies(ch, r.channel) == r.channel.outbox[|ch.outbox|..];
  }

  /**
   * A batch request sends outputs only after an OK status was sent: the
   * replies are nothing (the status send failed), the status alone, or
   * an OK status followed by the outputs of BatchExecuteFunction.
   */
  lemma OutputsOnlyAfterOkStatus(rt: Runtime, w: WorkerState, ch: Channel)
    requires ValidState(w)
    requires ch.inbox != [] && ch.inbox[0] == TagFrame(BATCH_EXECUTE_TAG)
    ensures var r := Serve(rt, w, ch);
            var rest := ch.inbox[1..];
            r.outcome == Served && r.state == w &&
            (if rest != [] && rest[0].InputsFrame?
             then var outputs := ExecuteStep(rt, w, rest[0].inputs);
                  Replies(ch, r.channel) == [] ||
                  Replies(ch, r.channel) == [StatusFrame(ToStatus(outputs))] ||
                  (outputs.Ok? && Replies(ch, r.channel) == [StatusFrame(OkStatus), OutputsFrame(outputs.value)])
             else Replies(ch, r.channel) == [] ||
                  Replies(ch, r.channel) == [StatusFrame(InvalidArgumentError("RecvProtoBuf failed"))])
  {
    var r := Serve(rt, w, ch);
    assert Replies(ch, r.channel) == r.channel.outbox[|ch.outbox|..];
  }

  /**
   * The serving loop: requests are served one at a time in arrival order
   * until the process exits or a tag receive fails. Every request consumes
   * at least one frame, so on a finite inbox the loop ends.
   */
  function ServeAll(rt: Runtime, w: WorkerState, ch: Channel): (r: ServeResult)
    requires ValidState(w)
    ensures !r.outcome.Served?
    ensures ValidState(r.state)
    decreases |ch.inbox|
  {
    var one := Serve(rt, w, ch);
    if one.outcome.Served? then ServeAll(rt, one.state, one.channel) else one
  }

  /** A channel that runs dry ends the loop with the CHECK failure, never with an exit code. */
  lemma {:induction false} LoopEndsByExitOrAbort(rt: Runtime, w: WorkerState, ch: Channel)
    requires ValidState(w)
    requires forall i :: 0 <= i < |ch.inbox| ==> ch.inbox[i] != TagFrame(MSG_EXIT_TAG)
    ensures ServeAll(rt, w, ch).outcome == CheckFailed
    decreases |ch.inbox|
  {
    var one := Serve(rt, w, ch);
    if one.outcome.Served? {
      ServeReadsFromInbox(rt, w, ch);
      LoopEndsByExitOrAbort(rt, one.state, one.channel);
    }
  }

  /** A request only takes frames off the front of the inbox. */
  lemma ServeReadsFromInbox(rt: Runtime, w: WorkerState, ch: Channel)
    requires ValidState(w)
    ensures forall i :: 0 <= i < |Serve(rt, w, ch).channel.inbox| ==> Serve(rt, w, ch).channel.inbox[i] in ch.inbox
  {
    var tag := Receive(ch);
    if tag.frame.Some? {
      var rest := Receive(tag.channel).channel.inbox;
      assert rest == [] || ch.inbox == [ch.inbox[0]] + ([tag.channel.inbox[0]] + rest);
    }
  }

  /** ServeRequest, step by step on the channel and the slot. */
  method ServeRequest(comms: Comms, worker: Worker) returns (outcome: ServeOutcome)
    requires worker.Valid()
    modifies comms, worker
    ensures worker.Valid()
    ensures ServeResult(outcome, worker.State(), comms.View()) ==
              Serve(worker.runtime, old(worker.State()), old(comms.View()))
  {
    var tag := comms.RecvFrame();
    if tag.None? {
      return CheckFailed;
    }
    var op := RequestedOp(tag.value);
    if op.None? {
      return Served;
    }
    match op.value {
      case MsgExit =>
        return Exited(0);
      case Compile =>
        var msg := comms.RecvFrame();
        if msg.Some? && msg.value.SpecFrame? {
          var status := worker.CompileFunction(msg.value.spec);
          var sent := comms.SendFrame(StatusFrame(status));
        } else {
          var sent := comms.SendFrame(StatusFrame(InvalidArgumentError("RecvProtoBuf failed")));
        }
        outcome := Served;
      case BatchExecute =>
        var msg := comms.RecvFrame();
        if msg.Some? && msg.value.InputsFrame? {
          var outputs := worker.BatchExecuteFunction(msg.value.inputs);
          var sent := comms.SendFrame(StatusFrame(ToStatus(outputs)));
          if sent && outputs.Ok? {
            sent := comms.SendFrame(OutputsFrame(outputs.value));
          }
        } else {
          var sent := comms.SendFrame(StatusFrame(InvalidArgumentError("RecvProtoBuf failed")));
        }
        outcome := Served;
    }
  }

  /** The `while (true) ServeRequest(comms);` loop. */
  method ServeRequests(comms: Comms, worker: Worker) returns (outcome: ServeOutcome)
    requires worker.Valid()
    modifies comms, worker
    ensures worker.Valid()
    ensures ServeResult(outcome, worker.State(), comms.View()) ==
              ServeAll(worker.runtime, old(worker.State()), old(comms.View()))
  {
    outcome := ServeRequest(comms, worker);
    ghost var before := old(comms.View());
    ghost var w0 := old(worker.State());
    while outcome.Served?
      invariant worker.Valid()
      invariant ServeAll(worker.runtime, w0, before) ==
                  (if outcome.Served? then ServeAll(worker.runtime, worker.State(), comms.View())
                   else ServeResult(outcome, worker.State(), comms.View()))
      decreases |comms.inbox| + (if outcome.Served? then 1 else 0)
    {
      outcome := ServeRequest(comms, worker);
    }
  }
}
