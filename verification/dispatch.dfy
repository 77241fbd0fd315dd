/** `Server::handle_message`: one inbound request through the registry to the
    frames it leaves on the outbound channel. */
module Dispatch {
  import opened Wrappers
  import opened Protocol
  import opened Correlator
  import opened Host
  import opened ServerHandlers
  import opened Registry

  /** `TypedEnvelope<M>` as received: the sender's message id and the payload. */
  datatype Incoming = Incoming(messageId: MessageId, payload: Request)

  const UNHANDLED: string := "unhandled request type"

  /** How dispatch ended: the channel, the server state, and the correlator, whose
      remaining owners are the subscriptions still holding it; or a panic in the
      registry entry's downcast. */
  datatype Dispatched = Done(tx: Channel, state: ServerState, inner: ResponseInner) | Panicked

  /** What dispatch does once the handler's future has completed: the handler's
      `Response` is dropped, an `Err` becomes an error frame, and dispatch drops
      its own copy of the correlator. */
  function Complete(step: Step): (d: Dispatched)
    requires step.inner.holders >= 2
    ensures d.Done? && d.state == step.state
    ensures d.inner.id == step.inner.id && d.inner.holders == step.inner.holders - 2
    ensures d.tx.open == step.tx.open && step.tx.sent <= d.tx.sent
    ensures !step.tx.open ==> d.tx == step.tx
    ensures forall e :: e in Appended(step.tx, d.tx) ==> e.respondingTo == Some(step.inner.id)
    ensures step.tx.open ==>
      Appended(step.tx, d.tx) ==
      (if step.result.Err? then [ErrorFrame(step.inner.id, step.result.error)] else []) +
      (if step.inner.holders == 2 then [CompletionMarker(step.inner.id)] else [])
  {
    var handlerDone := Release(step.inner, step.tx);
    var tx1 := if step.result.Err? then SendError(handlerDone.inner, handlerDone.tx, step.result.error)
               else handlerDone.tx;
    var last := Release(handlerDone.inner, tx1);
    assert handlerDone.tx == step.tx by {
      assert Appended(step.tx, handlerDone.tx) == [];
    }
    Done(last.tx, step.state, last.inner)
  }

  /** Every frame dispatch itself adds answers the incoming message id, whatever
      the registry holds. */
  function HandleMessage(reg: HandlerMap, host: Host, state: ServerState, msg: Incoming, tx: Channel): (d: Dispatched)
    ensures d.Done? ==> d.tx.open == tx.open && tx.sent <= d.tx.sent && d.inner.id == msg.messageId
    ensures d.Done? ==> forall e :: e in Appended(tx, d.tx) ==> e.respondingTo == Some(msg.messageId)
    ensures d.Panicked? <==> KindOf(msg.payload) in reg && HandledKind(reg[KindOf(msg.payload)]) != KindOf(msg.payload)
  {
    var inner := Open(msg.messageId);
    var kind := KindOf(msg.payload);
    if kind in reg then
      match Invoke(reg[kind], host, state, msg.payload, Share(inner), tx)
      case None => Panicked
      case Some(step) =>
        var d := Complete(step);
        ReplyAnswers(tx, step.tx, kind, msg.messageId);
        AnswersCompose(tx, step.tx, d.tx, msg.messageId);
        d
    else
      var tx1 := SendError(inner, tx, UNHANDLED);
      var last := Release(inner, tx1);
      AnswersCompose(tx, tx1, last.tx, msg.messageId);
      Done(last.tx, state, last.inner)
  }

  /** A handler's reply answers the request it was sent for. */
  lemma ReplyAnswers(tx: Channel, tx': Channel, k: RequestKind, id: MessageId)
    requires RepliesAtMostOnce(tx, tx', k, id)
    ensures forall e :: e in Appended(tx, tx') ==> e.respondingTo == Some(id)
  {
  }

  /** Frames answering `id` added in two stretches are frames answering `id`. */
  lemma AnswersCompose(tx: Channel, mid: Channel, last: Channel, id: MessageId)
    requires tx.sent <= mid.sent <= last.sent
    requires forall e :: e in Appended(tx, mid) ==> e.respondingTo == Some(id)
    requires forall e :: e in Appended(mid, last) ==> e.respondingTo == Some(id)
    ensures forall e :: e in Appended(tx, last) ==> e.respondingTo == Some(id)
  {
    assert Appended(tx, last) == Appended(tx, mid) + Appended(mid, last);
  }

  /** The frames one dispatch added to the channel. */
  function Frames(tx: Channel, d: Dispatched): seq<Envelope>
    requires d.Done? && tx.sent <= d.tx.sent
  {
    Appended(tx, d.tx)
  }

  /** `e` is the error frame `send_error` builds for request `id`. */
  predicate IsErrorFrame(e: Envelope, id: MessageId)
  {
    e.payload.Some? && e.payload.value.Error? && e == ErrorFrame(id, e.payload.value.message)
  }

  /** The frames a request of kind `k` leaves once its correlator is gone: the
      completion marker alone, or one reply of `k`'s declared response type or
      one error frame, followed by the marker. */
  predicate Settled(frames: seq<Envelope>, k: RequestKind, id: MessageId)
  {
    || frames == [CompletionMarker(id)]
    || (&& |frames| == 2
        && (IsReply(frames[0], k, id) || IsErrorFrame(frames[0], id))
        && frames[1] == CompletionMarker(id))
  }

  /** The central guarantee: whatever the request and however its handler ends,
      it is answered. Unless an `add_worktree` subscription still holds the
      correlator, the request has settled: every frame answers its id, at most one
      carries a payload, and the completion marker comes exactly once, last.
      The only exception is a successful `add_worktree`, whose reply has gone out
      and whose marker waits for the subscription to end. */
  lemma EveryRequestSettles(reg: HandlerMap, host: Host, state: ServerState, msg: Incoming, tx: Channel)
    requires tx.open && WellKeyed(reg)
    ensures HandleMessage(reg, host, state, msg, tx).Done?
    ensures var d := HandleMessage(reg, host, state, msg, tx);
      d.inner.holders == 0 ==> Settled(Frames(tx, d), KindOf(msg.payload), msg.messageId)
    ensures var d := HandleMessage(reg, host, state, msg, tx);
      d.inner.holders != 0 ==>
        && msg.payload.AddWorktree? && d.inner.holders == 1
        && |Frames(tx, d)| == 1 && IsReply(Frames(tx, d)[0], AddWorktreeKind, msg.messageId)
  {
    var kind := KindOf(msg.payload);
    if kind in reg {
      var inner := ResponseInner(msg.messageId, 2);
      Routes(reg, host, state, msg, tx);
      var step := Invoke(reg[kind], host, state, msg.payload, inner, tx).value;
      CompletedHandlerSettles(step, tx, kind, msg.messageId);
      if step.inner.holders != 2 {
        // Only `add_worktree` keeps the observer's copy, after sending its reply.
        WellKeyedLookup(reg, AddWorktreeHandler);
        var resp := Response(inner, AddWorktreeKind);
        assert step == HandleAddWorktree(host, msg.payload.path, resp, tx, state);
      }
    } else {
      UnknownKindIsRejected(reg, host, state, msg, tx);
    }
  }

  /** After a handler that sent at most one reply, dispatch leaves a settled
      request, or (when the handler kept a copy of the correlator) just that
      reply. */
  lemma CompletedHandlerSettles(step: Step, tx: Channel, k: RequestKind, id: MessageId)
    requires tx.open && RepliesAtMostOnce(tx, step.tx, k, id)
    requires step.inner.id == id && 2 <= step.inner.holders <= 3
    requires step.result.Err? ==> step.tx == tx && step.inner.holders == 2
    ensures var d := Complete(step);
      && tx.sent <= d.tx.sent
      && (d.inner.holders == 0 ==> Settled(Appended(tx, d.tx), k, id))
      && (step.result.Err? ==> Appended(tx, d.tx) == [ErrorFrame(id, step.result.error), CompletionMarker(id)])
      && (d.inner.holders != 0 ==> Appended(tx, d.tx) == Appended(tx, step.tx))
  {
    if step.result.Err? {
      FailedStepFrames(step, tx);
    } else if step.inner.holders == 2 {
      SuccessfulStepFrames(step, tx);
      var reply := Appended(tx, step.tx);
      if reply != [] {
        assert IsReply(reply[0], k, id);
        assert (reply + [CompletionMarker(id)])[0] == reply[0];
      }
    } else {
      KeptStepFrames(step, tx);
    }
  }

  /** A failed handler, having sent nothing, is followed by its error frame and
      the completion marker. */
  lemma FailedStepFrames(step: Step, tx: Channel)
    requires tx.open && step.tx == tx
    requires step.result.Err? && step.inner.holders == 2
    ensures tx.sent <= Complete(step).tx.sent
    ensures Appended(tx, Complete(step).tx) == [ErrorFrame(step.inner.id, step.result.error), CompletionMarker(step.inner.id)]
  {
  }

  /** A successful handler that kept a copy of the correlator is followed by
      nothing: the marker waits for the copy. */
  lemma KeptStepFrames(step: Step, tx: Channel)
    requires tx.open && step.tx.open && tx.sent <= step.tx.sent
    requires step.result.Ok? && step.inner.holders == 3
    ensures Complete(step).tx == step.tx
  {
    assert Appended(step.tx, Complete(step).tx) == [];
  }

  /** A request of a kind with no registry entry gets one error frame with the
      fixed text, code 0 and no tags, then the completion marker; nothing else
      changes. */
  lemma UnknownKindIsRejected(reg: HandlerMap, host: Host, state: ServerState, msg: Incoming, tx: Channel)
    requires tx.open && KindOf(msg.payload) !in reg
    ensures var d := HandleMessage(reg, host, state, msg, tx);
      && d.Done? && d.state == state && d.inner.holders == 0
      && Frames(tx, d) == [
           Envelope(0, None, Some(Error(0, [], "unhandled request type")), Some(msg.messageId)),
           Envelope(0, None, None, Some(msg.messageId))]
  {
  }

  /** A registered handler that resolves to `Err(e)` yields one error frame with
      `e`'s text, code 0 and no tags, then the completion marker, and leaves the
      state as it was. */
  lemma HandlerErrorBecomesErrorFrame(reg: HandlerMap, host: Host, state: ServerState, msg: Incoming, tx: Channel)
    requires tx.open && WellKeyed(reg) && KindOf(msg.payload) in reg
    requires Invoke(reg[KindOf(msg.payload)], host, state, msg.payload, ResponseInner(msg.messageId, 2), tx).Some?
    requires Invoke(reg[KindOf(msg.payload)], host, state, msg.payload, ResponseInner(msg.messageId, 2), tx).value.result.Err?
    ensures var e := Invoke(reg[KindOf(msg.payload)], host, state, msg.payload, ResponseInner(msg.messageId, 2), tx).value.result.error;
      var d := HandleMessage(reg, host, state, msg, tx);
      && d.Done? && d.state == state && d.inner.holders == 0
      && Frames(tx, d) == [
           Envelope(0, None, Some(Error(0, [], e)), Some(msg.messageId)),
           Envelope(0, None, None, Some(msg.messageId))]
  {
  }

  /** A request whose kind has an entry is dispatched through that entry's
      closure, with the correlator shared once, and completed. */
  lemma Routes(reg: HandlerMap, host: Host, state: ServerState, msg: Incoming, tx: Channel)
    requires WellKeyed(reg) && KindOf(msg.payload) in reg
    ensures Invoke(reg[KindOf(msg.payload)], host, state, msg.payload, ResponseInner(msg.messageId, 2), tx).Some?
    ensures HandleMessage(reg, host, state, msg, tx) ==
      Complete(Invoke(reg[KindOf(msg.payload)], host, state, msg.payload, ResponseInner(msg.messageId, 2), tx).value)
  {
  }

  /** A registry entry for kind `k` holds the handler of kind `k`. */
  lemma WellKeyedLookup(reg: HandlerMap, h: Handler)
    requires WellKeyed(reg) && HandledKind(h) in reg
    ensures reg[HandledKind(h)] == h
  {
  }

  /** Any registry that serves `ping` answers it with one `Ack` stamped with the
      request id, then the completion marker. */
  lemma PingIsAcked(reg: HandlerMap, host: Host, state: ServerState, id: MessageId, tx: Channel)
    requires tx.open && WellKeyed(reg) && PingKind in reg
    ensures var d := HandleMessage(reg, host, state, Incoming(id, Ping), tx);
      && d.Done? && d.state == state
      && Frames(tx, d) == [Envelope(0, None, Some(Ack), Some(id)), Envelope(0, None, None, Some(id))]
  {
    WellKeyedLookup(reg, PingHandler);
    Routes(reg, host, state, Incoming(id, Ping), tx);
    var step := HandlePing(Response(ResponseInner(id, 2), PingKind), tx, state);
    assert Invoke(PingHandler, host, state, Ping, ResponseInner(id, 2), tx) == Some(step);
  }

  /** With the server's own registry, `{id: 7, payload: Ping}` is answered by
      `{responding_to: 7, payload: Ack}`, then the completion marker for 7. */
  lemma PingSevenScenario(host: Host, state: ServerState, tx: Channel)
    requires tx.open
    ensures var d := HandleMessage(BuildHandlers(), host, state, Incoming(7, Ping), tx);
      d.Done? && Frames(tx, d) == [Envelope(0, None, Some(Ack), Some(7)), Envelope(0, None, None, Some(7))]
  {
    PingIsAcked(BuildHandlers(), host, state, 7, tx);
  }

  /** `read_file` on a loadable path answers with the loaded content, then the
      completion marker. */
  lemma ReadFileAnswersContent(reg: HandlerMap, host: Host, state: ServerState, id: MessageId, path: string, tx: Channel)
    requires tx.open && WellKeyed(reg) && ReadFileKind in reg && host.fs.load(path).Ok?
    ensures var d := HandleMessage(reg, host, state, Incoming(id, ReadFile(path)), tx);
      && d.Done? && d.state == state
      && Frames(tx, d) == [
           Envelope(0, None, Some(ReadFileResponse(host.fs.load(path).value)), Some(id)),
           Envelope(0, None, None, Some(id))]
  {
    WellKeyedLookup(reg, ReadFileHandler);
    Routes(reg, host, state, Incoming(id, ReadFile(path)), tx);
    var step := HandleReadFile(host.fs, path, Response(ResponseInner(id, 2), ReadFileKind), tx, state);
    assert Invoke(ReadFileHandler, host, state, ReadFile(path), ResponseInner(id, 2), tx) == Some(step);
  }

  /** `read_file` on a path whose load fails answers with an error frame carrying
      the load's error text, then the completion marker. */
  lemma ReadFileAnswersError(reg: HandlerMap, host: Host, state: ServerState, id: MessageId, path: string, tx: Channel)
    requires tx.open && WellKeyed(reg) && ReadFileKind in reg && host.fs.load(path).Err?
    ensures var d := HandleMessage(reg, host, state, Incoming(id, ReadFile(path)), tx);
      && d.Done? && d.state == state
      && Frames(tx, d) == [
           Envelope(0, None, Some(Error(0, [], host.fs.load(path).error)), Some(id)),
           Envelope(0, None, None, Some(id))]
  {
    WellKeyedLookup(reg, ReadFileHandler);
    Routes(reg, host, state, Incoming(id, ReadFile(path)), tx);
    var step := HandleReadFile(host.fs, path, Response(ResponseInner(id, 2), ReadFileKind), tx, state);
    assert Invoke(ReadFileHandler, host, state, ReadFile(path), ResponseInner(id, 2), tx) == Some(step);
  }

  /** With the server's own registry, `{id: 8, payload: ReadFile{path: "/missing"}}`
      on a filesystem whose load fails with `m` is answered by an error frame for
      8 whose message is `m`. */
  lemma MissingFileScenario(host: Host, state: ServerState, m: string, tx: Channel)
    requires tx.open && host.fs.load("/missing") == Err(m)
    ensures var d := HandleMessage(BuildHandlers(), host, state, Incoming(8, ReadFile("/missing")), tx);
      && d.Done?
      && Frames(tx, d) == [Envelope(0, None, Some(Error(0, [], m)), Some(8)), Envelope(0, None, None, Some(8))]
  {
    ReadFileAnswersError(BuildHandlers(), host, state, 8, "/missing", tx);
  }

  /** `stat` with metadata answers with one `StatResponse` copying it; without
      metadata it answers with nothing but the completion marker: no payload
      and no error. */
  lemma StatAnswers(reg: HandlerMap, host: Host, state: ServerState, id: MessageId, path: string, tx: Channel)
    requires tx.open && WellKeyed(reg) && StatKind in reg && host.fs.metadata(path).Ok?
    ensures var d := HandleMessage(reg, host, state, Incoming(id, Stat(path)), tx);
      && d.Done? && d.state == state
      && Frames(tx, d) ==
           (match host.fs.metadata(path).value
            case None => []
            case Some(m) => [Envelope(0, None, Some(StatResponse(m.isDir, m.isSymlink, m.mtime, m.inode)), Some(id))])
           + [Envelope(0, None, None, Some(id))]
  {
    WellKeyedLookup(reg, StatHandler);
    Routes(reg, host, state, Incoming(id, Stat(path)), tx);
    var step := HandleStat(host.fs, path, Response(ResponseInner(id, 2), StatKind), tx, state);
    assert Invoke(StatHandler, host, state, Stat(path), ResponseInner(id, 2), tx) == Some(step);
    SuccessfulStepFrames(step, tx);
  }

  /** A handler that succeeds, with no subscription holding on, has its frames
      followed by the completion marker and nothing else. */
  lemma SuccessfulStepFrames(step: Step, tx: Channel)
    requires tx.open && step.tx.open && tx.sent <= step.tx.sent
    requires step.result.Ok? && step.inner.holders == 2
    ensures tx.sent <= Complete(step).tx.sent
    ensures Appended(tx, Complete(step).tx) == Appended(tx, step.tx) + [CompletionMarker(step.inner.id)]
  {
    var d := Complete(step);
    assert Appended(tx, d.tx) == Appended(tx, step.tx) + Appended(step.tx, d.tx);
  }

  /** `write_file` never sends a payload: a successful save leaves only the
      completion marker, a failed one its error frame before it. The save uses
      Unix line endings exactly when the request carries the Unix value. */
  lemma WriteFileOnlyCompletes(reg: HandlerMap, host: Host, state: ServerState, id: MessageId,
                               path: string, content: string, lineEnding: int, tx: Channel)
    requires tx.open && WellKeyed(reg) && WriteFileKind in reg
    ensures var saved := host.fs.save(path, content, if lineEnding == UNIX_LINE_ENDING then Unix else Windows);
      var d := HandleMessage(reg, host, state, Incoming(id, WriteFile(path, content, lineEnding)), tx);
      && d.Done? && d.state == state
      && (saved.Ok? ==> Frames(tx, d) == [Envelope(0, None, None, Some(id))])
      && (saved.Err? ==>
            Frames(tx, d) == [Envelope(0, None, Some(Error(0, [], saved.error)), Some(id)), Envelope(0, None, None, Some(id))])
  {
    WellKeyedLookup(reg, WriteFileHandler);
    Routes(reg, host, state, Incoming(id, WriteFile(path, content, lineEnding)), tx);
    var step := HandleWriteFile(host.fs, path, content, lineEnding, Response(ResponseInner(id, 2), WriteFileKind), tx, state);
    assert Invoke(WriteFileHandler, host, state, WriteFile(path, content, lineEnding), ResponseInner(id, 2), tx) == Some(step);
  }

  /** The unsolicited frames a subscription forwards for `updates`. */
  function UpdateFrames(updates: seq<WorktreeUpdate>): seq<Envelope>
  {
    seq(|updates|, i requires 0 <= i < |updates| => Envelope(0, None, Some(UpdateWorktree(updates[i])), None))
  }

  /** A successful `add_worktree` appends exactly its worktree to the state and
      replies with its id; the correlator stays alive, held by the subscription,
      so no completion marker follows yet. */
  lemma AddWorktreeSubscribes(reg: HandlerMap, host: Host, state: ServerState, id: MessageId, path: string, tx: Channel)
    requires tx.open && WellKeyed(reg) && AddWorktreeKind in reg
    requires host.openWorktree(path, state.nextEntryId).Ok?
    ensures var w := host.openWorktree(path, state.nextEntryId).value;
      var d := HandleMessage(reg, host, state, Incoming(id, AddWorktree(path)), tx);
      && d.Done?
      && d.state == ServerState(state.worktrees + [w], state.nextEntryId)
      && d.inner == ResponseInner(id, 1)
      && Frames(tx, d) == [Envelope(0, None, Some(AddWorktreeResponse(w.id)), Some(id))]
  {
    WellKeyedLookup(reg, AddWorktreeHandler);
    Routes(reg, host, state, Incoming(id, AddWorktree(path)), tx);
    var step := HandleAddWorktree(host, path, Response(ResponseInner(id, 2), AddWorktreeKind), tx, state);
    assert Invoke(AddWorktreeHandler, host, state, AddWorktree(path), ResponseInner(id, 2), tx) == Some(step);
  }

  /** While the subscription is the correlator's only holder, it forwards every
      update, in order, as an unsolicited frame; when it ends, the completion
      marker for the original request follows, once, last. */
  lemma SubscriptionEndsWithMarker(sub: ResponseInner, tx: Channel, updates: seq<WorktreeUpdate>)
    requires tx.open && sub.holders == 1
    ensures var pushed := ForwardUpdates(sub, tx, updates);
      && tx.sent <= Release(sub, pushed).tx.sent
      && Appended(tx, Release(sub, pushed).tx) == UpdateFrames(updates) + [Envelope(0, None, None, Some(sub.id))]
  {
    var pushed := ForwardUpdates(sub, tx, updates);
    assert Appended(tx, pushed) == UpdateFrames(updates);
  }

  /** The state after a run of requests, the channel, and the correlators still
      held by worktree subscriptions, in the order they were opened. */
  datatype Served = Served(tx: Channel, state: ServerState, subscriptions: seq<ResponseInner>)

  /** Requests dispatched one after another, each against the state the previous
      one left (the transport loop calling `handle_message` per inbound envelope). */
  function Serve(reg: HandlerMap, host: Host, state: ServerState, msgs: seq<Incoming>, tx: Channel): Served
    requires WellKeyed(reg)
    decreases |msgs|
  {
    if msgs == [] then Served(tx, state, [])
    else
      var d := HandleMessage(reg, host, state, msgs[0], tx);
      var rest := Serve(reg, host, d.state, msgs[1..], d.tx);
      Served(rest.tx, rest.state, (if d.inner.holders > 0 then [d.inner] else []) + rest.subscriptions)
  }

  /** How many of `msgs` are `add_worktree` requests whose worktree opens. */
  function OpenedWorktrees(host: Host, counter: EntryIdCounter, msgs: seq<Incoming>): nat
    decreases |msgs|
  {
    if msgs == [] then 0
    else
      (if msgs[0].payload.AddWorktree? && host.openWorktree(msgs[0].payload.path, counter).Ok? then 1 else 0)
      + OpenedWorktrees(host, counter, msgs[1..])
  }

  /** One request changes the state only by a successful `add_worktree`, which
      appends the worktree it opened and leaves its subscription holding the
      correlator; every other request leaves the state as it was. */
  lemma DispatchStateEffect(reg: HandlerMap, host: Host, state: ServerState, msg: Incoming, tx: Channel)
    requires WellKeyed(reg)
    ensures var d := HandleMessage(reg, host, state, msg, tx);
      && d.Done?
      && (d.inner.holders == 0 ==> d.state == state)
      && (d.inner.holders != 0 ==>
            && d.inner.holders == 1 && msg.payload.AddWorktree?
            && host.openWorktree(msg.payload.path, state.nextEntryId).Ok?
            && d.state == ServerState(state.worktrees + [host.openWorktree(msg.payload.path, state.nextEntryId).value],
                                      state.nextEntryId))
      && (var opens := msg.payload.AddWorktree? && host.openWorktree(msg.payload.path, state.nextEntryId).Ok?;
          AddWorktreeKind in reg && opens ==> d.inner.holders == 1)
  {
    var kind := KindOf(msg.payload);
    if kind in reg {
      var step := Invoke(reg[kind], host, state, msg.payload, Share(Open(msg.messageId)), tx).value;
      assert HandleMessage(reg, host, state, msg, tx) == Complete(step);
    }
  }

  /** Over any run of requests the worktree list only grows at its end, by one
      entry per successful `add_worktree`, each of which leaves exactly one live
      subscription; the shared entry-id allocator is never replaced. */
  lemma {:induction false} WorktreesGrowWithSubscriptions(reg: HandlerMap, host: Host, state: ServerState,
                                                          msgs: seq<Incoming>, tx: Channel)
    requires WellKeyed(reg) && AddWorktreeKind in reg
    ensures var r := Serve(reg, host, state, msgs, tx);
      && state.worktrees <= r.state.worktrees
      && r.state.nextEntryId == state.nextEntryId
      && |r.state.worktrees| == |state.worktrees| + |r.subscriptions|
      && |r.subscriptions| == OpenedWorktrees(host, state.nextEntryId, msgs)
      && (forall i :: 0 <= i < |r.subscriptions| ==> r.subscriptions[i].holders == 1)
    decreases |msgs|
  {
    if msgs != [] {
      DispatchStateEffect(reg, host, state, msgs[0], tx);
      var d := HandleMessage(reg, host, state, msgs[0], tx);
      WorktreesGrowWithSubscriptions(reg, host, d.state, msgs[1..], d.tx);
    }
  }
}
