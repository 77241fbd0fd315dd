/** The handler registry: a finite map from request kind to handler, built by
    chaining `add`, and the type-erased entry `add` wraps each handler in. */
module Registry {
  import opened Wrappers
  import opened Protocol
  import opened Correlator
  import opened Host
  import opened ServerHandlers

  /** The handler functions of `Server`. */
  datatype Handler =
    | PingHandler
    | WriteFileHandler
    | StatHandler
    | CanonicalizeHandler
    | ReadLinkHandler
    | ReadDirHandler
    | ReadFileHandler
    | AddWorktreeHandler

  /** The request type `M` in the handler's signature, whose `TypeId` `add` keys it under. */
  function HandledKind(h: Handler): RequestKind
  {
    match h
    case PingHandler => PingKind
    case WriteFileHandler => WriteFileKind
    case StatHandler => StatKind
    case CanonicalizeHandler => CanonicalizeKind
    case ReadLinkHandler => ReadLinkKind
    case ReadDirHandler => ReadDirKind
    case ReadFileHandler => ReadFileKind
    case AddWorktreeHandler => AddWorktreeKind
  }

  type HandlerMap = map<RequestKind, Handler>

  /** Every entry sits under the kind its handler accepts, so the downcast in
      the entry always succeeds. */
  ghost predicate WellKeyed(reg: HandlerMap)
  {
    forall k :: k in reg ==> HandledKind(reg[k]) == k
  }

  /** `Handlers::add`: registers `h` under its own request kind, replacing any
      earlier entry for that kind and leaving every other entry as it was. */
  function Add(reg: HandlerMap, h: Handler): (reg': HandlerMap)
    ensures forall k :: k in reg' <==> k in reg || k == HandledKind(h)
    ensures reg'[HandledKind(h)] == h
    ensures forall k :: k in reg && k != HandledKind(h) ==> reg'[k] == reg[k]
    ensures WellKeyed(reg) ==> WellKeyed(reg')
  {
    reg[HandledKind(h) := h]
  }

  /** The eight request kinds the server serves. */
  const ServedKinds: set<RequestKind> :=
    {PingKind, WriteFileKind, StatKind, CanonicalizeKind, ReadLinkKind, ReadDirKind, ReadFileKind, AddWorktreeKind}

  /** `Server::build_handlers`: an empty map with the eight handlers added. It
      serves exactly the eight request kinds, each through the handler for that
      kind. */
  function BuildHandlers(): (reg: HandlerMap)
    ensures forall k :: k in reg <==> k in ServedKinds
    ensures WellKeyed(reg)
  {
    var empty: HandlerMap := map[];
    var r1 := Add(empty, PingHandler);
    var r2 := Add(r1, WriteFileHandler);
    var r3 := Add(r2, StatHandler);
    var r4 := Add(r3, CanonicalizeHandler);
    var r5 := Add(r4, ReadLinkHandler);
    var r6 := Add(r5, ReadDirHandler);
    var r7 := Add(r6, ReadFileHandler);
    Add(r7, AddWorktreeHandler)
  }

  /** The boxed closure `add` stores for `h`: downcasts the request to the
      handler's own type (the `unwrap` panics, here `None`, when the kinds
      differ), wraps the correlator as `Response<M>` and runs the handler body. */
  function Invoke(h: Handler, host: Host, state: ServerState, req: Request,
                  inner: ResponseInner, tx: Channel): (o: Option<Step>)
    requires inner.holders > 0
    ensures o.None? <==> KindOf(req) != HandledKind(h)
    ensures o.Some? ==> o.value.inner.id == inner.id
    // At most one frame, and it is a reply of the request's declared response type.
    ensures o.Some? ==> RepliesAtMostOnce(tx, o.value.tx, KindOf(req), inner.id)
    // A failing handler has sent nothing, kept nothing and changed nothing.
    ensures o.Some? && o.value.result.Err? ==> o.value.tx == tx && o.value.inner == inner && o.value.state == state
    // Only a successful `add_worktree` keeps a copy of the correlator, and only it
    // changes the state: by appending the worktree it opened on the shared allocator.
    ensures o.Some? && o.value.inner.holders == inner.holders ==> o.value.state == state
    ensures o.Some? && o.value.inner.holders != inner.holders ==>
      && o.value.inner.holders == inner.holders + 1 && o.value.result.Ok?
      && req.AddWorktree? && host.openWorktree(req.path, state.nextEntryId).Ok?
      && o.value.state == ServerState(state.worktrees + [host.openWorktree(req.path, state.nextEntryId).value], state.nextEntryId)
    ensures o.Some? && req.AddWorktree? && host.openWorktree(req.path, state.nextEntryId).Ok? ==>
      o.value.inner.holders == inner.holders + 1
  {
    if KindOf(req) != HandledKind(h) then None
    else
      var resp := Response(inner, HandledKind(h));
      match req
      case Ping => Some(HandlePing(resp, tx, state))
      case WriteFile(path, content, lineEnding) =>
        Some(HandleWriteFile(host.fs, path, content, lineEnding, resp, tx, state))
      case Stat(path) => Some(HandleStat(host.fs, path, resp, tx, state))
      case Canonicalize(path) => Some(HandleCanonicalize(host.fs, path, resp, tx, state))
      case ReadLink(path) => Some(HandleReadLink(host.fs, path, resp, tx, state))
      case ReadDir(path) => Some(HandleReadDir(host.fs, path, resp, tx, state))
      case ReadFile(path) => Some(HandleReadFile(host.fs, path, resp, tx, state))
      case AddWorktree(path) => Some(HandleAddWorktree(host, path, resp, tx, state))
  }
}
