# Remote server dispatch and status-bar builders, in Dafny

This project models two pieces of the editor's code.

1. **The remote server's request dispatcher** (`remote_server.rs`).
   - A registry maps each request type to a handler closure. `handle_message` looks a request up and runs its handler.
   - A reference-counted correlator (`ResponseInner` behind an `Arc`) stamps every reply, error frame and completion marker with the request's message id. Worktree updates forwarded through the same correlator carry no `responding_to`.
   - When the correlator's last owner drops it, it emits a payload-less *completion marker* stamped with that id.
   - The eight handlers are `ping`, `read_file`, `read_link`, `canonicalize`, `read_dir`, `stat`, `write_file` and `add_worktree`.
2. **The `StatusBar` builders** (`status_bar.rs`).
   - Three optional tool groups (left, right, bottom).
   - `left_tool`, `right_tool` and `bottom_tool` each push a tool in front of a group.

Everything is a pure function over immutable values:

- **Outbound channel.** A `Channel` is an open flag plus the frames sent so far. Sending on a closed channel is silently dropped, as `.ok()` does in the source.
- **Correlator.** `Arc<ResponseInner>` is a `ResponseInner` that records its id and how many owners it has. `Share` is `Arc::clone`. `Release` is dropping one owner; when that owner is the last, `Release` appends the marker.
- **Dispatch order.** `handle_message` is the fixed sequence below.
  1. Open the correlator.
  2. Share it with the handler.
  3. Run the handler.
  4. Release the handler's copy.
  5. On `Err`, send one error frame.
  6. Release dispatch's own copy.
- **`add_worktree`.** This handler keeps a third copy for its update observer, so that request's marker waits until the subscription ends.
- **Registry.** The registry is a map from request kinds to a closed set of handlers. The downcast in `Handlers::add` cannot fail in a registry whose every entry sits under its own kind (`WellKeyed`). `Invoke` returns `None` where the source would panic.
- **Outside world.** The file system (`load`, `save`, `metadata`, `canonicalize`, `read_link`, `read_dir`) and `Worktree::local` are function-valued parameters (`Host.Fs`, `Host.Host`). Every result they can give, errors included, is covered.

Files:

- `wrappers.dfy`: `Option` and `Result`.
- `protocol.dfy`: message ids, request kinds, payloads, envelopes, the channel.
- `correlator.dfy`: `ResponseInner`, `Response<T>`, `send`, `send_error` and the drop marker.
- `host.dfy`: the file system, worktree and server-state oracles.
- `handlers.dfy` (module `ServerHandlers`): the eight handler bodies. The source's own `Handlers` type is the registry, in module `Registry`.
- `registry.dfy`: `Handlers::add`, `build_handlers` and the boxed closure.
- `dispatch.dfy`: `handle_message`, the dispatch guarantees and a serve loop.
- `status_bar.dfy`: the status-bar builders.

## Model

| member | source | states |
|---|---|---|
| Protocol.Transmit | crates/remote_server/src/remote_server.rs:312-314 | An unbounded send on an open channel appends exactly the given envelope after everything already sent. On a closed channel the error is ignored and nothing changes. |
| Correlator.Open | crates/remote_server/src/remote_server.rs:98-101 | A new correlator answers the incoming message's id and has exactly one owner. |
| Correlator.Share | crates/remote_server/src/remote_server.rs:105 | Cloning the correlator for the handler keeps its id and adds one owner. |
| Correlator.SendRaw | crates/remote_server/src/remote_server.rs:312-314 | `ResponseInner::send` puts the envelope on the channel unchanged when the channel is open, and nothing otherwise. |
| Correlator.Send | crates/remote_server/src/remote_server.rs:299-303 | A typed reply appends one frame with id 0, no original sender, the payload, and `responding_to` equal to the request id. Only the request type's declared response can be sent. |
| Correlator.SendError | crates/remote_server/src/remote_server.rs:316-325 | An error reply appends one `Error` frame with code 0, no tags and the error's text, responding to the request id. |
| Correlator.Release | crates/remote_server/src/remote_server.rs:328-338 | Dropping an owner removes one owner. Exactly when it was the last owner (and the channel is open), one completion marker appears: id 0, no sender, no payload, responding to the request id. |
| Correlator.SendsAreNotSuppressed | crates/remote_server/src/remote_server.rs:299-303 | n sends through one response append n frames, in order, each stamped with the request id. Nothing deduplicates a second reply. |
| Correlator.LastOwnerSendsOneMarker | crates/remote_server/src/remote_server.rs:328-338 | However many owners a correlator has, dropping all of them emits exactly one frame: the completion marker. |
| ServerHandlers.LineEndingFor | crates/remote_server/src/remote_server.rs:265-269 | The save uses Unix line endings if and only if the request's line-ending field equals the Unix value. Any other value means Windows. |
| ServerHandlers.CollectEntries | crates/remote_server/src/remote_server.rs:202-205 | Draining the directory stream succeeds if and only if every entry is Ok, giving all the names in order. Otherwise it fails with the first failing entry's error. |
| ServerHandlers.HandlePing | crates/remote_server/src/remote_server.rs:148-156 | `ping` replies with one `Ack` and succeeds, leaving state and correlator unchanged. |
| ServerHandlers.HandleReadFile | crates/remote_server/src/remote_server.rs:158-167 | `read_file` either replies with the loaded content, or fails with the load error and sends nothing. |
| ServerHandlers.HandleReadLink | crates/remote_server/src/remote_server.rs:169-180 | `read_link` either replies with the link target as a `PathResponse`, or fails with the error and sends nothing. |
| ServerHandlers.HandleCanonicalize | crates/remote_server/src/remote_server.rs:182-193 | `canonicalize` either replies with the canonical path as a `PathResponse`, or fails with the error and sends nothing. |
| ServerHandlers.HandleReadDir | crates/remote_server/src/remote_server.rs:195-208 | `read_dir` fails, sending nothing, if opening the directory fails or any entry fails (with the first failure's error). Otherwise it replies once with every entry's name, in stream order. |
| ServerHandlers.HandleStat | crates/remote_server/src/remote_server.rs:233-253 | `stat` on a metadata error fails and sends nothing. On no metadata it succeeds and sends nothing. On metadata it replies with is_dir, is_symlink, mtime and inode taken from it. |
| ServerHandlers.HandleWriteFile | crates/remote_server/src/remote_server.rs:255-272 | `write_file` sends nothing. Its result is the save's result, with the line ending chosen by the request. |
| ServerHandlers.HandleAddWorktree | crates/remote_server/src/remote_server.rs:115-146 | `add_worktree` opens the worktree on the shared entry-id allocator. On failure it changes nothing and sends nothing. On success it appends the worktree to the server state, replies with its id, and keeps one more owner of the correlator for the update observer. |
| ServerHandlers.ForwardUpdates | crates/remote_server/src/remote_server.rs:132-139 | The observer forwards each worktree update, in order, as one frame with id 0 and no `responding_to`. |
| Registry.Add | crates/remote_server/src/remote_server.rs:276-296 | Adding a handler inserts it under its own request type, replacing any earlier entry for that type. It leaves every other entry untouched and keeps the registry well-keyed. |
| Registry.BuildHandlers | crates/remote_server/src/remote_server.rs:80-90 | The built registry has an entry for exactly the eight request types and no other. It is well-keyed, so each entry holds its own type's handler. |
| Registry.Invoke | crates/remote_server/src/remote_server.rs:284-293 | The boxed closure panics (None) exactly when the request's type is not the handler's. Otherwise the handler sends at most one reply, stamped with the request id, of the request's declared response type. A failing handler changes nothing. Only a successful `add_worktree` changes the server state or keeps an extra owner. |
| Dispatch.Complete | crates/remote_server/src/remote_server.rs:105-109 | After the handler, dispatch releases both its copies. On a handler error it sends one error frame in between. The marker follows if no one else still holds the correlator. |
| Dispatch.HandleMessage | crates/remote_server/src/remote_server.rs:92-113 | Dispatch only appends frames, and every frame it appends has `responding_to` equal to the incoming message id, whatever the registry holds. It panics exactly when a registry entry sits under the wrong type. |
| Dispatch.EveryRequestSettles | crates/remote_server/src/remote_server.rs:92-113 | For every request on a well-keyed registry, dispatch ends with the completion marker, exactly once, last. Before it comes at most one frame, and that frame is either a reply of the request type's declared response type or a `send_error` frame. The one exception is a successful `add_worktree`: its reply has gone out and its marker waits for the subscription. |
| Dispatch.CompletedHandlerSettles | crates/remote_server/src/remote_server.rs:105-109 | After a handler that sent at most one typed reply, the frames are settled as above. A failed handler's frames are exactly its error frame, then the marker. A handler that kept a copy of the correlator is followed by nothing more. |
| Dispatch.FailedStepFrames | crates/remote_server/src/remote_server.rs:107-109 | A failed handler that sent nothing is followed by exactly the error frame with its error's text, then the marker. |
| Dispatch.KeptStepFrames | crates/remote_server/src/remote_server.rs:132 | When the handler kept an extra copy of the correlator, dropping the handler's and dispatch's copies sends nothing. |
| Dispatch.UnknownKindIsRejected | crates/remote_server/src/remote_server.rs:110-111 | A request type with no entry gets the error "unhandled request type" (code 0, no tags), then the marker. State is untouched. |
| Dispatch.HandlerErrorBecomesErrorFrame | crates/remote_server/src/remote_server.rs:107-109 | A handler returning `Err(e)` produces exactly one error frame carrying e's text, then the marker. |
| Dispatch.Routes | crates/remote_server/src/remote_server.rs:102-105 | A request whose type has an entry is served by that entry's closure, called with the correlator shared once. |
| Dispatch.WellKeyedLookup | crates/remote_server/src/remote_server.rs:282-285 | In a well-keyed registry, the entry under a handler's type is that handler. |
| Dispatch.SuccessfulStepFrames | crates/remote_server/src/remote_server.rs:105-109 | A successful handler that kept no extra copy is followed by the marker and nothing else. |
| Dispatch.PingIsAcked | crates/remote_server/src/remote_server.rs:148-156 | A ping produces exactly `Ack` (responding to its id) followed by the marker. |
| Dispatch.PingSevenScenario | crates/remote_server/src/remote_server.rs:80-90 | On the built registry, ping with id 7 is answered with an `Ack` responding to 7, then a marker responding to 7. |
| Dispatch.ReadFileAnswersContent | crates/remote_server/src/remote_server.rs:158-167 | A readable file produces exactly its content reply, then the marker. |
| Dispatch.ReadFileAnswersError | crates/remote_server/src/remote_server.rs:158-167 | An unreadable file produces exactly one error frame with the load error's text, then the marker. |
| Dispatch.MissingFileScenario | crates/remote_server/src/remote_server.rs:164 | On the built registry, reading a missing "/missing" as request 8 gives one error frame and one marker, both responding to 8. |
| Dispatch.StatAnswers | crates/remote_server/src/remote_server.rs:233-253 | A stat with metadata produces the `StatResponse` then the marker. A stat without metadata produces the marker alone. |
| Dispatch.WriteFileOnlyCompletes | crates/remote_server/src/remote_server.rs:255-272 | A successful write produces only the marker; a failed one produces its error frame, then the marker. |
| Dispatch.AddWorktreeSubscribes | crates/remote_server/src/remote_server.rs:115-146 | A worktree that opens is appended to the state and its id is replied. One owner, the subscription, still holds the correlator, so no marker is sent yet. |
| Dispatch.SubscriptionEndsWithMarker | crates/remote_server/src/remote_server.rs:132-139 | While the subscription is the last owner it forwards every update in order. When it ends, the original request's marker follows, once, last. |
| Dispatch.DispatchStateEffect | crates/remote_server/src/remote_server.rs:140 | Only a successful `add_worktree` changes the server state, by appending its worktree. Every other request leaves the state as it was. |
| Dispatch.WorktreesGrowWithSubscriptions | crates/remote_server/src/remote_server.rs:121-140 | Over a run of requests, the worktree list only grows, by one per successful `add_worktree`. Each such request leaves exactly one live subscription holding its correlator. The entry-id allocator is shared, never replaced. |
| StatusBar.LeftTool | crates/ui/src/components/status_bar.rs:53-63 | `left_tool` puts the tool in front of the existing left tools (none if there was no group), with the given active index. The right and bottom groups are untouched. |
| StatusBar.RightTool | crates/ui/src/components/status_bar.rs:65-75 | `right_tool` as written: the new right group is the tool followed by the old left tools. The left group is taken and the bottom group is untouched. |
| StatusBar.BottomTool | crates/ui/src/components/status_bar.rs:77-87 | `bottom_tool` as written: the new bottom group is the tool followed by the old left tools. The left group is taken and the right group is untouched. |
| StatusBar.NewStatusBar | crates/ui/src/components/status_bar.rs:43-50 | `status_bar()` starts with no left, right or bottom group. |
| StatusBar.FirstToolStartsItsGroup | crates/ui/src/components/status_bar.rs:26-50 | A missing group counts as the default (empty) group, so the first tool put anywhere on a fresh bar forms a one-tool group there, and the other groups stay absent. |
| StatusBar.LeftToolsNewestFirst | crates/ui/src/components/status_bar.rs:53-61 | A chain of `left_tool` calls lists its tools newest first, ahead of the tools already there. The other groups never change. |
| StatusBar.ReplacedGroupIsDiscarded | crates/ui/src/components/status_bar.rs:66-68 | What the right (or bottom) group held before plays no part in `right_tool` (or `bottom_tool`): it is replaced, not extended. |
| StatusBar.RightToolTakesLeftGroup | crates/ui/src/components/status_bar.rs:68 | `left_tool(Terminal)` then `right_tool(Assistant)` leaves no left group and a right group [Assistant, Terminal]. |
| StatusBar.BottomToolTakesLeftGroup | crates/ui/src/components/status_bar.rs:80 | `left_tool(Terminal)` then `bottom_tool(Diagnostics)` leaves no left group and a bottom group [Diagnostics, Terminal]. |
| StatusBar.WrittenBuildersDoNotCommute | crates/ui/src/components/status_bar.rs:53-75 | As written, a left tool and a right tool give different bars depending on the order of the calls. |
| StatusBar.RightToolIntended | crates/ui/src/components/status_bar.rs:65-75 | Corrected `right_tool`: the tool goes in front of the existing right tools, and the left and bottom groups are untouched. |
| StatusBar.BottomToolIntended | crates/ui/src/components/status_bar.rs:77-87 | Corrected `bottom_tool`: the tool goes in front of the existing bottom tools, and the left and right groups are untouched. |
| StatusBar.IntendedBuildersCommute | crates/ui/src/components/status_bar.rs:53-87 | With the corrected builders, calls that target different groups commute: each group is built independently. |

Assumptions the source does not settle:

- The generated protocol enum is not part of this model. `proto::write_file::LineEnding::Unix` is taken to be 0 (`UNIX_LINE_ENDING`), and the model's property does not depend on that value.
- `write_file` sends no payload, so its declared response type does not matter. `Answers` pairs it with `Ack`.

## Left out

- Logging with `eprintln!` (lines 104, 106): it has no effect on the frames sent.
- `Server::init`, `Server::new`, and the `static HANDLERS` / `Once` initialisation (lines 36-37, 59-78): these are global one-time set-up. The model instead passes the built registry explicitly.
- The commented-out `watch` handler (lines 210-231): it is not compiled.
- Errors from `read_with` and `update` when the app context has been released (the `?` at lines 123 and 144). `Host.openWorktree` covers every error `Worktree::local` can return. A context released between the two calls is not modelled.
- The `mtime` conversion (lines 244-248): `duration_since(UNIX_EPOCH).unwrap().as_millis() as u64` is taken as already done by the metadata oracle. Its panic on pre-epoch times and its 64-bit truncation are not modelled.
- `to_string_lossy` on paths: paths are strings throughout.
- Worktree internals, the entry-id allocator's counting, worktree-id uniqueness and the file system's state. These are oracles. In particular, that `read_file` returns what `write_file` saved is not modelled, because it depends on the real file system.
- Directory streams that never end: `read_dir`'s stream is a finite sequence.
- Concurrency: requests are dispatched one after another. Interleaved futures, the executor and channel back-pressure are not modelled. Frames from a subscription and from later requests are not interleaved.
- `Response::send_error` (lines 305-308) is unused. It forwards to `ResponseInner::send_error`, which `Correlator.SendError` models.
- Frames after a panic: when the downcast in a registry entry panics (line 285), unwinding would drop both correlator copies and the marker would still go out. `Dispatched.Panicked` carries no channel, so those frames are not modelled. `Dispatch.EveryRequestSettles` shows that a well-keyed registry never panics, and `Registry.Add` keeps registries well-keyed.
- `Tool`'s derived `Default` (lines 10-13): nothing in the builders uses it.
- Rendering of the status bar (lines 89-146) and everything in `gpui.rs`: these are presentation only.
- `StatusBar.LeftTool`, `StatusBar.RightTool`, `StatusBar.BottomTool`: the active index is stored as given, and no bound relates it to the group's length, because the source checks none.

## Findings

| source | as written | input that shows it | evidently intended | confidence | as-written member | corrected member |
|---|---|---|---|---|---|---|
| crates/ui/src/components/status_bar.rs:68 | `right_tool` extends the new right group with `self.left_tools.take()`, emptying the left group and discarding the previous right tools | `status_bar().left_tool(Terminal, None).right_tool(Assistant, None)` leaves no left group and right = [Assistant, Terminal] | take from `self.right_tools`, leaving the left group alone | medium; not executed | StatusBar.RightToolTakesLeftGroup | StatusBar.RightToolIntended |
| crates/ui/src/components/status_bar.rs:80 | `bottom_tool` extends the new bottom group with `self.left_tools.take()`, emptying the left group and discarding the previous bottom tools | `status_bar().left_tool(Terminal, None).bottom_tool(Diagnostics, None)` leaves no left group and bottom = [Diagnostics, Terminal] | take from `self.bottom_tools`, leaving the left group alone | medium; not executed | StatusBar.BottomToolTakesLeftGroup | StatusBar.BottomToolIntended |

For the corrected builders, `StatusBar.IntendedBuildersCommute` proves that calls targeting different groups are independent. `StatusBar.WrittenBuildersDoNotCommute` shows that this fails for the builders as written.
