# Turtl core: messenger and command router

This project models the control core of the Turtl client core (`core-rs`).
That core is the part that sits between the UI and the rest of the core.

- **The messenger** (`src/messaging.rs`) owns a pair of named channels.
  It receives on `<base>-core-in` and sends on `<base>-core-out`. A reversed
  messenger has the two swapped. A `bound` flag keeps the receive loop
  running. The loop hands every received message to the work pipeline. It
  stops at the literal `turtl:internal:msg:shutdown`, which the shutdown
  function puts on the loop's own in-channel. Responses and events are
  two-member records, `e` first and `d` second.
- **The router** (`src/dispatch.rs`) handles one message of the form
  `["<message id>", "<command>", arg2, ...]`. `process` pulls out the id
  and the command. Without both it drops the message. Otherwise it calls
  `dispatch`, a total case analysis over the command string, and sends
  exactly one success or error response under the message's id.

The Dafny modules:

- `Wrappers`: `Option` and `Result`.
- `Errors`: the error kinds these files raise.
- `Json`: parsed JSON values. It also defines the path lookup that
  `jedi::get` performs: an array element is chosen by a decimal key, an
  object member by name.
- `Dispatch`: the router and `process`.
- `Messaging`: the channel names, `Response`/`Event`, the `Carrier`
  queues, the `Messenger` class, the receive loop, the shutdown signal and
  the in-order pipeline.

The router's collaborators are modelled as oracles. These are the session,
the sync system, the configuration store, `save_model`/`delete_model`, the
search index, `load_notes`, the event emitter and `msg_success`/`msg_error`.
Every call to one of them is appended to a log of `Call`s. An `Env` of
total functions of that log decides what each call answers. So the order of
calls, and which calls are made at all, are part of every statement about
the router.

The transport is a `Carrier`: one FIFO queue of strings per channel name.
The blocking receive of the loop is represented by the sequence of results
it returns. Configuration lookups (`messaging.reqres`, `messaging.events`)
enter as `Result` parameters. JSON text parsing (`jedi::parse`) and
stringifying (`jedi::stringify`) enter as function parameters.

Three facts about the code that the model keeps:

- `profile:find-notes` and `profile:get-tags` read their arguments before
  they check for the search index (`src/dispatch.rs:151-153`, `:162-166`).
  So a malformed argument is reported even when the index is missing.
- Both commands report a missing index with the same text, which names
  `profile:find-notes` (`src/dispatch.rs:154` and `:167`).
- An error response has `e > 0` (`src/messaging.rs:28`).

## Model

| member | source | states |
|---|---|---|
| `Dispatch.Dispatch` | src/dispatch.rs:27-180 | every command keeps the earlier call log as a prefix, adds at most two collaborator calls, and never sends a response itself |
| `Dispatch.Process` | src/dispatch.rs:185-216 | a message that fails anywhere before dispatch leaves the call log untouched, so nothing is sent for it |
| `Dispatch.ProcessUnparsable` | src/dispatch.rs:186 | a message that does not parse fails with the parser's error and calls nothing |
| `Dispatch.ProcessMissingMid` | src/dispatch.rs:189-192 | no string at element 0 gives `MissingField("missing mid (0)")`, whatever element 1 holds, with no call and no response |
| `Dispatch.ProcessMissingCmd` | src/dispatch.rs:194-197 | an id without a string command at element 1 gives `MissingField("missing cmd (1)")` with no call and no response |
| `Dispatch.ProcessRespondsOnce` | src/dispatch.rs:199-215 | `process` succeeds exactly when the message is addressable; then the last call is the only response, `msg_success(mid, v)` if dispatch gave `v` and `msg_error(mid, e)` if it failed with `e`; an unaddressable message gets no response |
| `Dispatch.UnknownCommand` | src/dispatch.rs:177-179 | the router answers `MissingCommand(cmd)` without any call if and only if `cmd` is not one of the 17 routed commands |
| `Dispatch.Ping` | src/dispatch.rs:173-176 | `ping` answers the string "pong" and calls nothing |
| `Dispatch.ControlCommands` | src/dispatch.rs:41-69 | logout, delete-account, wipe-local-data, start-sync and shutdown-sync (`sync_shutdown(true)`) each make their one call and answer `{}`, or pass the collaborator's error on unchanged |
| `Dispatch.PauseResume` | src/dispatch.rs:58-65 | pause-sync and resume-sync make their one call and always answer `{}` |
| `Dispatch.Shutdown` | src/dispatch.rs:75-80 | `app:shutdown` calls `sync_shutdown(false)` and only after it succeeds raises the "app:shutdown" event, then answers `{}`; on failure no event is raised and the error passes through |
| `Dispatch.LoginJoin` | src/dispatch.rs:29-40 | login and join read username (element 2) then password (element 3), reporting the first missing one; they log in or join once and answer `{}` or the session's error |
| `Dispatch.SetEndpoint` | src/dispatch.rs:70-74 | `app:api:set-endpoint` stores the string at element 2 under configuration key `api.endpoint` and answers `{}` or the store's error |
| `Dispatch.SyncModelUnknownAction` | src/dispatch.rs:89-143 | an action outside create/update/delete is `BadValue` ending with that action, and nothing is called |
| `Dispatch.SyncModelSave` | src/dispatch.rs:94-119 | for create/update, an unknown type is `BadValue` naming it, reported before element 4 is read; otherwise `save_model` is called once and its value or error is the result |
| `Dispatch.SyncModelDelete` | src/dispatch.rs:120-141 | for delete, a missing `data[4].id` is reported before the type check; an unknown type is `BadValue` naming it; otherwise `delete_model` is called once and success is `{}` |
| `Dispatch.SyncModelCallsOnlyWhenAccepted` | src/dispatch.rs:89-144 | `profile:sync:model` calls a model collaborator only for an accepted action and type, exactly once, and calls `save_model` exactly when the action is not delete |
| `Dispatch.FindNotesWithoutSearch` | src/dispatch.rs:150-155 | without a search index, find-notes fails with `MissingField` once its query is read, with no search and no note load |
| `Dispatch.FindNotesWithSearch` | src/dispatch.rs:156-159 | with an index, the found ids are loaded as notes; a search failure passes through and nothing is loaded |
| `Dispatch.GetTags` | src/dispatch.rs:161-172 | get-tags reports a bad space, then bad boards, then a bad or out-of-range 32-bit limit, then a missing index, and only then asks for tag frequencies |
| `Dispatch.GetNotes` | src/dispatch.rs:145-149 | get-notes loads the notes whose ids are the string list at element 2 |
| `Dispatch.ProfileLoad` | src/dispatch.rs:81-88 | profile:load answers the cached spaces and boards and calls nothing |
| `Dispatch.PingScenario` | src/dispatch.rs:173-176 | `["abc123","ping"]` is answered by exactly `msg_success("abc123", "pong")` |
| `Dispatch.BogusTypeScenario` | src/dispatch.rs:116 | `["x3","profile:sync:model","create","bogus",{}]` is answered by a `BadValue` error naming "bogus" and nothing is saved |
| `Dispatch.FindBeforeSearchScenario` | src/dispatch.rs:150-155 | a find-notes request before the search index exists is answered with a `MissingField` error |
| `Dispatch.LoginScenario` | src/dispatch.rs:29-34 | `["x1","user:login","alice","hunter2"]` logs in once and is answered with `{}` or with the session's error |
| `Messaging.InOutNeverCollide` | src/messaging.rs:80-86 | no in-channel name equals any out-channel name, for any two bases |
| `Messaging.ChannelNamesInjective` | src/messaging.rs:80-86 | different bases give different in-channels and different out-channels |
| `Messaging.Messenger.WithChannel` | src/messaging.rs:80-86 | a new messenger is bound, receives on `<c>-core-in` and sends on `<c>-core-out` |
| `Messaging.Messenger.FromConfig` | src/messaging.rs:89-99 | the base is the configured `messaging.reqres`, or `inproc://turtl` when the lookup fails |
| `Messaging.Messenger.Reversed` | src/messaging.rs:103-109 | the reversed messenger is bound and has the two channels of `new_with_channel` swapped |
| `Messaging.Messenger.IsBound` | src/messaging.rs:171-173 | `is_bound` reports the `bound` flag: true for a new messenger, false after `shutdown`, and it is the receive loop's guard |
| `Messaging.Messenger.Shutdown` | src/messaging.rs:166-173 | after shutdown `is_bound` is false and both channel names are unchanged; a second shutdown has the same outcome |
| `Messaging.Messenger.Send` | src/messaging.rs:145-149 | the message is appended to the out-channel's queue and no other queue changes |
| `Messaging.Messenger.SendSuffix` | src/messaging.rs:152-156 | the message is appended to the queue of `<out>:<suffix>` and no other queue changes |
| `Messaging.Messenger.SendRev` | src/messaging.rs:159-163 | the message is appended to the messenger's own in-channel queue and no other queue changes |
| `Messaging.Messenger.RecvNb` | src/messaging.rs:133-142 | with nothing pending the result is `TryAgain` and nothing changes; otherwise the oldest message of the in-channel is returned and removed |
| `Messaging.Messenger.SendEvent` | src/messaging.rs:112-122 | a failed event-channel lookup or serialization is returned and nothing is sent; otherwise the serialized `{e: name, d: data}` is appended to the event channel |
| `Messaging.PeerExchange` | src/messaging.rs:286-289 | what a reversed peer sends, the messenger on the same base receives, and the messenger's answer reaches the peer; both queues end empty and every other channel's queue is unchanged |
| `Messaging.ResponseToJson` | src/messaging.rs:44-53 | a serialized response has exactly two members, `e` then `d` |
| `Messaging.EventToJson` | src/messaging.rs:55-65 | a serialized event has exactly two members, `e` then `d` |
| `Messaging.ResponseRoundTrip` | src/messaging.rs:44-53 | reading back a serialized response gives it back, and only serialized responses read back as responses |
| `Messaging.EventRoundTrip` | src/messaging.rs:55-65 | reading back a serialized event gives it back, and only serialized events read back as events |
| `Messaging.RunLoop` | src/messaging.rs:198-219 | the loop never forwards the sentinel; it is still bound exactly when no sentinel was received; if it stopped, the last result it read is the first sentinel |
| `Messaging.RunLoopForwardsTextsBeforeSentinel` | src/messaging.rs:198-219 | the loop forwards exactly the texts received before the first sentinel, in receive order, skipping receive errors, and reads up to and including that sentinel |
| `Messaging.RunLoopStep` | src/messaging.rs:200-218 | one receive on a bound loop: the sentinel unbinds it, a text is appended to the pipeline, an error only advances |
| `Messaging.RunLoopStopped` | src/messaging.rs:202-205 | once the loop has unbound, later receive results change nothing |
| `Messaging.SentinelIdempotent` | src/messaging.rs:202-205 | sending the sentinel twice has the same effect as sending it once, and one sentinel always stops the loop |
| `Messaging.Start` | src/messaging.rs:193-221 | the loop over a fresh messenger from configuration ends in the state `RunLoop` gives: same bound flag, same number of results read, same pipeline |
| `Messaging.SignalShutdown` | src/messaging.rs:222-232 | the shutdown function appends exactly the sentinel to the in-channel of the configured base, the channel the loop reads, and changes no other queue |
| `Messaging.Serve` | src/messaging.rs:207-213 | running `process` on each forwarded message in turn only ever extends the call log |
| `Messaging.ServeAnswersInOrder` | src/messaging.rs:207-213 | the pipeline sends one response per addressable message, in forwarding order, each under its message's id |
| `Messaging.LoopAnswersInOrder` | src/messaging.rs:198-219 | every addressable message received before the first sentinel is answered exactly once, in receive order, under its own id |

## Left out

- Threads: the messaging thread, `JoinHandle`, the `Pipeline` work queue and `MsgThunk` boxing are concurrency. The pipeline is modelled as `Serve`, which runs the forwarded messages one after another in order.
- The threaded test at `src/messaging.rs:257-293` is concurrent. `PeerExchange` states its exchange sequentially.
- Transport I/O of the `carrier` crate is replaced by the `Carrier` queues. A send always succeeds, so the logged send failures (for example in the shutdown function, `src/messaging.rs:227-230`) are not modelled. Receiving strings leaves out the UTF-8 decoding failure of `recv`/`recv_nb`. For the loop, such a failure is one more `Failure` among its receive results.
- Messaging.Start: it stops when its sequence of receive results runs out. The real loop would instead block in `recv` with `bound` still set.
- JSON text: `jedi::parse`, `jedi::stringify` and serde's `Serializer` are parameters or are left out. The ordered members of `Json.Obj` stand for the fixed field order of `serialize_struct`. The struct name `"res"` is not kept. JSON numbers are integers; floating point is not modelled.
- `jedi::get` errors are modelled as `JsonPath(path)`, because the crate's error text is not part of this model. Deserialisation into domain records (`User`, `Space`, `Board`, `Note`, `Invite`, `Query`) is modelled as presence only. Validating those records belongs to the collaborators.
- `jedi::to_val` is left out. In `profile:load`, `profile:get-notes`, `profile:find-notes` and `profile:get-tags` its serialization failure is not modelled: collaborators answer in JSON directly. The `profile:load` object is built from a hash map in the source, so its member order is not fixed there. The model lists `spaces` first.
- Configuration storage behind `config::get`/`config::set` is left out. Lookups are `Result` parameters, and `config::set` is one more collaborator call.
- Logging macros, `util::sleep(1000)` in `user:logout`, and the panics from `RwLock::read().unwrap()` on a poisoned lock are left out.
- Collaborator internals are left out: login, join, logout, account deletion, wiping local data, the sync system, `save_model`, `delete_model`, the search index, `load_notes`, the event emitter, and how `msg_success`/`msg_error` build and send a `Response`. Only their calls, the order of those calls and their answers are modelled.
- The sync workers (`src/sync/outgoing.rs`, with its name `"outgoing"`, its delay of 1000 ms and a `run_sync` that only prints) are not part of this model. Neither are `SyncConfig` and the per-worker tick loop. The router reaches the sync system only through its calls.
- A path key used on an array is read as a non-empty string of decimal digits. Other spellings that Rust's integer parsing might accept, such as a leading `+`, are not modelled. The router only uses the keys `0`–`4` and `id`.
