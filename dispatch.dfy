/** The RPC endpoint of the core: `process` takes one message of the form
    `["<message id>", "<command>", arg2, arg3, ...]`, hands the command to the
    router `dispatch`, and answers with exactly one success or error response
    addressed by the message id.

    Everything the router calls out to (the session, the sync system, the
    configuration store, the model store, the search index, the event emitter
    and the response channel) is a collaborator. Each call is appended, in
    order, to a log of `Call`s, and what a call returns is decided by an
    `Env`: a set of total functions of the log so far, so a collaborator may
    answer differently as the log grows. */
module Dispatch {
  import opened Wrappers
  import opened Errors
  import opened Json

  /** One call into a collaborator. */
  datatype Call =
    | Login(username: string, password: string)
    | Join(username: string, password: string)
    | Logout
    | DeleteAccount
    | WipeLocalData
    | SyncStart
    | SyncPause
    | SyncResume
    | SyncShutdown(wait: bool)
    | ConfigSet(path: seq<string>, setting: string)
    | Trigger(event: string, data: Json)
    | SaveModel(ty: string, model: Json)
    | DeleteModel(ty: string, id: string)
    | Find(query: Json)
    | TagsByFrequency(space: string, boards: seq<string>, limit: int)
    | LoadNotes(ids: seq<string>)
    | MsgSuccess(mid: string, value: Json)
    | MsgError(mid: string, error: TError)
  {
    /** A response sent back to the client (`msg_success` / `msg_error`). */
    predicate IsResponse() {
      MsgSuccess? || MsgError?
    }
  }

  /** What the collaborators answer, as functions of the calls made so far.
      `reply` answers every call whose result the router inspects, except
      the search query, whose answer is a list of note ids. `hasSearch` says
      whether the search index exists; `spaces` and `boards` are the
      profile cache as JSON. */
  datatype Env = Env(
    reply: (seq<Call>, Call) -> Result<Json, TError>,
    findIds: (seq<Call>, Json) -> Result<seq<string>, TError>,
    hasSearch: seq<Call> -> bool,
    spaces: seq<Call> -> Json,
    boards: seq<Call> -> Json)

  /** The result of a step together with the call log after it. */
  datatype Step<T> = Step(result: Result<T, TError>, log: seq<Call>)

  /** Every command string `dispatch` routes. */
  const Commands: set<string> := {
    "user:login", "user:join", "user:logout", "user:delete-account",
    "app:wipe-local-data", "app:start-sync", "app:pause-sync", "app:resume-sync",
    "app:shutdown-sync", "app:api:set-endpoint", "app:shutdown",
    "profile:load", "profile:sync:model", "profile:get-notes",
    "profile:find-notes", "profile:get-tags", "ping"
  }

  /** The actions and the entity types `profile:sync:model` accepts. */
  const SyncActions: set<string> := {"create", "update", "delete"}
  const SyncTypes: set<string> := {"user", "space", "board", "note", "invite"}

  const UnknownTypePrefix: string := "dispatch: profile:sync:model -- unknown sync type "
  const UnknownActionPrefix: string := "dispatch: profile:sync:model -- unknown sync action "
  /** The same text is used by `profile:find-notes` and `profile:get-tags`. */
  const NoSearchMessage: string := "dispatch: profile:find-notes -- turtl is missing `search` object"
  const MissingMid: string := "missing mid (0)"
  const MissingCmd: string := "missing cmd (1)"

  function Fail<T>(e: TError, log: seq<Call>): Step<T> {
    Step(Failure(e), log)
  }

  /** Make the call `c` and return what the collaborator answers. */
  function Invoke(env: Env, log: seq<Call>, c: Call): Step<Json> {
    Step(env.reply(log, c), log + [c])
  }

  /** `collaborator(...)?; Ok(v)`: a failure passes through unchanged,
      a success is replaced by `v`. */
  function OkWith(s: Step<Json>, v: Json): Step<Json> {
    if s.result.Failure? then s else Step(Success(v), s.log)
  }

  /** The router: one case per command string. */
  function Dispatch(env: Env, log: seq<Call>, cmd: string, data: Json): (out: Step<Json>)
    ensures |log| <= |out.log| <= |log| + 2 && out.log[..|log|] == log
    ensures forall i | |log| <= i < |out.log| :: !out.log[i].IsResponse()
  {
    match cmd
    case "user:login" =>
      var username := GetString(data, ["2"]);
      var password := GetString(data, ["3"]);
      if username.Failure? then Fail(username.error, log)
      else if password.Failure? then Fail(password.error, log)
      else OkWith(Invoke(env, log, Login(username.value, password.value)), EmptyObject)
    case "user:join" =>
      var username := GetString(data, ["2"]);
      var password := GetString(data, ["3"]);
      if username.Failure? then Fail(username.error, log)
      else if password.Failure? then Fail(password.error, log)
      else OkWith(Invoke(env, log, Join(username.value, password.value)), EmptyObject)
    case "user:logout" =>
      OkWith(Invoke(env, log, Logout), EmptyObject)
    case "user:delete-account" =>
      OkWith(Invoke(env, log, DeleteAccount), EmptyObject)
    case "app:wipe-local-data" =>
      OkWith(Invoke(env, log, WipeLocalData), EmptyObject)
    case "app:start-sync" =>
      OkWith(Invoke(env, log, SyncStart), EmptyObject)
    case "app:pause-sync" =>
      Step(Success(EmptyObject), log + [SyncPause])
    case "app:resume-sync" =>
      Step(Success(EmptyObject), log + [SyncResume])
    case "app:shutdown-sync" =>
      OkWith(Invoke(env, log, SyncShutdown(true)), EmptyObject)
    case "app:api:set-endpoint" =>
      var endpoint := GetString(data, ["2"]);
      if endpoint.Failure? then Fail(endpoint.error, log)
      else OkWith(Invoke(env, log, ConfigSet(["api", "endpoint"], endpoint.value)), EmptyObject)
    case "app:shutdown" =>
      var stop := Invoke(env, log, SyncShutdown(false));
      if stop.result.Failure? then stop
      else Step(Success(EmptyObject), stop.log + [Trigger("app:shutdown", EmptyObject)])
    case "profile:load" =>
      Step(Success(Obj([("spaces", env.spaces(log)), ("boards", env.boards(log))])), log)
    case "profile:sync:model" =>
      var action := GetString(data, ["2"]);
      var ty := GetString(data, ["3"]);
      if action.Failure? then Fail(action.error, log)
      else if ty.Failure? then Fail(ty.error, log)
      else SyncModel(env, log, action.value, ty.value, data)
    case "profile:get-notes" =>
      var ids := GetStrings(data, ["2"]);
      if ids.Failure? then Fail(ids.error, log)
      else Invoke(env, log, LoadNotes(ids.value))
    case "profile:find-notes" =>
      var query := GetValue(data, ["2"]);
      if query.Failure? then Fail(query.error, log)
      else if !env.hasSearch(log) then Fail(MissingField(NoSearchMessage), log)
      else FindNotes(env, log, query.value)
    case "profile:get-tags" =>
      var space := GetString(data, ["2"]);
      var boards := GetStrings(data, ["3"]);
      var limit := GetI32(data, ["4"]);
      if space.Failure? then Fail(space.error, log)
      else if boards.Failure? then Fail(boards.error, log)
      else if limit.Failure? then Fail(limit.error, log)
      else if !env.hasSearch(log) then Fail(MissingField(NoSearchMessage), log)
      else Invoke(env, log, TagsByFrequency(space.value, boards.value, limit.value))
    case "ping" =>
      Step(Success(Str("pong")), log)
    case _ =>
      Fail(MissingCommand(cmd), log)
  }

  /** `profile:sync:model` once its action and type strings are known. */
  function SyncModel(env: Env, log: seq<Call>, action: string, ty: string, data: Json): Step<Json> {
    if action == "create" || action == "update" then
      if ty !in SyncTypes then Fail(BadValue(UnknownTypePrefix + ty), log)
      else
        var model := GetValue(data, ["4"]);
        if model.Failure? then Fail(model.error, log)
        else Invoke(env, log, SaveModel(ty, model.value))
    else if action == "delete" then
      var id := GetString(data, ["4", "id"]);
      if id.Failure? then Fail(id.error, log)
      else if ty !in SyncTypes then Fail(BadValue(UnknownTypePrefix + ty), log)
      else OkWith(Invoke(env, log, DeleteModel(ty, id.value)), EmptyObject)
    else Fail(BadValue(UnknownActionPrefix + action), log)
  }

  /** `profile:find-notes` once the search index is known to exist. */
  function FindNotes(env: Env, log: seq<Call>, query: Json): Step<Json> {
    var ids := env.findIds(log, query);
    var log' := log + [Find(query)];
    if ids.Failure? then Fail(ids.error, log')
    else Invoke(env, log', LoadNotes(ids.value))
  }

  /** The response `process` sends for a dispatch result. */
  function Reply(mid: string, r: Result<Json, TError>): Call {
    match r
    case Success(v) => MsgSuccess(mid, v)
    case Failure(e) => MsgError(mid, e)
  }

  /** `process`: parse, take the id and the command, dispatch, respond.
      A failure to send the response is only logged, so once both id and
      command are present the result is success. */
  function Process(env: Env, log: seq<Call>, parse: string -> Result<Json, TError>, msg: string): (out: Step<()>)
    ensures out.result.Failure? ==> out.log == log
  {
    var data := parse(msg);
    if data.Failure? then Fail(data.error, log)
    else
      var mid := GetString(data.value, ["0"]);
      var cmd := GetString(data.value, ["1"]);
      if mid.Failure? then Fail(MissingField(MissingMid), log)
      else if cmd.Failure? then Fail(MissingField(MissingCmd), log)
      else
        var d := Dispatch(env, log, cmd.value, data.value);
        Step(Success(()), d.log + [Reply(mid.value, d.result)])
  }

  /** A message `process` can answer: it parses and carries an id and a
      command string. */
  predicate Addressable(parse: string -> Result<Json, TError>, msg: string) {
    && parse(msg).Success?
    && GetString(parse(msg).value, ["0"]).Success?
    && GetString(parse(msg).value, ["1"]).Success?
  }

  /** The ids of the responses among `calls`, in order. */
  function ResponseIds(calls: seq<Call>): seq<string> {
    if calls == [] then []
    else (if calls[0].IsResponse() then [calls[0].mid] else []) + ResponseIds(calls[1..])
  }

  lemma {:induction false} ResponseIdsAppend(a: seq<Call>, b: seq<Call>)
    ensures ResponseIds(a + b) == ResponseIds(a) + ResponseIds(b)
  {
    if a == [] {
      assert a + b == b;
    } else {
      assert (a + b)[0] == a[0] && (a + b)[1..] == a[1..] + b;
      ResponseIdsAppend(a[1..], b);
    }
  }

  lemma {:induction false} NoResponseIds(calls: seq<Call>)
    requires forall i | 0 <= i < |calls| :: !calls[i].IsResponse()
    ensures ResponseIds(calls) == []
  {
    if calls != [] {
      NoResponseIds(calls[1..]);
    }
  }

  // ---------------------------------------------------------------------
  // process: the envelope

  /** A message that does not parse is dropped with the parser's error, and
      nothing is sent. */
  lemma ProcessUnparsable(env: Env, log: seq<Call>, parse: string -> Result<Json, TError>, msg: string)
    requires parse(msg).Failure?
    ensures Process(env, log, parse, msg) == Step(Failure(parse(msg).error), log)
  {
  }

  /** Without a string id at element 0 the message fails with
      `MissingField("missing mid (0)")`, whatever element 1 holds, and no
      collaborator is called, so no response goes out. */
  lemma ProcessMissingMid(env: Env, log: seq<Call>, parse: string -> Result<Json, TError>, msg: string)
    requires parse(msg).Success? && GetString(parse(msg).value, ["0"]).Failure?
    ensures Process(env, log, parse, msg) == Step(Failure(MissingField("missing mid (0)")), log)
  {
  }

  /** With an id but without a string command at element 1 the message fails
      with `MissingField("missing cmd (1)")` and nothing is called. */
  lemma ProcessMissingCmd(env: Env, log: seq<Call>, parse: string -> Result<Json, TError>, msg: string)
    requires parse(msg).Success? && GetString(parse(msg).value, ["0"]).Success?
    requires GetString(parse(msg).value, ["1"]).Failure?
    ensures Process(env, log, parse, msg) == Step(Failure(MissingField("missing cmd (1)")), log)
  {
  }

  /** An addressable message gets exactly one response, the last call made,
      carrying the message's own id: `msg_success` with the routed value when
      dispatch succeeds, `msg_error` with its error otherwise; and `process`
      itself succeeds either way. A message that is not addressable fails and
      gets none. */
  lemma {:induction false} ProcessRespondsOnce(env: Env, log: seq<Call>, parse: string -> Result<Json, TError>, msg: string)
    ensures var out := Process(env, log, parse, msg);
      && out.log[..|log|] == log
      && (Addressable(parse, msg) <==> out.result.Success?)
      && (Addressable(parse, msg) ==>
            var data := parse(msg).value;
            var mid := GetString(data, ["0"]).value;
            var d := Dispatch(env, log, GetString(data, ["1"]).value, data);
            && out.log == d.log + [Reply(mid, d.result)]
            && ResponseIds(out.log[|log|..]) == [mid]
            && (d.result.Success? ==> out.log[|out.log| - 1] == MsgSuccess(mid, d.result.value))
            && (d.result.Failure? ==> out.log[|out.log| - 1] == MsgError(mid, d.result.error)))
      && (!Addressable(parse, msg) ==> ResponseIds(out.log[|log|..]) == [])
  {
    var out := Process(env, log, parse, msg);
    if Addressable(parse, msg) {
      var data := parse(msg).value;
      var mid := GetString(data, ["0"]).value;
      var d := Dispatch(env, log, GetString(data, ["1"]).value, data);
      var extra := d.log[|log|..];
      assert d.log == log + extra;
      assert out.log[|log|..] == extra + [Reply(mid, d.result)];
      NoResponseIds(extra);
      ResponseIdsAppend(extra, [Reply(mid, d.result)]);
    } else {
      assert out.log[|log|..] == [];
    }
  }

  // ---------------------------------------------------------------------
  // dispatch: routing

  /** The router answers `MissingCommand(cmd)` without calling anything
      exactly when `cmd` is not one of its commands. */
  lemma UnknownCommand(env: Env, log: seq<Call>, cmd: string, data: Json)
    ensures cmd !in Commands <==>
      (Dispatch(env, log, cmd, data).result == Failure(MissingCommand(cmd))
       && Dispatch(env, log, cmd, data).log == log)
  {
  }

  /** `ping` answers the string "pong" and calls nothing. */
  lemma Ping(env: Env, log: seq<Call>, data: Json)
    ensures Dispatch(env, log, "ping", data) == Step(Success(Str("pong")), log)
  {
  }

  // ---------------------------------------------------------------------
  // dispatch: control and session commands

  /** Commands that call one collaborator and answer an empty object: the
      call is made exactly once, with no other call, and its failure is
      passed on unchanged. */
  lemma ControlCommands(env: Env, log: seq<Call>, cmd: string, data: Json, c: Call)
    requires (cmd, c) in {("user:logout", Logout), ("user:delete-account", DeleteAccount),
                          ("app:wipe-local-data", WipeLocalData), ("app:start-sync", SyncStart),
                          ("app:shutdown-sync", SyncShutdown(true))}
    ensures Dispatch(env, log, cmd, data).log == log + [c]
    ensures Dispatch(env, log, cmd, data).result ==
      if env.reply(log, c).Success? then Success(EmptyObject) else env.reply(log, c)
  {
  }

  /** `app:pause-sync` and `app:resume-sync` cannot fail. */
  lemma PauseResume(env: Env, log: seq<Call>, data: Json)
    ensures Dispatch(env, log, "app:pause-sync", data) == Step(Success(EmptyObject), log + [SyncPause])
    ensures Dispatch(env, log, "app:resume-sync", data) == Step(Success(EmptyObject), log + [SyncResume])
  {
  }

  /** `app:shutdown` stops the sync system without waiting and only then
      raises the "app:shutdown" event; if stopping fails, no event is raised
      and the error is passed on. */
  lemma Shutdown(env: Env, log: seq<Call>, data: Json)
    ensures var out := Dispatch(env, log, "app:shutdown", data);
      if env.reply(log, SyncShutdown(false)).Success? then
        out == Step(Success(EmptyObject), log + [SyncShutdown(false), Trigger("app:shutdown", EmptyObject)])
      else
        out == Step(env.reply(log, SyncShutdown(false)), log + [SyncShutdown(false)])
  {
  }

  /** `user:login` and `user:join` take username and password from elements
      2 and 3 (a missing username is reported first) and answer an empty
      object once the session collaborator accepts them. */
  lemma LoginJoin(env: Env, log: seq<Call>, cmd: string, data: Json)
    requires cmd == "user:login" || cmd == "user:join"
    ensures var out := Dispatch(env, log, cmd, data);
      var u := GetString(data, ["2"]);
      var p := GetString(data, ["3"]);
      if u.Failure? then out == Step(Failure(u.error), log)
      else if p.Failure? then out == Step(Failure(p.error), log)
      else
        var c := if cmd == "user:login" then Login(u.value, p.value) else Join(u.value, p.value);
        && out.log == log + [c]
        && out.result == if env.reply(log, c).Success? then Success(EmptyObject) else env.reply(log, c)
  {
  }

  /** `app:api:set-endpoint` stores element 2 at configuration key
      `api.endpoint`. */
  lemma SetEndpoint(env: Env, log: seq<Call>, data: Json)
    ensures var out := Dispatch(env, log, "app:api:set-endpoint", data);
      var e := GetString(data, ["2"]);
      if e.Failure? then out == Step(Failure(e.error), log)
      else
        var c := ConfigSet(["api", "endpoint"], e.value);
        && out.log == log + [c]
        && out.result == if env.reply(log, c).Success? then Success(EmptyObject) else env.reply(log, c)
  {
  }

  // ---------------------------------------------------------------------
  // dispatch: profile commands

  /** An action other than create, update and delete is a `BadValue` naming
      the action, and nothing is called. */
  lemma SyncModelUnknownAction(env: Env, log: seq<Call>, data: Json)
    requires GetString(data, ["2"]).Success? && GetString(data, ["3"]).Success?
    requires GetString(data, ["2"]).value !in SyncActions
    ensures Dispatch(env, log, "profile:sync:model", data) ==
      Step(Failure(BadValue(UnknownActionPrefix + GetString(data, ["2"]).value)), log)
  {
  }

  /** For create and update, a type outside the five entity types is a
      `BadValue` naming the type, reported before element 4 is looked at;
      for a known type the model at element 4 goes to `save_model` and its
      answer, value or error, is the result. */
  lemma SyncModelSave(env: Env, log: seq<Call>, data: Json)
    requires GetString(data, ["2"]).Success? && GetString(data, ["3"]).Success?
    requires GetString(data, ["2"]).value in {"create", "update"}
    ensures var out := Dispatch(env, log, "profile:sync:model", data);
      var ty := GetString(data, ["3"]).value;
      var model := GetValue(data, ["4"]);
      if ty !in SyncTypes then out == Step(Failure(BadValue(UnknownTypePrefix + ty)), log)
      else if model.Failure? then out == Step(Failure(model.error), log)
      else out == Step(env.reply(log, SaveModel(ty, model.value)), log + [SaveModel(ty, model.value)])
  {
  }

  /** For delete, a missing `id` under element 4 is reported before the type
      is checked; then an unknown type is a `BadValue` naming it; otherwise
      `delete_model` is called once and success is an empty object. */
  lemma SyncModelDelete(env: Env, log: seq<Call>, data: Json)
    requires GetString(data, ["2"]) == Success("delete") && GetString(data, ["3"]).Success?
    ensures var out := Dispatch(env, log, "profile:sync:model", data);
      var ty := GetString(data, ["3"]).value;
      var id := GetString(data, ["4", "id"]);
      if id.Failure? then out == Step(Failure(id.error), log)
      else if ty !in SyncTypes then out == Step(Failure(BadValue(UnknownTypePrefix + ty)), log)
      else
        var c := DeleteModel(ty, id.value);
        && out.log == log + [c]
        && out.result == if env.reply(log, c).Success? then Success(EmptyObject) else env.reply(log, c)
  {
  }

  /** `profile:sync:model` calls a model collaborator only for an accepted
      action and type, and then exactly once. */
  lemma SyncModelCallsOnlyWhenAccepted(env: Env, log: seq<Call>, data: Json)
    ensures var out := Dispatch(env, log, "profile:sync:model", data);
      out.log != log ==>
        && GetString(data, ["2"]).Success? && GetString(data, ["2"]).value in SyncActions
        && GetString(data, ["3"]).Success? && GetString(data, ["3"]).value in SyncTypes
        && |out.log| == |log| + 1
        && (out.log[|log|].SaveModel? || out.log[|log|].DeleteModel?)
        && (out.log[|log|].SaveModel? <==> GetString(data, ["2"]).value != "delete")
  {
  }

  /** Without a search index, `profile:find-notes` fails with `MissingField`
      once its query is read, and neither searches nor loads notes. */
  lemma FindNotesWithoutSearch(env: Env, log: seq<Call>, data: Json)
    requires !env.hasSearch(log)
    ensures var q := GetValue(data, ["2"]);
      Dispatch(env, log, "profile:find-notes", data) ==
        if q.Failure? then Step(Failure(q.error), log)
        else Step(Failure(MissingField(NoSearchMessage)), log)
  {
  }

  /** With a search index, the found ids are loaded as notes; a search
      failure is passed on and no notes are loaded. */
  lemma FindNotesWithSearch(env: Env, log: seq<Call>, data: Json)
    requires env.hasSearch(log) && GetValue(data, ["2"]).Success?
    ensures var q := GetValue(data, ["2"]).value;
      var ids := env.findIds(log, q);
      var out := Dispatch(env, log, "profile:find-notes", data);
      if ids.Failure? then out == Step(Failure(ids.error), log + [Find(q)])
      else out == Step(env.reply(log + [Find(q)], LoadNotes(ids.value)), log + [Find(q), LoadNotes(ids.value)])
  {
  }

  /** `profile:get-tags` reads space, boards and limit first (in that order
      of precedence); without a search index it then fails with
      `MissingField` and asks nothing of the index. */
  lemma GetTags(env: Env, log: seq<Call>, data: Json)
    ensures var out := Dispatch(env, log, "profile:get-tags", data);
      var s := GetString(data, ["2"]);
      var b := GetStrings(data, ["3"]);
      var l := GetI32(data, ["4"]);
      if s.Failure? then out == Step(Failure(s.error), log)
      else if b.Failure? then out == Step(Failure(b.error), log)
      else if l.Failure? then out == Step(Failure(l.error), log)
      else if !env.hasSearch(log) then out == Step(Failure(MissingField(NoSearchMessage)), log)
      else
        var c := TagsByFrequency(s.value, b.value, l.value);
        out == Step(env.reply(log, c), log + [c])
  {
  }

  /** `profile:get-notes` loads the notes whose ids are at element 2. */
  lemma GetNotes(env: Env, log: seq<Call>, data: Json)
    ensures var out := Dispatch(env, log, "profile:get-notes", data);
      var ids := GetStrings(data, ["2"]);
      if ids.Failure? then out == Step(Failure(ids.error), log)
      else out == Step(env.reply(log, LoadNotes(ids.value)), log + [LoadNotes(ids.value)])
  {
  }

  /** `profile:load` answers the cached spaces and boards and calls nothing. */
  lemma ProfileLoad(env: Env, log: seq<Call>, data: Json)
    ensures Dispatch(env, log, "profile:load", data) ==
      Step(Success(Obj([("spaces", env.spaces(log)), ("boards", env.boards(log))])), log)
  {
  }

  // ---------------------------------------------------------------------
  // Request scenarios

  /** `["abc123", "ping"]` is answered with success and "pong". */
  lemma PingScenario(env: Env, log: seq<Call>, parse: string -> Result<Json, TError>, msg: string)
    requires parse(msg) == Success(Arr([Str("abc123"), Str("ping")]))
    ensures Process(env, log, parse, msg) == Step(Success(()), log + [MsgSuccess("abc123", Str("pong"))])
  {
    ElementKeys();
  }

  /** `["x3", "profile:sync:model", "create", "bogus", {}]` is answered with
      a `BadValue` error naming "bogus", and no model is saved. */
  lemma BogusTypeScenario(env: Env, log: seq<Call>, parse: string -> Result<Json, TError>, msg: string)
    requires parse(msg) == Success(Arr([Str("x3"), Str("profile:sync:model"), Str("create"), Str("bogus"), EmptyObject]))
    ensures Process(env, log, parse, msg) ==
      Step(Success(()), log + [MsgError("x3", BadValue("dispatch: profile:sync:model -- unknown sync type bogus"))])
  {
    ElementKeys();
    var data := parse(msg).value;
    assert GetString(data, ["2"]) == Success("create");
    assert GetString(data, ["3"]) == Success("bogus");
    assert "bogus" !in SyncTypes;
    assert UnknownTypePrefix + "bogus" == "dispatch: profile:sync:model -- unknown sync type bogus";
  }

  /** `["x4", "profile:find-notes", query]` before a search index exists is
      answered with a `MissingField` error. */
  lemma FindBeforeSearchScenario(env: Env, log: seq<Call>, parse: string -> Result<Json, TError>, msg: string, query: Json)
    requires parse(msg) == Success(Arr([Str("x4"), Str("profile:find-notes"), query]))
    requires !env.hasSearch(log)
    ensures Process(env, log, parse, msg) == Step(Success(()), log + [MsgError("x4", MissingField(NoSearchMessage))])
  {
    ElementKeys();
  }

  /** `["x1", "user:login", "alice", "hunter2"]` logs in once and is answered
      with an empty object, or with the session's error. */
  lemma LoginScenario(env: Env, log: seq<Call>, parse: string -> Result<Json, TError>, msg: string)
    requires parse(msg) == Success(Arr([Str("x1"), Str("user:login"), Str("alice"), Str("hunter2")]))
    ensures var c := Login("alice", "hunter2");
      Process(env, log, parse, msg) == Step(Success(()), log + [c] + [
        if env.reply(log, c).Success? then MsgSuccess("x1", EmptyObject) else MsgError("x1", env.reply(log, c).error)])
  {
    ElementKeys();
  }
}
