/** The messenger that carries messages between the UI and the core: the
    channel names it derives, the channels each kind of send targets, its
    `bound` flag, the fixed-order response and event records, and the
    receive loop that forwards every message to the work pipeline until the
    shutdown sentinel arrives.

    The transport is a `Carrier`: one FIFO queue of strings per channel
    name. A blocking receive is represented by the sequence of results it
    returns (`Success(text)` or `Failure(error)`). */
module Messaging {
  import opened Wrappers
  import opened Errors
  import opened Json
  import Dispatch

  /** The literal that stops the receive loop. */
  const ShutdownSentinel: string := "turtl:internal:msg:shutdown"

  /** The base channel name used when configuration has none. */
  const DefaultBase: string := "inproc://turtl"

  function ChannelInName(base: string): string {
    base + "-core-in"
  }

  function ChannelOutName(base: string): string {
    base + "-core-out"
  }

  /** The base name `Messenger::new` uses: the configured `messaging.reqres`,
      or the default when the lookup fails. */
  function ConfiguredBase(reqres: Result<string, TError>): string {
    if reqres.Success? then reqres.value else DefaultBase
  }

  /** No in-channel name is ever an out-channel name, whatever the two bases. */
  lemma InOutNeverCollide(a: string, b: string)
    ensures ChannelInName(a) != ChannelOutName(b)
  {
    if |ChannelInName(a)| == |ChannelOutName(b)| {
      var n := |ChannelInName(a)|;
      assert ChannelInName(a)[n - 1] == 'n';
      assert ChannelOutName(b)[n - 1] == 't';
    }
  }

  /** A channel name determines its base. */
  lemma ChannelNamesInjective(a: string, b: string)
    ensures ChannelInName(a) == ChannelInName(b) ==> a == b
    ensures ChannelOutName(a) == ChannelOutName(b) ==> a == b
  {
    assert ChannelInName(a)[..|a|] == a && ChannelInName(b)[..|b|] == b;
    assert ChannelOutName(a)[..|a|] == a && ChannelOutName(b)[..|b|] == b;
  }

  // -----------------------------------------------------------------------
  // Responses and events

  type I64 = x: int | -0x8000_0000_0000_0000 <= x < 0x8000_0000_0000_0000

  /** A reply to one request: `e == 0` is success, `e > 0` an error; `d` is
      the value or the error description. */
  datatype Response = Response(e: I64, d: Json)

  /** A notification not tied to a request: `e` names it, `d` is its data. */
  datatype Event = Event(e: string, d: Json)

  function FieldNames(j: Json): seq<string> {
    if j.Obj? then seq(|j.fields|, i requires 0 <= i < |j.fields| => j.fields[i].0) else []
  }

  /** The serialized form: exactly two members, `e` first and `d` second. */
  function ResponseToJson(r: Response): (j: Json)
    ensures FieldNames(j) == ["e", "d"]
  {
    Obj([("e", Num(r.e)), ("d", r.d)])
  }

  /** The two members of an object whose member names are exactly `e`, `d`. */
  predicate IsPair(j: Json) {
    FieldNames(j) == ["e", "d"]
  }

  function ResponseFromJson(j: Json): Option<Response> {
    if IsPair(j) && j.fields[0].1.Num? && -0x8000_0000_0000_0000 <= j.fields[0].1.n < 0x8000_0000_0000_0000
    then Some(Response(j.fields[0].1.n, j.fields[1].1))
    else None
  }

  function EventToJson(ev: Event): (j: Json)
    ensures FieldNames(j) == ["e", "d"]
  {
    Obj([("e", Str(ev.e)), ("d", ev.d)])
  }

  function EventFromJson(j: Json): Option<Event> {
    if IsPair(j) && j.fields[0].1.Str? then Some(Event(j.fields[0].1.s, j.fields[1].1)) else None
  }

  /** Reading back a serialized response gives the response, and the only
      values that read back as a response are serialized responses. */
  lemma ResponseRoundTrip(r: Response, j: Json)
    ensures ResponseFromJson(ResponseToJson(r)) == Some(r)
    ensures ResponseFromJson(j) == Some(r) ==> ResponseToJson(r) == j
  {
    if ResponseFromJson(j) == Some(r) {
      PairShape(j);
    }
  }

  lemma EventRoundTrip(ev: Event, j: Json)
    ensures EventFromJson(EventToJson(ev)) == Some(ev)
    ensures EventFromJson(j) == Some(ev) ==> EventToJson(ev) == j
  {
    if EventFromJson(j) == Some(ev) {
      PairShape(j);
    }
  }

  lemma PairShape(j: Json)
    requires IsPair(j)
    ensures j == Obj([("e", j.fields[0].1), ("d", j.fields[1].1)])
  {
    assert |FieldNames(j)| == |j.fields| == 2;
    assert j.fields[0].0 == FieldNames(j)[0];
    assert j.fields[1].0 == FieldNames(j)[1];
    assert j.fields == [j.fields[0], j.fields[1]];
  }

  // -----------------------------------------------------------------------
  // The transport

  /** In-process message queues, one per channel name. */
  class Carrier {
    var queues: map<string, seq<string>>

    constructor ()
      ensures queues == map[]
    {
      queues := map[];
    }

    /** The messages waiting on `channel`, oldest first. */
    function Pending(channel: string): seq<string>
      reads this
    {
      if channel in queues then queues[channel] else []
    }

    method SendString(channel: string, msg: string)
      modifies this
      ensures queues == old(queues)[channel := old(Pending(channel)) + [msg]]
    {
      queues := queues[channel := Pending(channel) + [msg]];
    }

    method RecvNb(channel: string) returns (r: Option<string>)
      modifies this
      ensures old(Pending(channel)) == [] ==> r == None && queues == old(queues)
      ensures old(Pending(channel)) != [] ==>
        && r == Some(old(Pending(channel))[0])
        && queues == old(queues)[channel := old(Pending(channel))[1..]]
    {
      var q := Pending(channel);
      if q == [] {
        r := None;
      } else {
        r := Some(q[0]);
        queues := queues[channel := q[1..]];
      }
    }
  }

  // -----------------------------------------------------------------------
  // The messenger

  class Messenger {
    var bound: bool
    var channelIn: string
    var channelOut: string

    /** `new_with_channel`. */
    constructor WithChannel(channel: string)
      ensures bound
      ensures channelIn == ChannelInName(channel) && channelOut == ChannelOutName(channel)
    {
      bound := true;
      channelIn := ChannelInName(channel);
      channelOut := ChannelOutName(channel);
    }

    /** `new`: the channel base comes from configuration, with a default. */
    constructor FromConfig(reqres: Result<string, TError>)
      ensures bound
      ensures channelIn == ChannelInName(ConfiguredBase(reqres))
      ensures channelOut == ChannelOutName(ConfiguredBase(reqres))
      ensures reqres.Failure? ==>
        channelIn == "inproc://turtl-core-in" && channelOut == "inproc://turtl-core-out"
    {
      var base := ConfiguredBase(reqres);
      bound := true;
      channelIn := ChannelInName(base);
      channelOut := ChannelOutName(base);
    }

    /** `new_reversed`: the messenger of `new_with_channel` with its two
        channels swapped, so that it talks to such a messenger. */
    constructor Reversed(channel: string)
      ensures bound
      ensures channelIn == ChannelOutName(channel) && channelOut == ChannelInName(channel)
    {
      bound := true;
      channelIn := ChannelInName(channel);
      channelOut := ChannelOutName(channel);
      new;
      var tmp := channelIn;
      channelIn := channelOut;
      channelOut := tmp;
    }

    /** `is_bound`: reports the flag. */
    function IsBound(): (b: bool)
      reads this
      ensures b == bound
    {
      bound
    }

    /** `shutdown`: clears the flag and keeps the channels. */
    method Shutdown()
      modifies this
      ensures !IsBound()
      ensures channelIn == old(channelIn) && channelOut == old(channelOut)
    {
      bound := false;
    }

    /** `send`: onto the out-channel. */
    method Send(net: Carrier, msg: string)
      modifies net
      ensures net.queues == old(net.queues)[channelOut := old(net.Pending(channelOut)) + [msg]]
    {
      net.SendString(channelOut, msg);
    }

    /** `send_suffix`: onto the out-channel's sub-channel `suffix`. */
    method SendSuffix(net: Carrier, suffix: string, msg: string)
      modifies net
      ensures var ch := channelOut + ":" + suffix;
        net.queues == old(net.queues)[ch := old(net.Pending(ch)) + [msg]]
    {
      net.SendString(channelOut + ":" + suffix, msg);
    }

    /** `send_rev`: onto this messenger's own in-channel. */
    method SendRev(net: Carrier, msg: string)
      modifies net
      ensures net.queues == old(net.queues)[channelIn := old(net.Pending(channelIn)) + [msg]]
    {
      net.SendString(channelIn, msg);
    }

    /** `recv_nb`: the oldest message on the in-channel, or `TryAgain`. */
    method RecvNb(net: Carrier) returns (r: Result<string, TError>)
      modifies net
      ensures old(net.Pending(channelIn)) == [] ==> r == Failure(TryAgain) && net.queues == old(net.queues)
      ensures old(net.Pending(channelIn)) != [] ==>
        && r == Success(old(net.Pending(channelIn))[0])
        && net.queues == old(net.queues)[channelIn := old(net.Pending(channelIn))[1..]]
    {
      var m := net.RecvNb(channelIn);
      if m.None? {
        r := Failure(TryAgain);
      } else {
        r := Success(m.value);
      }
    }

    /** `Messenger::event`: looks up the event channel in configuration,
        serializes the event and sends it there. A failed lookup or
        serialization is returned and nothing is sent. */
    static method SendEvent(net: Carrier, events: Result<string, TError>,
                            stringify: Json -> Result<string, TError>, name: string, data: Json)
      returns (r: Result<(), TError>)
      modifies net
      ensures events.Failure? ==> r == Failure(events.error) && net.queues == old(net.queues)
      ensures events.Success? && stringify(EventToJson(Event(name, data))).Failure? ==>
        r == Failure(stringify(EventToJson(Event(name, data))).error) && net.queues == old(net.queues)
      ensures events.Success? && stringify(EventToJson(Event(name, data))).Success? ==>
        && r == Success(())
        && net.queues == old(net.queues)[events.value :=
             old(net.Pending(events.value)) + [stringify(EventToJson(Event(name, data))).value]]
    {
      if events.Failure? {
        return Failure(events.error);
      }
      var text := stringify(EventToJson(Event(name, data)));
      if text.Failure? {
        return Failure(text.error);
      }
      net.SendString(events.value, text.value);
      r := Success(());
    }
  }

  /** A messenger and its reversed peer on the same base talk to each other:
      what the peer sends the messenger receives, and the messenger's answer
      reaches the peer. */
  method PeerExchange(net: Carrier, channel: string, request: string, answer: string)
    returns (received: Result<string, TError>, replied: Result<string, TError>)
    requires net.Pending(ChannelInName(channel)) == [] && net.Pending(ChannelOutName(channel)) == []
    modifies net
    ensures received == Success(request) && replied == Success(answer)
    ensures net.Pending(ChannelInName(channel)) == [] && net.Pending(ChannelOutName(channel)) == []
    ensures forall ch | ch != ChannelInName(channel) && ch != ChannelOutName(channel) ::
      net.Pending(ch) == old(net.Pending(ch))
  {
    InOutNeverCollide(channel, channel);
    var server := new Messenger.WithChannel(channel);
    var client := new Messenger.Reversed(channel);
    client.Send(net, request);
    received := server.RecvNb(net);
    server.Send(net, answer);
    replied := client.RecvNb(net);
  }

  // -----------------------------------------------------------------------
  // The receive loop

  /** Where the loop stands after some receive results. */
  datatype LoopState = LoopState(bound: bool, consumed: nat, forwarded: seq<string>)

  /** The loop as a function of the receive results it meets: each text other
      than the sentinel is forwarded, an error is skipped, and the first
      sentinel clears `bound` and ends the loop. Running out of results
      leaves the loop bound, waiting in `recv`. */
  function RunLoop(inbox: seq<Result<string, TError>>): (s: LoopState)
    ensures s.consumed <= |inbox|
    ensures ShutdownSentinel !in s.forwarded
    ensures s.bound <==> Success(ShutdownSentinel) !in inbox
    ensures s.bound ==> s.consumed == |inbox|
    ensures !s.bound ==>
      && 0 < s.consumed
      && inbox[s.consumed - 1] == Success(ShutdownSentinel)
      && Success(ShutdownSentinel) !in inbox[..s.consumed - 1]
  {
    if inbox == [] then LoopState(true, 0, [])
    else if inbox[0] == Success(ShutdownSentinel) then LoopState(false, 1, [])
    else
      var rest := RunLoop(inbox[1..]);
      assert inbox == [inbox[0]] + inbox[1..];
      assert !rest.bound ==> inbox[..rest.consumed + 1] == [inbox[0]] + inbox[1..][..rest.consumed];
      LoopState(rest.bound, rest.consumed + 1,
                if inbox[0].Success? then [inbox[0].value] + rest.forwarded else rest.forwarded)
  }

  /** All texts among the receive results, in order (a reference that does
      not stop). */
  function Texts(inbox: seq<Result<string, TError>>): seq<string> {
    if inbox == [] then []
    else (if inbox[0].Success? then [inbox[0].value] else []) + Texts(inbox[1..])
  }

  /** The position of the first sentinel, or the length when there is none. */
  function SentinelIndex(inbox: seq<Result<string, TError>>): (k: nat)
    ensures k <= |inbox|
  {
    if inbox == [] || inbox[0] == Success(ShutdownSentinel) then 0
    else 1 + SentinelIndex(inbox[1..])
  }

  /** The loop forwards exactly the texts received before the first
      sentinel, in the order received. */
  lemma {:induction false} RunLoopForwardsTextsBeforeSentinel(inbox: seq<Result<string, TError>>)
    ensures RunLoop(inbox).forwarded == Texts(inbox[..SentinelIndex(inbox)])
    ensures RunLoop(inbox).consumed ==
      if SentinelIndex(inbox) < |inbox| then SentinelIndex(inbox) + 1 else |inbox|
  {
    if inbox != [] && inbox[0] != Success(ShutdownSentinel) {
      RunLoopForwardsTextsBeforeSentinel(inbox[1..]);
      var k := SentinelIndex(inbox[1..]);
      assert inbox[..k + 1] == [inbox[0]] + inbox[1..][..k];
      assert inbox[..k + 1][1..] == inbox[1..][..k];
    }
  }

  /** Once the loop has stopped, later results change nothing: a second
      sentinel, or anything else, is never read. */
  lemma {:induction false} RunLoopStopped(a: seq<Result<string, TError>>, b: seq<Result<string, TError>>)
    requires !RunLoop(a).bound
    ensures RunLoop(a + b) == RunLoop(a)
  {
    assert a != [];
    if a[0] != Success(ShutdownSentinel) {
      assert (a + b)[1..] == a[1..] + b;
      RunLoopStopped(a[1..], b);
    }
  }

  /** A loop that has stopped, or has read every result, has the state of
      the whole sequence of results. */
  lemma {:induction false} RunLoopSettled(inbox: seq<Result<string, TError>>, consumed: nat)
    requires consumed <= |inbox|
    requires !RunLoop(inbox[..consumed]).bound || consumed == |inbox|
    ensures RunLoop(inbox) == RunLoop(inbox[..consumed])
  {
    if consumed < |inbox| {
      RunLoopStopped(inbox[..consumed], inbox[consumed..]);
      assert inbox[..consumed] + inbox[consumed..] == inbox;
    } else {
      assert inbox[..consumed] == inbox;
    }
  }

  /** One more result for a loop that is still bound. */
  lemma {:induction false} RunLoopStep(a: seq<Result<string, TError>>, x: Result<string, TError>)
    requires RunLoop(a).bound
    ensures var s := RunLoop(a);
      RunLoop(a + [x]) ==
        if x == Success(ShutdownSentinel) then LoopState(false, s.consumed + 1, s.forwarded)
        else LoopState(true, s.consumed + 1, if x.Success? then s.forwarded + [x.value] else s.forwarded)
  {
    if a == [] {
      assert a + [x] == [x];
    } else {
      assert (a + [x])[1..] == a[1..] + [x];
      RunLoopStep(a[1..], x);
    }
  }

  /** Messages before the first sentinel reach the pipeline no matter what
      follows it: sending the sentinel twice has the effect of sending it
      once. */
  lemma SentinelIdempotent(a: seq<Result<string, TError>>, b: seq<Result<string, TError>>)
    ensures RunLoop(a + [Success(ShutdownSentinel)] + b) == RunLoop(a + [Success(ShutdownSentinel)])
    ensures !RunLoop(a + [Success(ShutdownSentinel)]).bound
  {
    var a' := a + [Success(ShutdownSentinel)];
    assert a'[|a|] == Success(ShutdownSentinel);
    RunLoopStopped(a', b);
  }

  /** `start`: build the messenger from configuration and loop while it is
      bound, handing each message other than the sentinel to the pipeline.
      The loop reads the receive results in `inbox`; when they run out it is
      still waiting in `recv`. */
  method Start(reqres: Result<string, TError>, inbox: seq<Result<string, TError>>)
    returns (m: Messenger, pipeline: seq<string>, consumed: nat)
    ensures m.channelIn == ChannelInName(ConfiguredBase(reqres))
    ensures m.channelOut == ChannelOutName(ConfiguredBase(reqres))
    ensures RunLoop(inbox) == LoopState(m.bound, consumed, pipeline)
  {
    m := new Messenger.FromConfig(reqres);
    pipeline := [];
    consumed := 0;
    while m.IsBound() && consumed < |inbox|
      invariant consumed <= |inbox|
      invariant m.channelIn == ChannelInName(ConfiguredBase(reqres))
      invariant m.channelOut == ChannelOutName(ConfiguredBase(reqres))
      invariant RunLoop(inbox[..consumed]) == LoopState(m.bound, consumed, pipeline)
      decreases |inbox| - consumed
    {
      RunLoopStep(inbox[..consumed], inbox[consumed]);
      assert inbox[..consumed + 1] == inbox[..consumed] + [inbox[consumed]];
      var received := inbox[consumed];
      if received == Success(ShutdownSentinel) {
        m.Shutdown();
      } else if received.Success? {
        pipeline := pipeline + [received.value];
      }
      consumed := consumed + 1;
    }
    RunLoopSettled(inbox, consumed);
  }

  /** The shutdown function `start` returns: it builds a messenger from the
      same configuration and puts the sentinel on its in-channel, the channel
      the loop receives from. */
  method SignalShutdown(net: Carrier, reqres: Result<string, TError>)
    modifies net
    ensures var ch := ChannelInName(ConfiguredBase(reqres));
      net.queues == old(net.queues)[ch := old(net.Pending(ch)) + [ShutdownSentinel]]
  {
    var m := new Messenger.FromConfig(reqres);
    m.SendRev(net, ShutdownSentinel);
  }

  // -----------------------------------------------------------------------
  // The work pipeline

  /** The pipeline runs `process` on the forwarded messages one at a time, in
      order; a failure of `process` is only logged. */
  function Serve(env: Dispatch.Env, log: seq<Dispatch.Call>, parse: string -> Result<Json, TError>,
                 msgs: seq<string>): (out: seq<Dispatch.Call>)
    ensures |log| <= |out| && out[..|log|] == log
    decreases |msgs|
  {
    if msgs == [] then log
    else
      var step := Dispatch.Process(env, log, parse, msgs[0]);
      Dispatch.ProcessRespondsOnce(env, log, parse, msgs[0]);
      Serve(env, step.log, parse, msgs[1..])
  }

  /** The ids of the messages `process` can answer, in order. */
  function RequestIds(parse: string -> Result<Json, TError>, msgs: seq<string>): seq<string> {
    if msgs == [] then []
    else
      (if Dispatch.Addressable(parse, msgs[0]) then [GetString(parse(msgs[0]).value, ["0"]).value] else [])
      + RequestIds(parse, msgs[1..])
  }

  /** The responses the pipeline sends are one per addressable message, in
      the order the messages were forwarded, each with its message's id. */
  lemma {:induction false} ServeAnswersInOrder(env: Dispatch.Env, log: seq<Dispatch.Call>,
                                               parse: string -> Result<Json, TError>, msgs: seq<string>)
    ensures var out := Serve(env, log, parse, msgs);
      Dispatch.ResponseIds(out[|log|..]) == RequestIds(parse, msgs)
    decreases |msgs|
  {
    var out := Serve(env, log, parse, msgs);
    if msgs == [] {
      assert out[|log|..] == [];
    } else {
      var step := Dispatch.Process(env, log, parse, msgs[0]);
      Dispatch.ProcessRespondsOnce(env, log, parse, msgs[0]);
      ServeAnswersInOrder(env, step.log, parse, msgs[1..]);
      var mid := step.log[|log|..];
      var rest := out[|step.log|..];
      assert out[|log|..] == mid + rest;
      Dispatch.ResponseIdsAppend(mid, rest);
    }
  }

  /** From the wire to the responses: of the receive results the loop meets,
      every addressable message received before the first sentinel is
      answered exactly once, in the order received, under its own id. */
  lemma LoopAnswersInOrder(env: Dispatch.Env, log: seq<Dispatch.Call>,
                           parse: string -> Result<Json, TError>, inbox: seq<Result<string, TError>>)
    ensures var out := Serve(env, log, parse, RunLoop(inbox).forwarded);
      Dispatch.ResponseIds(out[|log|..]) == RequestIds(parse, Texts(inbox[..SentinelIndex(inbox)]))
  {
    RunLoopForwardsTextsBeforeSentinel(inbox);
    ServeAnswersInOrder(env, log, parse, RunLoop(inbox).forwarded);
  }
}
