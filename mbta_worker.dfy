/** src/workers/mbta-worker.ts: the worker that owns the Server-Sent-Events
    connection. The transport is reduced to whether a source exists; what
    the worker posts to the page is the sequence `outbox`; `JSON.parse` is
    the parameter `parse` (a failure carries the exception's message). */
module MbtaWorker {
  import opened Wrappers
  import opened Types
  import opened Query

  const BaseUrl: string := "https://api-v3.mbta.com/"
  const ParseErrorPrefix: string := "Error parsing data: "
  const ConnectionErrorText: string := "SSE connection error"

  /** The stream address `connectSSE` builds. */
  function StreamUrl(apiKey: string, endpoint: string, filterParams: Option<string>): (url: string)
    ensures |BaseUrl| <= |url| && url[..|BaseUrl|] == BaseUrl
    ensures StringTruthy(filterParams) ==> url == BaseUrl + endpoint + "/?api_key=" + apiKey + "&" + filterParams.value
    ensures !StringTruthy(filterParams) ==> url == BaseUrl + endpoint + "/?api_key=" + apiKey
  {
    BaseUrl + endpoint + "/?api_key=" + apiKey + (if StringTruthy(filterParams) then "&" + filterParams.value else "")
  }

  /** An empty filter string builds the same address as no filter; a
      non-empty one always changes it. */
  lemma EmptyFilterAddsNothing(apiKey: string, endpoint: string, filterParams: Option<string>)
    ensures StreamUrl(apiKey, endpoint, filterParams) == StreamUrl(apiKey, endpoint, None)
        <==> !StringTruthy(filterParams)
  {
    if StringTruthy(filterParams) {
      assert |StreamUrl(apiKey, endpoint, filterParams)| > |StreamUrl(apiKey, endpoint, None)|;
    }
  }

  /** The `payload` of a `start` message. */
  datatype StartOptions = StartOptions(apiKey: string, endpoint: string, filterParams: Option<string>)

  /** A message from the page: `start` (its payload may be missing), `stop`,
      or any other `type`. */
  datatype Command = Start(payload: Option<StartOptions>) | Stop | UnknownCommand(kind: string)

  /** The module state: whether `eventSource` is set, `currentUrl`, and
      everything posted so far. */
  datatype WorkerState = WorkerState(hasSource: bool, currentUrl: Option<string>, outbox: seq<Message>)

  /** A live source always has the address it was opened on. */
  predicate Consistent(s: WorkerState) {
    s.hasSource ==> s.currentUrl.Some?
  }

  /** Loading the worker: no source, no address, `idle` posted. */
  function Loaded(): WorkerState {
    WorkerState(false, None, [StatusMessage(Idle)])
  }

  function Post(s: WorkerState, m: Message): WorkerState {
    s.(outbox := s.outbox + [m])
  }

  /** `connectSSE` on the built address: nothing when already streaming from
      it, otherwise drop any old source, remember the address, post
      `connecting` and open a new source. */
  function Connect(s: WorkerState, url: string): (r: WorkerState)
    ensures r.hasSource && r.currentUrl == Some(url)
    ensures |s.outbox| <= |r.outbox| <= |s.outbox| + 1 && r.outbox[..|s.outbox|] == s.outbox
    ensures |r.outbox| > |s.outbox| ==> r.outbox[|s.outbox|] == StatusMessage(Connecting)
  {
    if s.hasSource && s.currentUrl == Some(url) then s
    else WorkerState(true, Some(url), s.outbox + [StatusMessage(Connecting)])
  }

  /** The `onopen` callback. */
  function Opened(s: WorkerState): (r: WorkerState)
    ensures r.hasSource == s.hasSource && r.currentUrl == s.currentUrl
    ensures r.outbox == s.outbox + [StatusMessage(Open)]
  {
    Post(s, StatusMessage(Open))
  }

  /** The `onerror` callback: `error` status, then an error message; the
      source is closed and forgotten, the address is kept. */
  function Failed(s: WorkerState): (r: WorkerState)
    ensures !r.hasSource && r.currentUrl == s.currentUrl
    ensures r.outbox == s.outbox + [StatusMessage(Errored), ErrorMessage(ConnectionErrorText)]
  {
    WorkerState(false, s.currentUrl, s.outbox + [StatusMessage(Errored), ErrorMessage(ConnectionErrorText)])
  }

  /** `handleEvent` for an event named `name` whose data is `raw`. */
  function EventReceived(s: WorkerState, name: string, raw: string,
                         parse: string -> Result<EventData, string>): WorkerState {
    match parse(raw)
    case Success(v) => Post(s, DataMessage(name, v))
    case Failure(e) => Post(s, ErrorMessage(ParseErrorPrefix + e))
  }

  /** `stopSSE`: with a source, close it, forget the address, post `closed`. */
  function Stopped(s: WorkerState): (r: WorkerState)
    ensures !r.hasSource
    ensures s.hasSource ==> r.currentUrl.None? && r.outbox == s.outbox + [StatusMessage(Closed)]
    ensures !s.hasSource ==> r == s
  {
    if s.hasSource then WorkerState(false, None, s.outbox + [StatusMessage(Closed)]) else s
  }

  /** `self.onmessage`. */
  function Received(s: WorkerState, cmd: Command): (r: WorkerState)
    ensures Consistent(s) ==> Consistent(r)
    ensures |s.outbox| <= |r.outbox| && r.outbox[..|s.outbox|] == s.outbox
    ensures cmd == Stop ==> !r.hasSource
    ensures cmd.Start? && cmd.payload.Some? ==>
      var o := cmd.payload.value;
      r.hasSource && r.currentUrl == Some(StreamUrl(o.apiKey, o.endpoint, o.filterParams))
    ensures cmd.UnknownCommand? || cmd == Start(None) ==> r == s
  {
    match cmd
    case Start(Some(o)) => Connect(s, StreamUrl(o.apiKey, o.endpoint, o.filterParams))
    case Start(None) => s
    case Stop => Stopped(s)
    case UnknownCommand(_) => s
  }

  /** Everything that can drive the worker, in the order it happens: a
      command from the page, or a callback of the current source. */
  datatype Input =
    | FromPage(cmd: Command)
    | SourceOpened
    | SourceFailed
    | SourceEvent(name: string, raw: string)

  /** One input. Closing a source removes its listeners, so a callback with
      no source open changes nothing. */
  function Step(s: WorkerState, input: Input, parse: string -> Result<EventData, string>): WorkerState {
    match input
    case FromPage(cmd) => Received(s, cmd)
    case SourceOpened => if s.hasSource then Opened(s) else s
    case SourceFailed => if s.hasSource then Failed(s) else s
    case SourceEvent(name, raw) => if s.hasSource then EventReceived(s, name, raw, parse) else s
  }

  function Run(s: WorkerState, inputs: seq<Input>, parse: string -> Result<EventData, string>): WorkerState
    decreases |inputs|
  {
    if inputs == [] then s else Step(Run(s, inputs[..|inputs| - 1], parse), inputs[|inputs| - 1], parse)
  }

  /** The worker's module variables. */
  class StreamWorker {
    var hasSource: bool
    var currentUrl: Option<string>
    var outbox: seq<Message>

    function State(): WorkerState
      reads this
    {
      WorkerState(hasSource, currentUrl, outbox)
    }

    /** Loading the module posts the initial `idle` status. */
    constructor ()
      ensures State() == Loaded()
    {
      hasSource := false;
      currentUrl := None;
      outbox := [StatusMessage(Idle)];
    }

    method ConnectSSE(apiKey: string, endpoint: string, filterParams: Option<string>)
      modifies this
      ensures State() == Connect(old(State()), StreamUrl(apiKey, endpoint, filterParams))
    {
      var url := StreamUrl(apiKey, endpoint, filterParams);
      if hasSource && currentUrl == Some(url) {
        return;
      }
      if hasSource {
        // remove the four listeners, close the old source
        hasSource := false;
      }
      currentUrl := Some(url);
      outbox := outbox + [StatusMessage(Connecting)];
      hasSource := true;
    }

    method OnOpen()
      modifies this
      ensures State() == Opened(old(State()))
    {
      outbox := outbox + [StatusMessage(Open)];
    }

    method OnError()
      modifies this
      ensures State() == Failed(old(State()))
    {
      outbox := outbox + [StatusMessage(Errored)];
      outbox := outbox + [ErrorMessage(ConnectionErrorText)];
      hasSource := false;
    }

    method HandleEvent(name: string, raw: string, parse: string -> Result<EventData, string>)
      modifies this
      ensures State() == EventReceived(old(State()), name, raw, parse)
    {
      var parsed := parse(raw);
      match parsed {
        case Success(v) =>
          outbox := outbox + [DataMessage(name, v)];
        case Failure(e) =>
          outbox := outbox + [ErrorMessage(ParseErrorPrefix + e)];
      }
    }

    method StopSSE()
      modifies this
      ensures State() == Stopped(old(State()))
    {
      if hasSource {
        hasSource := false;
        currentUrl := None;
        outbox := outbox + [StatusMessage(Closed)];
      }
    }

    method OnMessage(cmd: Command)
      modifies this
      ensures State() == Received(old(State()), cmd)
    {
      match cmd {
        case Start(payload) =>
          if payload.Some? {
            ConnectSSE(payload.value.apiKey, payload.value.endpoint, payload.value.filterParams);
          }
        case Stop =>
          StopSSE();
        case UnknownCommand(_) =>
      }
    }
  }

  // ---------------------------------------------------------------------
  // Properties of the connection state machine

  /** `start` on the address already streaming posts nothing, changes nothing. */
  lemma SameUrlStartIsNoOp(s: WorkerState, o: StartOptions)
    requires s.hasSource && s.currentUrl == Some(StreamUrl(o.apiKey, o.endpoint, o.filterParams))
    ensures Received(s, Start(Some(o))) == s
  {
  }

  /** Any other `start` ends streaming from the new address, having posted
      exactly one `connecting`. */
  lemma OtherStartConnects(s: WorkerState, o: StartOptions)
    requires !s.hasSource || s.currentUrl != Some(StreamUrl(o.apiKey, o.endpoint, o.filterParams))
    ensures var t := Received(s, Start(Some(o)));
      && t.hasSource
      && t.currentUrl == Some(StreamUrl(o.apiKey, o.endpoint, o.filterParams))
      && t.outbox == s.outbox + [StatusMessage(Connecting)]
  {
  }

  /** A parsed event posts one `data` message with the event's name; an
      unparsable one posts one error message; the source stays either way. */
  lemma EventPostsOneMessage(s: WorkerState, name: string, raw: string,
                             parse: string -> Result<EventData, string>)
    ensures var t := EventReceived(s, name, raw, parse);
      && t.hasSource == s.hasSource && t.currentUrl == s.currentUrl
      && |t.outbox| == |s.outbox| + 1 && t.outbox[..|s.outbox|] == s.outbox
      && (parse(raw).Success? ==> t.outbox[|s.outbox|] == DataMessage(name, parse(raw).value))
      && (parse(raw).Failure? ==> t.outbox[|s.outbox|].ErrorMessage?
                                  && t.outbox[|s.outbox|].reason[..|ParseErrorPrefix|] == ParseErrorPrefix)
  {
  }

  /** After a transport error the address is kept but the source is gone, so a
      `start` on the same address connects again. */
  lemma ErrorThenSameStartReconnects(s: WorkerState, o: StartOptions)
    requires s.hasSource && s.currentUrl == Some(StreamUrl(o.apiKey, o.endpoint, o.filterParams))
    ensures Failed(s).currentUrl == s.currentUrl && !Failed(s).hasSource
    ensures Received(Failed(s), Start(Some(o)))
         == WorkerState(true, s.currentUrl,
                        s.outbox + [StatusMessage(Errored), ErrorMessage(ConnectionErrorText),
                                    StatusMessage(Connecting)])
  {
  }

  /** `stop` without a source does nothing; `stop` twice is `stop` once. */
  lemma StopIdempotent(s: WorkerState)
    ensures !s.hasSource ==> Received(s, Stop) == s
    ensures Received(Received(s, Stop), Stop) == Received(s, Stop)
    ensures !Received(s, Stop).hasSource
    ensures s.hasSource ==> Received(s, Stop).currentUrl == None
    ensures s.hasSource ==> Received(s, Stop).outbox == s.outbox + [StatusMessage(Closed)]
  {
  }

  /** A `start` without payload and an unknown command do nothing. */
  lemma IgnoredCommands(s: WorkerState, kind: string)
    ensures Received(s, Start(None)) == s
    ensures Received(s, UnknownCommand(kind)) == s
  {
  }

  /** Every step keeps a live source tied to an address. */
  lemma {:induction false} RunKeepsConsistent(s: WorkerState, inputs: seq<Input>,
                                              parse: string -> Result<EventData, string>)
    requires Consistent(s)
    ensures Consistent(Run(s, inputs, parse))
    decreases |inputs|
  {
    if inputs != [] {
      RunKeepsConsistent(s, inputs[..|inputs| - 1], parse);
    }
  }

  /** The worker only ever appends to what it has posted. */
  lemma {:induction false} RunExtendsOutbox(s: WorkerState, inputs: seq<Input>,
                                            parse: string -> Result<EventData, string>)
    ensures |s.outbox| <= |Run(s, inputs, parse).outbox|
    ensures Run(s, inputs, parse).outbox[..|s.outbox|] == s.outbox
    decreases |inputs|
  {
    if inputs != [] {
      var before := Run(s, inputs[..|inputs| - 1], parse);
      RunExtendsOutbox(s, inputs[..|inputs| - 1], parse);
      var after := Step(before, inputs[|inputs| - 1], parse);
      assert |before.outbox| <= |after.outbox| && after.outbox[..|before.outbox|] == before.outbox;
      assert after.outbox[..|s.outbox|] == before.outbox[..|s.outbox|];
    }
  }

  /** Whatever happens afterwards, the first message the page receives is `idle`. */
  lemma IdleIsPostedFirst(inputs: seq<Input>, parse: string -> Result<EventData, string>)
    ensures |Run(Loaded(), inputs, parse).outbox| > 0
    ensures Run(Loaded(), inputs, parse).outbox[0] == StatusMessage(Idle)
  {
    RunExtendsOutbox(Loaded(), inputs, parse);
    assert Run(Loaded(), inputs, parse).outbox[..1] == [StatusMessage(Idle)];
  }
}
