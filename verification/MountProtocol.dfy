/** Mounting KodoFS through the connector (plugin/utils.go:172-261, connector/main.go:210-485): the
    client, the connection's reader and writer, the command handler, and the child process, as a
    machine whose steps interleave in any way. */
module MountProtocol {

  /** What the client knows: how to recognise the two prompts, and what to answer. */
  datatype Config = Config(asksAddress: string -> bool, asksToken: string -> bool, address: string, token: string)

  /** Messages to the connector. */
  datatype Msg = Init | Data(text: string)

  /** Messages to the client. */
  datatype Out = Response(data: string, isError: bool) | Terminate(code: int)

  datatype Client = Starting | Looping | Succeeded | Failed

  /** Why the handler stopped. */
  datatype Handler = Running | Duplicate | NotStarted | PipeFailed | WriteFailed | Closed | Cancelled

  datatype Child = NoChild | Alive | Exited(code: int)

  /** The client's side; `sent`, `replies` and `received` record the messages of the whole run. */
  datatype ClientPart = ClientPart(phase: Client, sent: seq<Msg>, replies: seq<string>, received: seq<Out>, ended: bool)

  /** The way to the handler: on the socket, and in the command channel. `finished` says that the
      client has closed its end, `closed` that the reader has stopped. */
  datatype UpPart = UpPart(socket: seq<Msg>, finished: bool, commands: seq<Msg>, closed: bool)

  /** The handler; `consumed` records the commands it took, `children` counts the processes. */
  datatype HandlerPart = HandlerPart(
    handler: Handler, started: bool, stdinOpen: bool, child: Child, cancelled: bool,
    stdin: string, consumed: seq<Msg>, children: nat)

  /** The way back; `emitted` records the messages of the whole run. */
  datatype DownPart = DownPart(results: seq<Out>, socket: seq<Out>, closed: bool, emitted: seq<Out>)

  datatype State = State(client: ClientPart, up: UpPart, hand: HandlerPart, down: DownPart)

  function Initial(): State {
    State(
      ClientPart(Starting, [], [], [], false), UpPart([], false, [], false),
      HandlerPart(Running, false, false, NoChild, false, "", [], 0), DownPart([], [], false, []))
  }

  /** How far execCommand gets before a pipe cannot be created. */
  datatype Pipes = NoStdin | NoOutput | AllPipes

  datatype Action =
    | SendInit(ok: bool)            // the client writes the init command
    | Receive(ok: bool)             // the client takes a message; `ok`: its reply, if any, is written
    | EndOfStream                   // the client finds no more messages
    | ReadCommand                   // the connection's reader passes a command on
    | HangUp                        // the reader stops (end of input, an error, or the deadline of the connection)
    | TakeInit(pipes: Pipes)        // the handler takes an init command
    | TakeData(part: string)        // the handler writes to the child's stdin; on an error only a part
    | HandlerCloses                 // the handler finds the command channel closed
    | HandlerCancels                // the handler finds its context cancelled
    | Output(data: string, isError: bool)
    | Exit(code: int)               // the child ends, or could not be started
    | Cancel                        // the goroutine that ran the child cancels the context
    | Write                         // the connection's writer passes a message on
    | WriterStops                   // the reader has stopped; the connection is closed

  // -- the client --------------------------------------------------------------------------------

  /** The client's answer to a message, if it has one. */
  function Answer(cfg: Config, m: Out): seq<string> {
    if m.Terminate? || m.isError then []
    else if cfg.asksAddress(m.data) then [cfg.address + "\n"]
    else if cfg.asksToken(m.data) then [cfg.token + "\n"]
    else []
  }

  function Answers(cfg: Config, ms: seq<Out>): seq<string> {
    if ms == [] then [] else Answers(cfg, ms[..|ms| - 1]) + Answer(cfg, ms[|ms| - 1])
  }

  function DataOf(replies: seq<string>): seq<Msg> { seq(|replies|, i requires 0 <= i < |replies| => Data(replies[i])) }

  /** The client after it took a message. */
  function OnMessage(cfg: Config, c: ClientPart, m: Out, ok: bool): ClientPart {
    var d := c.(received := c.received + [m]);
    if m.Terminate? then d.(phase := if m.code == 0 then Succeeded else Failed)
    else if Answer(cfg, m) == [] then d
    else if !ok then d.(phase := Failed)
    else d.(sent := c.sent + DataOf(Answer(cfg, m)), replies := c.replies + Answer(cfg, m))
  }

  /** What the client wrote to the socket in a step. */
  function Written(before: ClientPart, after: ClientPart): seq<Msg> {
    if |before.sent| <= |after.sent| then after.sent[|before.sent|..] else []
  }

  // -- the handler -------------------------------------------------------------------------------

  function OnInit(h: HandlerPart, pipes: Pipes): HandlerPart {
    var g := h.(consumed := h.consumed + [Init]);
    if h.started then g.(handler := Duplicate)
    else
      match pipes
      case NoStdin => g.(handler := PipeFailed, started := true)
      case NoOutput => g.(handler := PipeFailed, started := true, stdinOpen := true)
      case AllPipes => g.(started := true, stdinOpen := true, child := Alive, children := h.children + 1)
  }

  function OnData(h: HandlerPart, text: string, part: string): HandlerPart {
    var g := h.(consumed := h.consumed + [Data(text)]);
    if !h.stdinOpen then g.(handler := NotStarted)
    else if part == text then g.(stdin := h.stdin + text)
    else g.(handler := WriteFailed, stdin := h.stdin + part)
  }

  // -- steps -------------------------------------------------------------------------------------

  predicate Enabled(s: State, a: Action) {
    match a
    case SendInit(_) => s.client.phase.Starting?
    case Receive(_) => s.client.phase.Looping? && s.down.socket != []
    case EndOfStream => s.client.phase.Looping? && s.down.socket == [] && s.down.closed
    case ReadCommand => !s.up.closed && s.up.socket != []
    case HangUp => !s.up.closed
    case TakeInit(_) => s.hand.handler.Running? && s.up.commands != [] && s.up.commands[0].Init?
    case TakeData(part) =>
      s.hand.handler.Running? && s.up.commands != [] && s.up.commands[0].Data? && part <= s.up.commands[0].text
    case HandlerCloses => s.hand.handler.Running? && s.up.commands == [] && s.up.closed
    case HandlerCancels => s.hand.handler.Running? && s.hand.cancelled
    case Output(_, _) => s.hand.handler.Running? && !s.hand.child.NoChild?
    case Exit(_) => s.hand.child.Alive?
    case Cancel => s.hand.child.Exited?
    case Write => s.down.results != [] && !s.down.closed
    case WriterStops => s.up.closed && !s.down.closed
  }

  function DoClient(s: State, c: ClientPart): State {
    var over := c.phase.Succeeded? || c.phase.Failed?;
    s.(client := c, up := s.up.(socket := s.up.socket + Written(s.client, c), finished := s.up.finished || over))
  }

  function DoHandler(s: State, h: HandlerPart): State
    requires s.up.commands != []
  {
    s.(hand := h, up := s.up.(commands := s.up.commands[1..]))
  }

  /** A message for the client, unless the handler has stopped. */
  function Emit(s: State, m: Out): State {
    if !s.hand.handler.Running? then s
    else s.(down := s.down.(results := s.down.results + [m], emitted := s.down.emitted + [m]))
  }

  function Do(cfg: Config, s: State, a: Action): State
    requires Enabled(s, a)
  {
    match a
    case SendInit(ok) =>
      DoClient(s, if ok then s.client.(phase := Looping, sent := [Init]) else s.client.(phase := Failed))
    case Receive(ok) =>
      DoClient(s, OnMessage(cfg, s.client, s.down.socket[0], ok)).(down := s.down.(socket := s.down.socket[1..]))
    case EndOfStream => DoClient(s, s.client.(phase := Succeeded, ended := true))
    case ReadCommand => s.(up := s.up.(socket := s.up.socket[1..], commands := s.up.commands + [s.up.socket[0]]))
    case HangUp => s.(up := s.up.(closed := true))
    case TakeInit(pipes) => DoHandler(s, OnInit(s.hand, pipes))
    case TakeData(part) => DoHandler(s, OnData(s.hand, s.up.commands[0].text, part))
    case HandlerCloses => s.(hand := s.hand.(handler := Closed))
    case HandlerCancels => s.(hand := s.hand.(handler := Cancelled))
    case Output(data, isError) => Emit(s, Response(data, isError))
    case Exit(code) => Emit(s, Terminate(code)).(hand := s.hand.(child := Exited(code)))
    case Cancel => s.(hand := s.hand.(cancelled := true))
    case Write => s.(down := s.down.(results := s.down.results[1..], socket := s.down.socket + [s.down.results[0]]))
    case WriterStops => s.(down := s.down.(closed := true))
  }

  /** A path: the states passed through, and the actions between them. */
  ghost predicate IsPath(cfg: Config, states: seq<State>, actions: seq<Action>) {
    && |states| == |actions| + 1
    && forall i {:trigger actions[i]} :: 0 <= i < |actions| ==>
         Enabled(states[i], actions[i]) && states[i + 1] == Do(cfg, states[i], actions[i])
  }

  ghost predicate IsRun(cfg: Config, states: seq<State>, actions: seq<Action>) {
    IsPath(cfg, states, actions) && states[0] == Initial()
  }
}
