/** What holds in every state of every run of the mount protocol. */
module MountProtocolSafety {
  import opened MountProtocol
  import opened Text

  // -- texts and prefixes ------------------------------------------------------------------------

  function TextOf(m: Msg): string { if m.Data? then m.text else "" }

  /** The data among some messages, in order. */
  function Texts(ms: seq<Msg>): string { if ms == [] then "" else Texts(ms[..|ms| - 1]) + TextOf(ms[|ms| - 1]) }

  function Joined(replies: seq<string>): string {
    if replies == [] then "" else Joined(replies[..|replies| - 1]) + replies[|replies| - 1]
  }

  lemma TextsSnoc(ms: seq<Msg>, m: Msg)
    ensures Texts(ms + [m]) == Texts(ms) + TextOf(m)
  {
    assert (ms + [m])[..|ms|] == ms;
  }

  lemma {:induction false} TextsPrefix(ms: seq<Msg>, all: seq<Msg>)
    requires ms <= all
    ensures Texts(ms) <= Texts(all)
    decreases |all|
  {
    if |ms| < |all| {
      TextsPrefix(ms, all[..|all| - 1]);
    } else {
      assert ms == all;
    }
  }

  lemma {:induction false} TextsJoined(replies: seq<string>)
    ensures Texts([Init] + DataOf(replies)) == Joined(replies)
  {
    var ms := [Init] + DataOf(replies);
    if replies == [] {
      assert ms == [Init] && ms[..0] == [];
    } else {
      var n := |replies| - 1;
      assert ms[..|ms| - 1] == [Init] + DataOf(replies[..n]) && ms[|ms| - 1] == Data(replies[n]);
      TextsJoined(replies[..n]);
    }
  }

  lemma AnswersSnoc(cfg: Config, ms: seq<Out>, m: Out)
    ensures Answers(cfg, ms + [m]) == Answers(cfg, ms) + Answer(cfg, m)
  {
    assert (ms + [m])[..|ms|] == ms;
  }

  lemma {:induction false} AnswersPrefix(cfg: Config, ms: seq<Out>, all: seq<Out>)
    requires ms <= all
    ensures Answers(cfg, ms) <= Answers(cfg, all)
    decreases |all|
  {
    if |ms| < |all| {
      AnswersPrefix(cfg, ms, all[..|all| - 1]);
    } else {
      assert ms == all;
    }
  }

  // -- the invariant -----------------------------------------------------------------------------

  /** The client sends init once, first, and then exactly its answers to what it received. */
  ghost predicate ClientInv(cfg: Config, c: ClientPart) {
    && (c.sent == [] ==> c.replies == [])
    && (c.sent != [] ==> c.sent == [Init] + DataOf(c.replies))
    && c.replies <= Answers(cfg, c.received) && |Answers(cfg, c.received)| <= |c.replies| + 1
    && (c.phase.Starting? ==> c.sent == [] && c.received == [])
    && (c.phase.Looping? ==> c.sent != [])
    && (!c.phase.Failed? ==> c.replies == Answers(cfg, c.received))
  }

  ghost predicate NoTerminate(ms: seq<Out>) { forall i :: 0 <= i < |ms| ==> !ms[i].Terminate? }

  /** The client's verdict rests on a Terminate message, or on the end of the stream. */
  ghost predicate VerdictInv(c: ClientPart) {
    && (c.phase.Starting? || c.phase.Looping? || c.ended ==> NoTerminate(c.received))
    && (c.phase.Succeeded? <==> c.ended || Terminate(0) in c.received)
  }

  /** The stream ends only after the reader has stopped, and `finished` tells that the client is
      over. */
  ghost predicate EndInv(s: State) {
    && (s.client.ended ==> s.down.closed) && (s.down.closed ==> s.up.closed)
    && (s.up.finished <==> s.client.phase.Succeeded? || s.client.phase.Failed?)
  }

  /** Commands reach the handler in the order in which they were sent. */
  ghost predicate UpInv(c: ClientPart, u: UpPart, h: HandlerPart) { h.consumed + u.commands + u.socket == c.sent }

  ghost predicate HandlerInv(h: HandlerPart) {
    && !h.handler.Duplicate? && !h.handler.NotStarted?
    && (h.started <==> h.consumed != [])
    && (h.handler.Running? && h.consumed != [] ==> h.stdinOpen)
    && h.children == (if h.child.NoChild? then 0 else 1)
    && (!h.started ==> h.child.NoChild?)
    && h.stdin <= Texts(h.consumed)
    && (h.handler.Running? ==> h.stdin == Texts(h.consumed))
  }

  /** Messages reach the client in the order in which they were emitted. */
  ghost predicate DownInv(c: ClientPart, d: DownPart) { c.received + d.socket + d.results == d.emitted }

  /** At most one Terminate is emitted, with the exit code of the child. */
  ghost predicate TerminateInv(h: HandlerPart, d: DownPart) {
    && (!h.child.Exited? ==> forall i :: 0 <= i < |d.emitted| ==> !d.emitted[i].Terminate?)
    && (forall i :: 0 <= i < |d.emitted| && d.emitted[i].Terminate? ==> h.child == Exited(d.emitted[i].code))
    && (forall i, j :: 0 <= i < j < |d.emitted| ==> !(d.emitted[i].Terminate? && d.emitted[j].Terminate?))
  }

  ghost predicate Inv(cfg: Config, s: State) {
    && ClientInv(cfg, s.client) && VerdictInv(s.client) && UpInv(s.client, s.up, s.hand) && HandlerInv(s.hand)
    && DownInv(s.client, s.down) && TerminateInv(s.hand, s.down) && EndInv(s)
  }

  // -- steps -------------------------------------------------------------------------------------

  lemma MessageKeepsClient(cfg: Config, c: ClientPart, m: Out, ok: bool)
    requires ClientInv(cfg, c) && c.phase.Looping?
    ensures ClientInv(cfg, OnMessage(cfg, c, m, ok))
    ensures c.sent <= OnMessage(cfg, c, m, ok).sent && OnMessage(cfg, c, m, ok).received == c.received + [m]
  {
    AnswersSnoc(cfg, c.received, m);
    if OnMessage(cfg, c, m, ok).sent != c.sent {
      RepliesSnoc(c.replies, Answer(cfg, m));
    }
  }

  lemma RepliesSnoc(replies: seq<string>, more: seq<string>)
    ensures [Init] + DataOf(replies) + DataOf(more) == [Init] + DataOf(replies + more)
  {
  }

  lemma MessageKeepsVerdict(cfg: Config, c: ClientPart, m: Out, ok: bool)
    requires VerdictInv(c) && c.phase.Looping?
    ensures VerdictInv(OnMessage(cfg, c, m, ok))
  {
    var d := OnMessage(cfg, c, m, ok);
    if m.Terminate? && m.code == 0 {
      assert d.received[|c.received|] == Terminate(0);
    }
  }

  lemma ClientKeepsUp(s: State, c: ClientPart)
    requires UpInv(s.client, s.up, s.hand) && s.client.sent <= c.sent
    ensures UpInv(c, DoClient(s, c).up, s.hand)
  {
    var w := Written(s.client, c);
    assert c.sent == s.client.sent + w;
    assert s.hand.consumed + s.up.commands + (s.up.socket + w) == s.hand.consumed + s.up.commands + s.up.socket + w;
  }

  /** Only the first command can be the init command. */
  lemma NextCommand(cfg: Config, s: State)
    requires ClientInv(cfg, s.client) && UpInv(s.client, s.up, s.hand) && s.up.commands != []
    ensures s.up.commands[0].Init? <==> s.hand.consumed == []
  {
    var n := |s.hand.consumed|;
    assert s.up.commands[0] == (s.hand.consumed + s.up.commands + s.up.socket)[n] == s.client.sent[n];
  }

  lemma TakenKeepsUp(s: State, m: Msg, h: HandlerPart)
    requires UpInv(s.client, s.up, s.hand) && s.up.commands != [] && s.up.commands[0] == m
    requires h.consumed == s.hand.consumed + [m]
    ensures UpInv(s.client, s.up.(commands := s.up.commands[1..]), h)
  {
    assert h.consumed + s.up.commands[1..] == s.hand.consumed + s.up.commands;
  }

  lemma InitKeepsHandler(h: HandlerPart, pipes: Pipes)
    requires HandlerInv(h) && h.handler.Running? && h.consumed == []
    ensures HandlerInv(OnInit(h, pipes)) && !OnInit(h, pipes).child.Exited?
  {
    TextsSnoc([], Init);
    assert [] + [Init] == [Init];
  }

  lemma DataKeepsHandler(h: HandlerPart, text: string, part: string)
    requires HandlerInv(h) && h.handler.Running? && h.consumed != [] && part <= text
    ensures HandlerInv(OnData(h, text, part)) && OnData(h, text, part).child == h.child
  {
    TextsSnoc(h.consumed, Data(text));
  }

  lemma EmitKeeps(h: HandlerPart, c: ClientPart, d: DownPart, m: Out, child: Child)
    requires DownInv(c, d) && TerminateInv(h, d)
    requires if m.Terminate? then !h.child.Exited? && child == Exited(m.code) else child == h.child
    ensures var e := d.(results := d.results + [m], emitted := d.emitted + [m]);
            DownInv(c, e) && TerminateInv(h.(child := child), e)
  {
    var e := d.(results := d.results + [m], emitted := d.emitted + [m]);
    assert c.received + d.socket + (d.results + [m]) == c.received + d.socket + d.results + [m];
    forall i | 0 <= i < |e.emitted| && e.emitted[i].Terminate? ensures child == Exited(e.emitted[i].code) {
      assert i < |d.emitted| ==> e.emitted[i] == d.emitted[i];
    }
  }

  lemma SilentExitKeeps(h: HandlerPart, d: DownPart, code: int)
    requires TerminateInv(h, d) && !h.child.Exited?
    ensures TerminateInv(h.(child := Exited(code)), d)
  {
  }

  lemma ReceiveKeepsDown(c: ClientPart, d: DownPart, e: ClientPart)
    requires DownInv(c, d) && d.socket != [] && e.received == c.received + [d.socket[0]]
    ensures DownInv(e, d.(socket := d.socket[1..]))
  {
    assert e.received + d.socket[1..] == c.received + d.socket;
  }

  lemma WriteKeepsDown(c: ClientPart, d: DownPart)
    requires DownInv(c, d) && d.results != []
    ensures DownInv(c, d.(results := d.results[1..], socket := d.socket + [d.results[0]]))
  {
    assert c.received + (d.socket + [d.results[0]]) + d.results[1..] == c.received + d.socket + d.results;
  }

  lemma ReadKeepsUp(c: ClientPart, u: UpPart, h: HandlerPart)
    requires UpInv(c, u, h) && u.socket != []
    ensures UpInv(c, u.(socket := u.socket[1..], commands := u.commands + [u.socket[0]]), h)
  {
    assert h.consumed + (u.commands + [u.socket[0]]) + u.socket[1..] == h.consumed + u.commands + u.socket;
  }

  predicate IsClientAction(a: Action) { a.SendInit? || a.Receive? || a.EndOfStream? }

  lemma ClientStepInv(cfg: Config, s: State, a: Action)
    requires Inv(cfg, s) && Enabled(s, a) && IsClientAction(a)
    ensures Inv(cfg, Do(cfg, s, a))
  {
    match a
    case SendInit(ok) =>
      assert [Init] + DataOf([]) == [Init];
      ClientKeepsUp(s, if ok then s.client.(phase := Looping, sent := [Init]) else s.client.(phase := Failed));
    case Receive(ok) =>
      var c := OnMessage(cfg, s.client, s.down.socket[0], ok);
      MessageKeepsClient(cfg, s.client, s.down.socket[0], ok);
      MessageKeepsVerdict(cfg, s.client, s.down.socket[0], ok);
      ClientKeepsUp(s, c);
      ReceiveKeepsDown(s.client, s.down, c);
    case EndOfStream => ClientKeepsUp(s, s.client.(phase := Succeeded, ended := true));
  }

  lemma TakeInitStepInv(cfg: Config, s: State, pipes: Pipes)
    requires Inv(cfg, s) && Enabled(s, TakeInit(pipes))
    ensures Inv(cfg, Do(cfg, s, TakeInit(pipes)))
  {
    NextCommand(cfg, s);
    InitKeepsHandler(s.hand, pipes);
    TakenKeepsUp(s, Init, OnInit(s.hand, pipes));
  }

  lemma TakeDataStepInv(cfg: Config, s: State, part: string)
    requires Inv(cfg, s) && Enabled(s, TakeData(part))
    ensures Inv(cfg, Do(cfg, s, TakeData(part)))
  {
    NextCommand(cfg, s);
    DataKeepsHandler(s.hand, s.up.commands[0].text, part);
    TakenKeepsUp(s, s.up.commands[0], OnData(s.hand, s.up.commands[0].text, part));
  }

  lemma OutputStepInv(cfg: Config, s: State, data: string, isError: bool)
    requires Inv(cfg, s) && Enabled(s, Output(data, isError))
    ensures Inv(cfg, Do(cfg, s, Output(data, isError)))
  {
    EmitKeeps(s.hand, s.client, s.down, Response(data, isError), s.hand.child);
  }

  lemma ExitStepInv(cfg: Config, s: State, code: int)
    requires Inv(cfg, s) && Enabled(s, Exit(code))
    ensures Inv(cfg, Do(cfg, s, Exit(code)))
  {
    EmitKeeps(s.hand, s.client, s.down, Terminate(code), Exited(code));
    SilentExitKeeps(s.hand, s.down, code);
  }

  lemma StepInv(cfg: Config, s: State, a: Action)
    requires Inv(cfg, s) && Enabled(s, a)
    ensures Inv(cfg, Do(cfg, s, a))
  {
    if IsClientAction(a) {
      ClientStepInv(cfg, s, a);
    } else if a.TakeInit? {
      TakeInitStepInv(cfg, s, a.pipes);
    } else if a.TakeData? {
      TakeDataStepInv(cfg, s, a.part);
    } else if a.Output? {
      OutputStepInv(cfg, s, a.data, a.isError);
    } else if a.Exit? {
      ExitStepInv(cfg, s, a.code);
    } else if a.ReadCommand? {
      ReadKeepsUp(s.client, s.up, s.hand);
    } else if a.Write? {
      WriteKeepsDown(s.client, s.down);
    }
  }

  lemma {:induction false} RunInv(cfg: Config, states: seq<State>, actions: seq<Action>, n: nat)
    requires IsRun(cfg, states, actions) && n < |states|
    ensures Inv(cfg, states[n])
  {
    if n > 0 {
      RunInv(cfg, states, actions, n - 1);
      assert Enabled(states[n - 1], actions[n - 1]);
      StepInv(cfg, states[n - 1], actions[n - 1]);
    }
  }

  // -- the results -------------------------------------------------------------------------------

  /** The handler never meets a second init command, nor data before the process was started; it
      starts at most one child. */
  lemma NoRejections(cfg: Config, states: seq<State>, actions: seq<Action>, n: nat)
    requires IsRun(cfg, states, actions) && n < |states|
    ensures !states[n].hand.handler.Duplicate? && !states[n].hand.handler.NotStarted? && states[n].hand.children <= 1
  {
    RunInv(cfg, states, actions, n);
  }

  /** At most one Terminate is sent, and it carries the child's exit code. */
  lemma OneTerminate(cfg: Config, states: seq<State>, actions: seq<Action>, n: nat, i: nat, j: nat)
    requires IsRun(cfg, states, actions) && n < |states|
    requires i < |states[n].down.emitted| && j < |states[n].down.emitted|
    requires states[n].down.emitted[i].Terminate? && states[n].down.emitted[j].Terminate?
    ensures i == j && states[n].hand.child == Exited(states[n].down.emitted[i].code)
  {
    RunInv(cfg, states, actions, n);
  }

  /** What the child has read is always a prefix of the client's replies, and these are the answers
      to the prompts that the child printed, in order. */
  lemma StdinIsAnswers(cfg: Config, states: seq<State>, actions: seq<Action>, n: nat)
    requires IsRun(cfg, states, actions) && n < |states|
    ensures var s := states[n];
            s.hand.stdin <= Joined(s.client.replies) && s.client.replies <= Answers(cfg, s.down.emitted)
  {
    RunInv(cfg, states, actions, n);
    var s := states[n];
    StdinIsReplies(cfg, s);
    assert s.client.received <= s.down.emitted;
    AnswersPrefix(cfg, s.client.received, s.down.emitted);
  }

  /** The messages that ask for something the client knows. */
  function Prompts(cfg: Config, ms: seq<Out>): seq<string> {
    if ms == [] then []
    else
      var before, m := Prompts(cfg, ms[..|ms| - 1]), ms[|ms| - 1];
      if m.Response? && !m.isError && (cfg.asksAddress(m.data) || cfg.asksToken(m.data)) then before + [m.data]
      else before
  }

  lemma {:induction false} PromptsAnswered(cfg: Config, ms: seq<Out>)
    ensures forall k :: 0 <= k < |Prompts(cfg, ms)| ==>
                          cfg.asksAddress(Prompts(cfg, ms)[k]) || cfg.asksToken(Prompts(cfg, ms)[k])
    ensures |Answers(cfg, ms)| == |Prompts(cfg, ms)|
    ensures forall k :: 0 <= k < |Prompts(cfg, ms)| ==>
                          Answers(cfg, ms)[k] ==
                          (if cfg.asksAddress(Prompts(cfg, ms)[k]) then cfg.address else cfg.token) + "\n"
  {
    if ms != [] {
      PromptsAnswered(cfg, ms[..|ms| - 1]);
    }
  }

  /** In every state of every run the client's replies answer the prompts that it received, in order and
      nothing else: a prompt for the address gets the address, one for the token only gets the token.
      One reply may be missing, and only when the client failed. */
  lemma RepliesFollowPrompts(cfg: Config, states: seq<State>, actions: seq<Action>, n: nat)
    requires IsRun(cfg, states, actions) && n < |states|
    ensures var c := states[n].client;
            var prompts := Prompts(cfg, c.received);
            && |c.replies| <= |prompts| <= |c.replies| + 1 && (!c.phase.Failed? ==> |c.replies| == |prompts|)
            && forall k :: 0 <= k < |c.replies| ==>
                 c.replies[k] == (if cfg.asksAddress(prompts[k]) then cfg.address else cfg.token) + "\n"
  {
    RunInv(cfg, states, actions, n);
    PromptsAnswered(cfg, states[n].client.received);
  }

  /** The client of kodofs, with the prompts that it knows. */
  function KodoFs(address: string, token: string): Config {
    Config(text => Contains(text, "please enter the master address(separate multiple addresses with commas):"),
           text => Contains(text, "please enter the AccessToken:"), address, token)
  }

  /** What kodofs is told, and upon which words. */
  lemma KodoFsReplies(address: string, token: string, states: seq<State>, actions: seq<Action>, n: nat, k: nat)
    requires IsRun(KodoFs(address, token), states, actions) && n < |states| && k < |states[n].client.replies|
    ensures var prompts := Prompts(KodoFs(address, token), states[n].client.received);
            && k < |prompts|
            && if Contains(prompts[k], "please enter the master address(separate multiple addresses with commas):")
               then states[n].client.replies[k] == address + "\n"
               else Contains(prompts[k], "please enter the AccessToken:") &&
                    states[n].client.replies[k] == token + "\n"
  {
    RepliesFollowPrompts(KodoFs(address, token), states, actions, n);
    PromptsAnswered(KodoFs(address, token), states[n].client.received);
  }

  lemma StdinIsReplies(cfg: Config, s: State)
    requires ClientInv(cfg, s.client) && UpInv(s.client, s.up, s.hand) && HandlerInv(s.hand)
    ensures s.hand.stdin <= Joined(s.client.replies)
  {
    assert s.hand.consumed <= s.client.sent;
    TextsPrefix(s.hand.consumed, s.client.sent);
    if s.client.sent != [] {
      TextsJoined(s.client.replies);
    }
  }

  // -- when a success can be trusted -------------------------------------------------------------

  /** The client reports success exactly when it received Terminate(0), and then the child exited
      with code 0, or when the stream ended without any Terminate. */
  lemma SuccessExactly(cfg: Config, states: seq<State>, actions: seq<Action>, n: nat)
    requires IsRun(cfg, states, actions) && n < |states|
    ensures var s := states[n];
            && (s.client.phase.Succeeded? <==> s.client.ended || Terminate(0) in s.client.received)
            && (s.client.ended ==> NoTerminate(s.client.received))
            && (Terminate(0) in s.client.received ==> s.hand.child == Exited(0))
  {
    RunInv(cfg, states, actions, n);
    var s := states[n];
    if Terminate(0) in s.client.received {
      var i :| 0 <= i < |s.client.received| && s.client.received[i] == Terminate(0);
      assert s.down.emitted[i] == s.client.received[i];
    }
  }

  /** The connector hangs up only on clients that are over. */
  ghost predicate Patient(states: seq<State>, actions: seq<Action>)
    requires |states| == |actions| + 1
  {
    forall i {:trigger actions[i]} :: 0 <= i < |actions| && actions[i].HangUp? ==> states[i].up.finished
  }

  lemma {:induction false} PatientInv(cfg: Config, states: seq<State>, actions: seq<Action>, n: nat)
    requires IsRun(cfg, states, actions) && Patient(states, actions) && n < |states|
    ensures !states[n].client.ended && (states[n].up.closed ==> states[n].up.finished)
  {
    if n > 0 {
      PatientInv(cfg, states, actions, n - 1);
      RunInv(cfg, states, actions, n - 1);
      assert Enabled(states[n - 1], actions[n - 1]);
      assert actions[n - 1].HangUp? ==> states[n - 1].up.finished;
    }
  }

  /** With a patient connector a success report can be trusted, and a success is reported. */
  lemma PatientSuccess(cfg: Config, states: seq<State>, actions: seq<Action>, n: nat)
    requires IsRun(cfg, states, actions) && Patient(states, actions) && n < |states|
    ensures states[n].client.phase.Succeeded? <==> Terminate(0) in states[n].client.received
    ensures states[n].client.phase.Succeeded? ==> states[n].hand.child == Exited(0)
  {
    PatientInv(cfg, states, actions, n);
    SuccessExactly(cfg, states, actions, n);
  }

  /** A continuation without a further hang-up, after which the client reports a success that nobody
      told it of. */
  ghost predicate Misleads(cfg: Config, s: State, states: seq<State>, actions: seq<Action>) {
    && IsPath(cfg, states, actions) && states[0] == s && HangUp !in actions
    && states[|actions|].client.phase.Succeeded? && states[|actions|].client.ended
  }

  ghost predicate CanMislead(cfg: Config, s: State) { exists states, actions :: Misleads(cfg, s, states, actions) }

  lemma {:induction false} OneStepMore(cfg: Config, s: State, a: Action)
    requires Enabled(s, a) && a != HangUp && CanMislead(cfg, Do(cfg, s, a))
    ensures CanMislead(cfg, s)
  {
    var states, actions :| Misleads(cfg, Do(cfg, s, a), states, actions);
    var longer, steps := [s] + states, [a] + actions;
    forall i | 0 <= i < |steps| ensures Enabled(longer[i], steps[i]) && longer[i + 1] == Do(cfg, longer[i], steps[i]) {
      if i > 0 {
        assert steps[i] == actions[i - 1];
      }
    }
    assert longer[|steps|] == states[|actions|];
    assert Misleads(cfg, s, longer, steps);
  }

  /** The client takes what is on its socket, one message after the other, and finds the end. */
  lemma {:induction false} EndMisleads(cfg: Config, s: State)
    requires s.client.phase.Looping? && s.down.closed && NoTerminate(s.down.socket)
    ensures CanMislead(cfg, s)
    decreases |s.down.socket|
  {
    if s.down.socket == [] {
      var t := Do(cfg, s, EndOfStream);
      assert Misleads(cfg, t, [t], []);
      OneStepMore(cfg, s, EndOfStream);
    } else {
      EndMisleads(cfg, Do(cfg, s, Receive(true)));
      OneStepMore(cfg, s, Receive(true));
    }
  }

  /** The client can never be misled from here, unless the connector hangs up. */
  ghost predicate Guarded(s: State) {
    && !s.client.ended
    && (s.client.phase.Looping? ==> !s.down.closed || !NoTerminate(s.down.socket))
    && (s.client.phase.Looping? && !s.up.closed ==> !s.down.closed)
    && (s.client.phase.Looping? && s.up.closed ==> !NoTerminate(s.down.socket))
    && !s.client.phase.Starting?
  }

  lemma GuardedStep(cfg: Config, s: State, a: Action)
    requires Guarded(s) && Enabled(s, a) && a != HangUp
    ensures Guarded(Do(cfg, s, a))
  {
    if a.Receive? && s.client.phase.Looping? {
      var t := Do(cfg, s, a);
      if t.client.phase.Looping? && !NoTerminate(s.down.socket) {
        var i :| 0 <= i < |s.down.socket| && s.down.socket[i].Terminate?;
        assert t.down.socket[i - 1] == s.down.socket[i];
      }
    } else if a.Write? && !NoTerminate(s.down.socket) {
      var i :| 0 <= i < |s.down.socket| && s.down.socket[i].Terminate?;
      assert Do(cfg, s, a).down.socket[i] == s.down.socket[i];
    }
  }

  lemma {:induction false} GuardedPath(cfg: Config, states: seq<State>, actions: seq<Action>, n: nat)
    requires IsPath(cfg, states, actions) && Guarded(states[0]) && HangUp !in actions && n < |states|
    ensures Guarded(states[n])
  {
    if n > 0 {
      GuardedPath(cfg, states, actions, n - 1);
      assert Enabled(states[n - 1], actions[n - 1]) && actions[n - 1] in actions;
      GuardedStep(cfg, states[n - 1], actions[n - 1]);
    }
  }

  /** A client that is still looping can be misled exactly when the connector has hung up on it
      while no Terminate was on its socket. */
  lemma MisledExactly(cfg: Config, states: seq<State>, actions: seq<Action>, n: nat)
    requires IsRun(cfg, states, actions) && n < |states| && states[n].client.phase.Looping?
    ensures CanMislead(cfg, states[n]) <==> states[n].up.closed && NoTerminate(states[n].down.socket)
  {
    RunInv(cfg, states, actions, n);
    var s := states[n];
    if s.up.closed && NoTerminate(s.down.socket) {
      if s.down.closed {
        EndMisleads(cfg, s);
      } else {
        EndMisleads(cfg, Do(cfg, s, WriterStops));
        OneStepMore(cfg, s, WriterStops);
      }
    } else if p, q :| Misleads(cfg, s, p, q) {
      GuardedPath(cfg, p, q, |q|);
      assert false;
    }
  }

  /** A hang-up that comes too early passes for success, whatever the child does: a run in which no
      child was ever started. */
  lemma SuccessWithoutChild(cfg: Config) returns (states: seq<State>, actions: seq<Action>)
    ensures IsRun(cfg, states, actions)
    ensures var s := states[|actions|]; s.client.phase.Succeeded? && s.hand.children == 0
  {
    actions := [SendInit(true), HangUp, WriterStops, EndOfStream];
    var a := Do(cfg, Initial(), actions[0]);
    var b := Do(cfg, a, actions[1]);
    var c := Do(cfg, b, actions[2]);
    states := [Initial(), a, b, c, Do(cfg, c, actions[3])];
  }

  /** A run may go on. */
  lemma RunOn(cfg: Config, states: seq<State>, actions: seq<Action>, a: Action)
    returns (longer: seq<State>, steps: seq<Action>)
    requires IsRun(cfg, states, actions) && Enabled(states[|actions|], a)
    ensures IsRun(cfg, longer, steps) && longer[|steps|] == Do(cfg, states[|actions|], a)
  {
    longer, steps := states + [Do(cfg, states[|actions|], a)], actions + [a];
  }

  /** A child has been started, and the connector has closed the connection on the waiting client. */
  lemma HungUpOnChild(cfg: Config) returns (states: seq<State>, actions: seq<Action>)
    ensures IsRun(cfg, states, actions)
    ensures var s := states[|actions|];
            s.client.phase.Looping? && s.down.closed && s.down.socket == [] && s.hand.child.Alive?
  {
    states, actions := [Initial()], [];
    states, actions := RunOn(cfg, states, actions, SendInit(true));
    states, actions := RunOn(cfg, states, actions, ReadCommand);
    states, actions := RunOn(cfg, states, actions, TakeInit(AllPipes));
    states, actions := RunOn(cfg, states, actions, HangUp);
    states, actions := RunOn(cfg, states, actions, WriterStops);
  }

  /** Runs in which the child is alive, or has exited with any code at all, when the client reports
      success. */
  lemma SuccessWithAnyChild(cfg: Config, child: Child) returns (states: seq<State>, actions: seq<Action>)
    requires !child.NoChild?
    ensures IsRun(cfg, states, actions)
    ensures var s := states[|actions|]; s.client.phase.Succeeded? && s.hand.child == child
  {
    states, actions := HungUpOnChild(cfg);
    if child.Exited? {
      states, actions := RunOn(cfg, states, actions, Exit(child.code));
    }
    states, actions := RunOn(cfg, states, actions, EndOfStream);
  }
}
