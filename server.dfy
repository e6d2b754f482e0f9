/**
 * The recording server (Server.cpp): three flags, the five request handlers
 * with their validation order, the dispatch of a received line to a handler,
 * and the `run` loop that serves one client connection after another over a
 * named pipe.
 *
 * The collaborators are abstract inputs. The number of monitors is a
 * parameter; folder resolution is a function from the path to the outcome
 * of `GetFolderFromPathAsync`; the pipe is a script of connect, receive,
 * send and disconnect outcomes. The capture object is represented by the
 * calls the server makes on it, recorded in order.
 */
module RecorderServer {
  import opened Wrappers
  import opened Conversions
  import opened CommandLines

  /** The request opcodes and response statuses, in the order the enumerations declare them. */
  const START: int := 0
  const STOP: int := 1
  const CANCEL: int := 2
  const DISCONNECT: int := 3
  const KILL: int := 4
  const SUCCESS: int := 0
  const FAILURE: int := 1

  const START_USAGE: string := "start <framerate> <framesBufferSize> <monitorIndex>"
  const ALREADY_STARTED: string := "recording already started"
  const FRAMERATE_NOT_INT: string := "framerate must be and integer"
  const BUFFER_NOT_INT: string := "framesBufferSize must be an integer"
  const MONITOR_NOT_INT: string := "monitorIndex must be an integer"
  const MONITOR_OUT_OF_RANGE: string := "monitorIndex out of range"
  const STOP_USAGE: string := "stop <folderPath>"
  const NOT_STARTED: string := "recording not started"
  const FOLDER_INVALID_ARGUMENT: string := "invalid argument to open folder"
  const FOLDER_INVALID_PATH: string := "the specified path is invalid"
  const NOT_A_REQUEST: string := " is not a valid server request"
  const REQUEST_USAGE: string := "[start <framerate> | stop <folder> | cancel | disconnect | kill]"

  /** Why a request failed: one case per message the handlers and `run` send. */
  datatype Reason =
    | StartUsage | AlreadyStarted | FramerateNotInt | BufferNotInt | MonitorNotInt | MonitorOutOfRange
    | StopUsage | NotStarted | FolderInvalidArgument | FolderInvalidPath
    | NotARequest(token: string) | RequestUsage

  /** The phrase sent after "Server Usage:" for each reason. */
  function ReasonText(r: Reason): (text: string)
    ensures text != []
  {
    match r
    case StartUsage => START_USAGE
    case AlreadyStarted => ALREADY_STARTED
    case FramerateNotInt => FRAMERATE_NOT_INT
    case BufferNotInt => BUFFER_NOT_INT
    case MonitorNotInt => MONITOR_NOT_INT
    case MonitorOutOfRange => MONITOR_OUT_OF_RANGE
    case StopUsage => STOP_USAGE
    case NotStarted => NOT_STARTED
    case FolderInvalidArgument => FOLDER_INVALID_ARGUMENT
    case FolderInvalidPath => FOLDER_INVALID_PATH
    case NotARequest(token) => token + NOT_A_REQUEST
    case RequestUsage => REQUEST_USAGE
  }

  /** What a handler answers: success, or failure for a reason. */
  datatype Response = Succeeded | Failed(reason: Reason)

  /** The line sent back: the status number, and for a failure " Server Usage: " and the reason's phrase. */
  function Wire(r: Response): (w: string)
    ensures |w| >= 1 && w[..1] == IntToString(if r.Succeeded? then SUCCESS else FAILURE)
    ensures r.Succeeded? <==> |w| == 1
  {
    match r
    case Succeeded => IntToString(SUCCESS)
    case Failed(reason) => IntToString(FAILURE) + " Server Usage: " + ReasonText(reason)
  }

  /** Split into tokens, a reply is its status followed, for a failure, by "Server", "Usage:" and the reason's tokens. */
  lemma WireTokens(r: Response)
    ensures Tokenize(Wire(r)) == match r
      case Succeeded => ["0"]
      case Failed(reason) => ["1", "Server", "Usage:"] + Tokenize(ReasonText(reason))
  {
    match r
    case Succeeded =>
      assert Wire(r) == "0";
      TokenizeToken("0", "");
      assert "0" + "" == "0";
    case Failed(reason) =>
      FailureTokens(ReasonText(reason));
  }

  lemma FailureTokens(text: string)
    ensures Tokenize(IntToString(FAILURE) + " Server Usage: " + text) == ["1", "Server", "Usage:"] + Tokenize(text)
  {
    var ts := ["1", "Server", "Usage:"];
    assert Spaced(ts[2..], text) == "Usage:" + " " + text;
    assert Spaced(ts[1..], text) == "Server" + " " + ("Usage:" + " " + text);
    assert IntToString(FAILURE) + " Server Usage: " + text == Spaced(ts, text);
    PrefixTokens(ts, text);
  }

  /** What the server does with the capture object, in the order it does it. */
  datatype CaptureCall =
    | Created(framerate: int32, framesBufferSize: int32, monitorIndex: int32)
    | Closed
    | ClosedAndSaved(folder: string)

  /** The outcome of `GetFolderFromPathAsync`: a folder, `hresult_invalid_argument`, or another `hresult_error`. */
  datatype FolderLookup = Resolved | InvalidArgument | InvalidPath

  datatype ServerState = ServerState(isCapturing: bool, isDisconnect: bool, isKill: bool, captureCalls: seq<CaptureCall>)

  /** Every capture that is closed was created, none is created while another is open, and `isCapturing` says whether one is open. */
  ghost predicate CallsAlternate(calls: seq<CaptureCall>) {
    forall i :: 0 <= i < |calls| ==> (calls[i].Created? <==> i % 2 == 0)
  }

  ghost predicate ValidState(s: ServerState) {
    && CallsAlternate(s.captureCalls)
    && (s.isCapturing <==> |s.captureCalls| % 2 == 1)
    && (s.isKill ==> s.isDisconnect)
  }

  datatype StartDecision =
    | StartRejected(reason: Reason)
    | StartAccepted(framerate: int32, framesBufferSize: int32, monitorIndex: int32)

  /**
   * The checks of `start`, in order: four tokens, not already capturing,
   * three integers, and a monitor index below the number of monitors.
   */
  function DecideStart(cmd: CommandLine, isCapturing: bool, monitorCount: nat): (d: StartDecision)
    ensures cmd.Size() != 4 ==> d == StartRejected(StartUsage)
    ensures cmd.Size() == 4 && isCapturing ==> d == StartRejected(AlreadyStarted)
    ensures d.StartAccepted? <==>
      && cmd.Size() == 4 && !isCapturing
      && Stoi(cmd.tokens[1]).Some? && Stoi(cmd.tokens[2]).Some? && Stoi(cmd.tokens[3]).Some?
      && 0 <= Stoi(cmd.tokens[3]).value < monitorCount
    ensures d.StartAccepted? ==>
      d == StartAccepted(Stoi(cmd.tokens[1]).value, Stoi(cmd.tokens[2]).value, Stoi(cmd.tokens[3]).value)
    ensures cmd.Size() == 4 && !isCapturing && Stoi(cmd.tokens[1]).None? ==> d == StartRejected(FramerateNotInt)
    ensures cmd.Size() == 4 && !isCapturing && Stoi(cmd.tokens[1]).Some? && Stoi(cmd.tokens[2]).None? ==>
      d == StartRejected(BufferNotInt)
    ensures (cmd.Size() == 4 && !isCapturing && Stoi(cmd.tokens[1]).Some? && Stoi(cmd.tokens[2]).Some?
             && Stoi(cmd.tokens[3]).None?) ==> d == StartRejected(MonitorNotInt)
    ensures (cmd.Size() == 4 && !isCapturing && Stoi(cmd.tokens[1]).Some? && Stoi(cmd.tokens[2]).Some?
             && Stoi(cmd.tokens[3]).Some? && !(0 <= Stoi(cmd.tokens[3]).value < monitorCount)) ==>
      d == StartRejected(MonitorOutOfRange)
  {
    if cmd.Size() != 4 then StartRejected(StartUsage)
    else if isCapturing then StartRejected(AlreadyStarted)
    else
      var framerate := cmd.TryGetAsInt(1, 0).value;
      var framesBufferSize := cmd.TryGetAsInt(2, 0).value;
      var monitorIndex := cmd.TryGetAsInt(3, 0).value;
      if !framerate.success then StartRejected(FramerateNotInt)
      else if !framesBufferSize.success then StartRejected(BufferNotInt)
      else if !monitorIndex.success then StartRejected(MonitorNotInt)
      else if monitorIndex.value < 0 || monitorCount <= monitorIndex.value then StartRejected(MonitorOutOfRange)
      else StartAccepted(framerate.value, framesBufferSize.value, monitorIndex.value)
  }

  datatype StopDecision = StopRejected(reason: Reason) | StopAccepted(folder: string)

  /** The checks of `stop`, in order: two tokens, capturing, and a folder path that resolves. */
  function DecideStop(cmd: CommandLine, isCapturing: bool, resolve: string -> FolderLookup): (d: StopDecision)
    ensures cmd.Size() != 2 ==> d == StopRejected(StopUsage)
    ensures cmd.Size() == 2 && !isCapturing ==> d == StopRejected(NotStarted)
    ensures d.StopAccepted? <==> cmd.Size() == 2 && isCapturing && resolve(cmd.tokens[1]) == Resolved
    ensures d.StopAccepted? ==> d.folder == cmd.tokens[1]
    ensures cmd.Size() == 2 && isCapturing && resolve(cmd.tokens[1]) == InvalidArgument ==>
      d == StopRejected(FolderInvalidArgument)
  {
    if cmd.Size() != 2 then StopRejected(StopUsage)
    else if !isCapturing then StopRejected(NotStarted)
    else
      var path := cmd.Get(1).value;
      match resolve(path)
      case InvalidArgument => StopRejected(FolderInvalidArgument)
      case InvalidPath => StopRejected(FolderInvalidPath)
      case Resolved => StopAccepted(path)
  }

  /** A handler's new state and its response. */
  datatype Step = Step(next: ServerState, response: Response)

  /** `start`: a rejection answers its reason and changes nothing; acceptance opens a capture with the parsed values. */
  function StartStep(s: ServerState, cmd: CommandLine, monitorCount: nat): (r: Step)
    ensures var d := DecideStart(cmd, s.isCapturing, monitorCount);
      && (r.response.Succeeded? <==> d.StartAccepted?)
      && (d.StartRejected? ==> r == Step(s, Failed(d.reason)))
      && (d.StartAccepted? ==>
            && r.next.isCapturing && r.next.isDisconnect == s.isDisconnect && r.next.isKill == s.isKill
            && r.next.captureCalls == s.captureCalls + [Created(d.framerate, d.framesBufferSize, d.monitorIndex)])
  {
    match DecideStart(cmd, s.isCapturing, monitorCount)
    case StartRejected(reason) => Step(s, Failed(reason))
    case StartAccepted(fr, buf, mon) =>
      Step(s.(isCapturing := true, captureCalls := s.captureCalls + [Created(fr, buf, mon)]), Succeeded)
  }

  /** `stop`: a rejection answers its reason and changes nothing; acceptance closes the capture and saves into the folder. */
  function StopStep(s: ServerState, cmd: CommandLine, resolve: string -> FolderLookup): (r: Step)
    ensures var d := DecideStop(cmd, s.isCapturing, resolve);
      && (r.response.Succeeded? <==> d.StopAccepted?)
      && (d.StopRejected? ==> r == Step(s, Failed(d.reason)))
      && (d.StopAccepted? ==>
            && !r.next.isCapturing && r.next.isDisconnect == s.isDisconnect && r.next.isKill == s.isKill
            && r.next.captureCalls == s.captureCalls + [ClosedAndSaved(d.folder)])
  {
    match DecideStop(cmd, s.isCapturing, resolve)
    case StopRejected(reason) => Step(s, Failed(reason))
    case StopAccepted(folder) =>
      Step(s.(isCapturing := false, captureCalls := s.captureCalls + [ClosedAndSaved(folder)]), Succeeded)
  }

  /** `cancel`: it fails and changes nothing unless capturing; otherwise the capture is closed without saving. */
  function CancelStep(s: ServerState): (r: Step)
    ensures r.response.Succeeded? <==> s.isCapturing
    ensures !s.isCapturing ==> r == Step(s, Failed(NotStarted))
    ensures s.isCapturing ==>
      && !r.next.isCapturing && r.next.isDisconnect == s.isDisconnect && r.next.isKill == s.isKill
      && r.next.captureCalls == s.captureCalls + [Closed]
  {
    if !s.isCapturing then Step(s, Failed(NotStarted))
    else Step(s.(isCapturing := false, captureCalls := s.captureCalls + [Closed]), Succeeded)
  }

  /** `disconnect` always succeeds and sets only `isDisconnect`. */
  function DisconnectStep(s: ServerState): (r: Step)
    ensures r.response == Succeeded && r.next.isDisconnect
    ensures r.next.isCapturing == s.isCapturing && r.next.isKill == s.isKill && r.next.captureCalls == s.captureCalls
  {
    Step(s.(isDisconnect := true), Succeeded)
  }

  /** `kill` always succeeds and sets `isDisconnect` and `isKill`; a running capture is left open. */
  function KillStep(s: ServerState): (r: Step)
    ensures r.response == Succeeded && r.next.isDisconnect && r.next.isKill
    ensures r.next.isCapturing == s.isCapturing && r.next.captureCalls == s.captureCalls
  {
    Step(s.(isDisconnect := true, isKill := true), Succeeded)
  }

  /** How `run` reads the first token of a request line. */
  datatype Request = NotAnInteger(token: string) | Opcode(code: int32)

  /** The first token as an opcode; `None` when the line has no token, where `TryGetAsInt(0, …)` throws. */
  function Classify(cmd: CommandLine): (r: Option<Request>)
    ensures r.None? <==> cmd.tokens == []
    ensures r.Some? ==> (r.value.NotAnInteger? <==> Stoi(cmd.tokens[0]).None?)
    ensures r.Some? && r.value.NotAnInteger? ==> r.value.token == cmd.tokens[0]
    ensures r.Some? && r.value.Opcode? ==> r.value.code == Stoi(cmd.tokens[0]).value
  {
    match cmd.TryGetAsInt(0, 0)
    case OutOfRange => None
    case Ok(parsed) => if parsed.success then Some(Opcode(parsed.value)) else Some(NotAnInteger(cmd.Get(0).value))
  }

  /** What one received line does: `None` when the exception escapes `run`, otherwise the handler's step. */
  function DispatchStep(s: ServerState, cmd: CommandLine, monitorCount: nat, resolve: string -> FolderLookup): (r: Option<Step>)
    ensures r.None? <==> cmd.tokens == []
    ensures r.Some? ==> var calls := r.value.next.captureCalls;
      s.captureCalls <= calls && |calls| <= |s.captureCalls| + 1
    ensures cmd.tokens != [] && Stoi(cmd.tokens[0]).None? ==> r == Some(Step(s, Failed(NotARequest(cmd.tokens[0]))))
    ensures cmd.tokens != [] && Stoi(cmd.tokens[0]).Some? && !(0 <= Stoi(cmd.tokens[0]).value <= 4) ==>
      r == Some(Step(s, Failed(RequestUsage)))
    ensures cmd.tokens != [] && Stoi(cmd.tokens[0]) == Some(START as int32) ==> r == Some(StartStep(s, cmd, monitorCount))
    ensures cmd.tokens != [] && Stoi(cmd.tokens[0]) == Some(STOP as int32) ==> r == Some(StopStep(s, cmd, resolve))
    ensures cmd.tokens != [] && Stoi(cmd.tokens[0]) == Some(CANCEL as int32) ==> r == Some(CancelStep(s))
    ensures cmd.tokens != [] && Stoi(cmd.tokens[0]) == Some(DISCONNECT as int32) ==> r == Some(DisconnectStep(s))
    ensures cmd.tokens != [] && Stoi(cmd.tokens[0]) == Some(KILL as int32) ==> r == Some(KillStep(s))
  {
    match Classify(cmd)
    case None => None
    case Some(NotAnInteger(token)) => Some(Step(s, Failed(NotARequest(token))))
    case Some(Opcode(code)) =>
      if code == START then Some(StartStep(s, cmd, monitorCount))
      else if code == STOP then Some(StopStep(s, cmd, resolve))
      else if code == CANCEL then Some(CancelStep(s))
      else if code == DISCONNECT then Some(DisconnectStep(s))
      else if code == KILL then Some(KillStep(s))
      else Some(Step(s, Failed(RequestUsage)))
  }

  /** Handling a request keeps the server's invariant. */
  lemma DispatchKeepsValid(s: ServerState, cmd: CommandLine, monitorCount: nat, resolve: string -> FolderLookup)
    requires ValidState(s)
    ensures DispatchStep(s, cmd, monitorCount, resolve).Some? ==> ValidState(DispatchStep(s, cmd, monitorCount, resolve).value.next)
  {
    match DecideStart(cmd, s.isCapturing, monitorCount)
    case StartAccepted(fr, buf, mon) => CallKeepsValid(s, Created(fr, buf, mon));
    case _ =>
    match DecideStop(cmd, s.isCapturing, resolve)
    case StopAccepted(folder) => CallKeepsValid(s, ClosedAndSaved(folder));
    case _ =>
    if s.isCapturing {
      CallKeepsValid(s, Closed);
    }
  }

  /** Creating a capture when none is open, or closing the open one, keeps the server's invariant. */
  lemma CallKeepsValid(s: ServerState, c: CaptureCall)
    requires ValidState(s) && (c.Created? <==> !s.isCapturing)
    ensures ValidState(s.(isCapturing := !s.isCapturing, captureCalls := s.captureCalls + [c]))
  {
    var calls := s.captureCalls + [c];
    assert calls[|s.captureCalls|] == c;
  }

  /** A failed request changes nothing; a successful one is the only way the capture is created or closed. */
  lemma FailureChangesNothing(s: ServerState, cmd: CommandLine, monitorCount: nat, resolve: string -> FolderLookup)
    ensures match DispatchStep(s, cmd, monitorCount, resolve)
      case None => true
      case Some(st) => st.response.Failed? ==> st.next == s
  {
  }

  /**
   * `disconnect` and `kill` never touch the capture: a recording in
   * progress survives the end of the connection and even the end of `run`.
   */
  lemma DisconnectKeepsCapture(s: ServerState, cmd: CommandLine, monitorCount: nat, resolve: string -> FolderLookup)
    requires Classify(cmd) == Some(Opcode(DISCONNECT)) || Classify(cmd) == Some(Opcode(KILL))
    ensures var st := DispatchStep(s, cmd, monitorCount, resolve).value;
      && st.response == Succeeded
      && st.next.isCapturing == s.isCapturing && st.next.captureCalls == s.captureCalls
      && st.next.isDisconnect
      && (st.next.isKill <==> s.isKill || Classify(cmd) == Some(Opcode(KILL)))
  {
  }

  /** While a recording is in progress a well-formed second `start` is refused and creates nothing. */
  lemma SecondStartRefused(s: ServerState, cmd: CommandLine, monitorCount: nat)
    requires s.isCapturing && cmd.Size() == 4
    ensures StartStep(s, cmd, monitorCount) == Step(s, Failed(AlreadyStarted))
  {
  }

  /** `cancel` ignores its arguments: with or without them it closes the running capture. */
  lemma CancelIgnoresArguments(s: ServerState, cmd: CommandLine, monitorCount: nat, resolve: string -> FolderLookup)
    requires cmd.tokens != [] && Stoi(cmd.tokens[0]) == Some(CANCEL)
    ensures DispatchStep(s, cmd, monitorCount, resolve) == Some(CancelStep(s))
    ensures s.isCapturing ==> CancelStep(s).next.captureCalls == s.captureCalls + [Closed]
  {
  }

  /** A line is left unanswered, with the exception escaping `run`, exactly when it is blank. */
  lemma BlankLineUnanswered(s: ServerState, line: string, monitorCount: nat, resolve: string -> FolderLookup)
    ensures DispatchStep(s, CommandLine(Tokenize(line)), monitorCount, resolve).None? <==> AllSpace(line)
  {
    TokenizeEmptyWhenBlank(line);
  }

  /** The pipe's outcomes, consumed in order, one entry per call; a script that runs out fails every further call. */
  datatype PipeScript = PipeScript(connects: seq<bool>, receives: seq<Option<string>>, sends: seq<bool>, disconnects: seq<bool>)

  /** What became of a received line: its response was sent, its send failed, or nothing was sent. The line on the pipe is `Wire(response)`. */
  datatype Reply = Delivered(response: Response) | Undelivered(response: Response) | Unanswered

  /** One received line: the connection it came on, the state before and after its handler, and what was sent back. */
  datatype Exchange = Exchange(connection: nat, request: string, before: ServerState, after: ServerState, reply: Reply)

  /** How `run` ends: after `kill`, on a pipe failure to connect or to disconnect, or by an escaping exception. */
  datatype RunEnd = Killed | ConnectFailed | DisconnectFailed | Uncaught

  /** How many entries of each of the script's four streams have been used. */
  datatype Cursor = Cursor(connects: nat, receives: nat, sends: nat, disconnects: nat)

  /** One connection as served: the receive and send positions after it, the state it leaves, its exchanges, and whether an exception escaped. */
  datatype Session = Session(receives: nat, sends: nat, state: ServerState, exchanges: seq<Exchange>, uncaught: bool)

  /** A whole `run`: how it ends, its exchanges, the final state and the script positions it stopped at. */
  datatype RunResult = RunResult(end: RunEnd, transcript: seq<Exchange>, final: ServerState, used: Cursor)

  /** `session`, after the exchanges `t`. */
  function Extended(t: seq<Exchange>, session: Session): Session {
    Session(session.receives, session.sends, session.state, t + session.exchanges, session.uncaught)
  }

  /** `r`, after the exchanges `t`. */
  function Resumed(t: seq<Exchange>, r: RunResult): RunResult {
    RunResult(r.end, t + r.transcript, r.final, r.used)
  }

  /** `s` with `isDisconnect` set to `isDisconnect`. */
  function WithDisconnect(s: ServerState, isDisconnect: bool): ServerState {
    ServerState(s.isCapturing, isDisconnect, s.isKill, s.captureCalls)
  }

  /** The state once the reply is sent: a failed send also ends the connection. */
  function Settled(e: Exchange): ServerState {
    if e.reply.Undelivered? then WithDisconnect(e.after, true) else e.after
  }

  /** The exchange agrees with the handlers: the handler's response and new state, or no reply for a blank line. */
  ghost predicate Handled(e: Exchange, monitorCount: nat, resolve: string -> FolderLookup) {
    match DispatchStep(e.before, CommandLine(Tokenize(e.request)), monitorCount, resolve)
    case None => e.reply == Unanswered && e.after == e.before
    case Some(st) => !e.reply.Unanswered? && e.reply.response == st.response && e.after == st.next
  }

  /** The exchange is what `answer` gives for its own connection, line and state, sent unless it is undelivered. */
  ghost predicate Consistent(e: Exchange, answer: Handler) {
    e == answer(e.connection, e.request, !e.reply.Undelivered?, e.before)
  }

  /**
   * Consecutive exchanges: the first did not end `run`, the second comes on
   * the same connection or a later one, on the same one only if the first did
   * not end it, and it starts from the state the first left.
   */
  ghost predicate Linked(a: Exchange, b: Exchange) {
    && !Settled(a).isKill
    && !a.reply.Unanswered?
    && a.connection <= b.connection
    && (a.connection == b.connection ==> !Settled(a).isDisconnect)
    && b.before == WithDisconnect(Settled(a), false)
  }

  /**
   * The exchanges of one `run` that started in state `s0`: each is what
   * `answer` gives, the first starts from `s0` and each later one is
   * linked to the one before it.
   */
  ghost predicate Transcript(t: seq<Exchange>, s0: ServerState, answer: Handler)
    decreases |t|
  {
    if t == [] then true
    else
      var init, e := t[..|t| - 1], t[|t| - 1];
      && Transcript(init, s0, answer)
      && Consistent(e, answer) && e.connection >= 1
      && (if init == [] then e.before == WithDisconnect(s0, false) else Linked(init[|init| - 1], e))
  }

  /** The state the last exchange left, or `s0` when there was none. */
  function Latest(t: seq<Exchange>, s0: ServerState): ServerState {
    if t == [] then s0 else Settled(t[|t| - 1])
  }

  /** The exchange for the line `input` received in state `s`; its reply reaches the client iff `sendOk`. */
  function Answer(connection: nat, input: string, sendOk: bool, s: ServerState, monitorCount: nat,
                  resolve: string -> FolderLookup): Exchange {
    match DispatchStep(s, CommandLine(Tokenize(input)), monitorCount, resolve)
    case None => Exchange(connection, input, s, s, Unanswered)
    case Some(st) => Exchange(connection, input, s, st.next, if sendOk then Delivered(st.response) else Undelivered(st.response))
  }

  /** A way of answering one line: from the connection, the line, whether the send succeeds and the state, its exchange. */
  type Handler = (nat, string, bool, ServerState) -> Exchange

  /** The server's own handler, `Answer`. */
  function ServerAnswers(monitorCount: nat, resolve: string -> FolderLookup): Handler {
    (connection: nat, input: string, sendOk: bool, s: ServerState) => Answer(connection, input, sendOk, s, monitorCount, resolve)
  }

  /** `answer` answers every line as `Answer` does. */
  ghost predicate Handles(answer: Handler, monitorCount: nat, resolve: string -> FolderLookup) {
    forall connection, input, sendOk, s {:trigger Answer(connection, input, sendOk, s, monitorCount, resolve)} ::
      answer(connection, input, sendOk, s) == Answer(connection, input, sendOk, s, monitorCount, resolve)
  }

  lemma ServerAnswersHandle(monitorCount: nat, resolve: string -> FolderLookup)
    ensures Handles(ServerAnswers(monitorCount, resolve), monitorCount, resolve)
  {
  }

  /**
   * `run`'s inner loop on connection `connection`, read off the script from
   * receive position `receives` and send position `sends`: a failed receive
   * uses up its entry and ends the connection, a failed send ends it after
   * its exchange, and a blank line ends `run` with the exception.
   */
  function ServeSpec(pipe: PipeScript, connection: nat, receives: nat, sends: nat, s: ServerState, answer: Handler): Session
    decreases |pipe.receives| - receives
  {
    if s.isDisconnect then Session(receives, sends, s, [], false)
    else if receives >= |pipe.receives| then Session(receives, sends, WithDisconnect(s, true), [], false)
    else if pipe.receives[receives].None? then Session(receives + 1, sends, WithDisconnect(s, true), [], false)
    else
      var e := answer(connection, pipe.receives[receives].value, sends < |pipe.sends| && pipe.sends[sends], s);
      if e.reply.Unanswered? then Session(receives + 1, sends, s, [e], true)
      else
        var rest := ServeSpec(pipe, connection, receives + 1, if sends < |pipe.sends| then sends + 1 else sends, Settled(e), answer);
        Extended([e], rest)
  }

  /**
   * `run` read off the script from position `c`, in state `s`, after
   * `connection` connections: unless killed, clear `isDisconnect`, connect,
   * serve the connection and disconnect, and go round again.
   */
  function RunSpec(pipe: PipeScript, c: Cursor, connection: nat, s: ServerState, answer: Handler): RunResult
    decreases |pipe.connects| - c.connects
  {
    if s.isKill then RunResult(Killed, [], s, c)
    else if c.connects >= |pipe.connects| || !pipe.connects[c.connects] then RunResult(ConnectFailed, [], WithDisconnect(s, false), c)
    else
      var session := ServeSpec(pipe, connection + 1, c.receives, c.sends, WithDisconnect(s, false), answer);
      var c' := Cursor(c.connects + 1, session.receives, session.sends, c.disconnects);
      if session.uncaught then RunResult(Uncaught, session.exchanges, session.state, c')
      else if c.disconnects >= |pipe.disconnects| || !pipe.disconnects[c.disconnects] then
        RunResult(DisconnectFailed, session.exchanges, session.state, c')
      else
        Resumed(session.exchanges, RunSpec(pipe, Cursor(c.connects + 1, session.receives, session.sends, c.disconnects + 1),
                                           connection + 1, session.state, answer))
  }

  class Server {
    var isCapturing: bool
    var isDisconnect: bool
    var isKill: bool
    var captureCalls: seq<CaptureCall>

    function State(): ServerState
      reads this
    {
      ServerState(isCapturing, isDisconnect, isKill, captureCalls)
    }

    ghost predicate Valid()
      reads this
    {
      ValidState(State())
    }

    constructor ()
      ensures Valid()
      ensures !isCapturing && !isDisconnect && !isKill && captureCalls == []
    {
      isCapturing := false;
      isDisconnect := false;
      isKill := false;
      captureCalls := [];
    }

    /**
     * The five handlers. Each returns the response whose `Wire` rendering is
     * the string the C++ handler returns.
     */
    method Start(cmd: CommandLine, monitorCount: nat) returns (response: Response)
      modifies this
      ensures State() == StartStep(old(State()), cmd, monitorCount).next
      ensures response == StartStep(old(State()), cmd, monitorCount).response
    {
      if cmd.Size() != 4 {
        return Failed(StartUsage);
      }
      if isCapturing {
        return Failed(AlreadyStarted);
      }
      var framerate := cmd.TryGetAsInt(1, 0);
      if !framerate.value.success {
        return Failed(FramerateNotInt);
      }
      var framesBufferSize := cmd.TryGetAsInt(2, 0);
      if !framesBufferSize.value.success {
        return Failed(BufferNotInt);
      }
      var monitorIndex := cmd.TryGetAsInt(3, 0);
      if !monitorIndex.value.success {
        return Failed(MonitorNotInt);
      }
      if monitorIndex.value.value < 0 || monitorCount <= monitorIndex.value.value {
        return Failed(MonitorOutOfRange);
      }
      captureCalls := captureCalls + [Created(framerate.value.value, framesBufferSize.value.value, monitorIndex.value.value)];
      isCapturing := true;
      return Succeeded;
    }

    method Stop(cmd: CommandLine, resolve: string -> FolderLookup) returns (response: Response)
      modifies this
      ensures State() == StopStep(old(State()), cmd, resolve).next
      ensures response == StopStep(old(State()), cmd, resolve).response
    {
      if cmd.Size() != 2 {
        return Failed(StopUsage);
      }
      if !isCapturing {
        return Failed(NotStarted);
      }
      var path := cmd.Get(1);
      var folder := resolve(path.value);
      if folder == InvalidArgument {
        return Failed(FolderInvalidArgument);
      } else if folder == InvalidPath {
        return Failed(FolderInvalidPath);
      }
      captureCalls := captureCalls + [ClosedAndSaved(path.value)];
      isCapturing := false;
      return Succeeded;
    }

    method Cancel(cmd: CommandLine) returns (response: Response)
      modifies this
      ensures State() == CancelStep(old(State())).next
      ensures response == CancelStep(old(State())).response
    {
      if !isCapturing {
        return Failed(NotStarted);
      }
      captureCalls := captureCalls + [Closed];
      isCapturing := false;
      return Succeeded;
    }

    method Disconnect(cmd: CommandLine) returns (response: Response)
      modifies this
      ensures State() == DisconnectStep(old(State())).next
      ensures response == DisconnectStep(old(State())).response
    {
      isDisconnect := true;
      return Succeeded;
    }

    method Kill(cmd: CommandLine) returns (response: Response)
      modifies this
      ensures State() == KillStep(old(State())).next
      ensures response == KillStep(old(State())).response
    {
      isDisconnect := true;
      isKill := true;
      return Succeeded;
    }

    /** The body of `run`'s inner loop after the receive: read the opcode and answer with the matching handler. */
    method Respond(cmd: CommandLine, monitorCount: nat, resolve: string -> FolderLookup) returns (reply: Option<Response>)
      requires Valid()
      modifies this
      ensures Valid()
      ensures match DispatchStep(old(State()), cmd, monitorCount, resolve)
        case None => reply == None && State() == old(State())
        case Some(st) => reply == Some(st.response) && State() == st.next
    {
      DispatchKeepsValid(State(), cmd, monitorCount, resolve);
      var request := cmd.TryGetAsInt(0, 0);
      if request.OutOfRange? {
        return None;
      }
      if !request.value.success {
        var token := cmd.Get(0);
        return Some(Failed(NotARequest(token.value)));
      }
      var code := request.value.value;
      var response: Response;
      if code == START {
        response := Start(cmd, monitorCount);
      } else if code == STOP {
        response := Stop(cmd, resolve);
      } else if code == CANCEL {
        response := Cancel(cmd);
      } else if code == DISCONNECT {
        response := Disconnect(cmd);
      } else if code == KILL {
        response := Kill(cmd);
      } else {
        response := Failed(RequestUsage);
      }
      reply := Some(response);
    }

    /**
     * One pass of `run`'s inner loop after a line is received: answer it, and
     * send the answer, which fails unless `sendOk`. The exchange is the one
     * `answer` gives, which `Handles` fixes to `Answer`.
     */
    method Serve(connection: nat, input: string, sendOk: bool, monitorCount: nat, resolve: string -> FolderLookup, ghost answer: Handler)
      returns (e: Exchange)
      requires Valid() && Handles(answer, monitorCount, resolve)
      modifies this
      ensures Valid()
      ensures e == answer(connection, input, sendOk, old(State()))
      ensures State() == Settled(e) && (e.reply.Unanswered? ==> State() == old(State()))
    {
      var cmd := ParseLine(input);
      assert cmd == CommandLine(Tokenize(input));
      assert answer(connection, input, sendOk, State()) == Answer(connection, input, sendOk, State(), monitorCount, resolve);
      var before := State();
      var reply := Respond(cmd, monitorCount, resolve);
      if reply.None? {
        return Exchange(connection, input, before, State(), Unanswered);
      }
      var after := State();
      if !sendOk {
        isDisconnect := true;
        return Exchange(connection, input, before, after, Undelivered(reply.value));
      }
      return Exchange(connection, input, before, after, Delivered(reply.value));
    }

    /**
     * `run`: until killed, reset `isDisconnect`, wait for a client, serve the
     * connection, and disconnect. A failed connect or disconnect ends `run`;
     * so does the escaping exception of a blank line. `answer` is the
     * server's handler of one line, `Answer`.
     */
    method Run(monitorCount: nat, resolve: string -> FolderLookup, pipe: PipeScript, ghost answer: Handler)
      returns (end: RunEnd, transcript: seq<Exchange>)
      requires Valid() && Handles(answer, monitorCount, resolve)
      modifies this
      ensures Valid()
      ensures var r := RunSpec(pipe, Cursor(0, 0, 0, 0), 0, old(State()), answer);
        end == r.end && transcript == r.transcript && State() == r.final
    {
      ghost var goal := RunSpec(pipe, Cursor(0, 0, 0, 0), 0, State(), answer);
      var c := Cursor(0, 0, 0, 0);
      var connection: nat := 0;
      var failure: Option<RunEnd> := None;
      transcript := [];
      while failure == None && !isKill
        invariant Valid()
        invariant c.connects <= |pipe.connects| && c.receives <= |pipe.receives|
        invariant c.sends <= |pipe.sends| && c.disconnects <= |pipe.disconnects|
        invariant failure == None ==>
          goal == Resumed(transcript, RunSpec(pipe, c, connection, State(), answer))
        invariant failure != None ==> goal == RunResult(failure.value, transcript, State(), c)
        decreases |pipe.connects| - c.connects, if failure == None then 1 else 0
      {
        var exchanges;
        ghost var t := transcript;
        c, exchanges, failure := ServeClient(connection, monitorCount, resolve, pipe, c, answer);
        connection := connection + 1;
        transcript := transcript + exchanges;
        if failure == None {
          ghost var rest := RunSpec(pipe, c, connection, State(), answer);
          assert t + (exchanges + rest.transcript) == transcript + rest.transcript;
        }
      }
      assert transcript + [] == transcript;
      end := if failure == None then Killed else failure.value;
    }

    /**
     * One pass of `run`'s outer loop: reset `isDisconnect`, connect, serve
     * the connection and disconnect, from script position `c`.
     */
    method ServeClient(connection: nat, monitorCount: nat, resolve: string -> FolderLookup, pipe: PipeScript, c: Cursor,
                       ghost answer: Handler)
      returns (c': Cursor, exchanges: seq<Exchange>, failure: Option<RunEnd>)
      requires Valid() && !isKill && Handles(answer, monitorCount, resolve)
      requires c.connects <= |pipe.connects| && c.receives <= |pipe.receives|
      requires c.sends <= |pipe.sends| && c.disconnects <= |pipe.disconnects|
      modifies this
      ensures Valid()
      ensures c'.connects <= |pipe.connects| && c'.receives <= |pipe.receives|
      ensures c'.sends <= |pipe.sends| && c'.disconnects <= |pipe.disconnects|
      ensures c.connects <= c'.connects && (failure == None ==> c'.connects == c.connects + 1)
      ensures failure == None || failure == Some(ConnectFailed) || failure == Some(DisconnectFailed) || failure == Some(Uncaught)
      ensures var r := RunSpec(pipe, c, connection, old(State()), answer);
        if failure == None then
          r == Resumed(exchanges, RunSpec(pipe, c', connection + 1, State(), answer))
        else r == RunResult(failure.value, exchanges, State(), c')
    {
      isDisconnect := false;
      if c.connects == |pipe.connects| || !pipe.connects[c.connects] {
        return c, [], Some(ConnectFailed);
      }
      var receives, sends, uncaught;
      receives, sends, exchanges, uncaught := ServeConnection(connection + 1, monitorCount, resolve, pipe, c.receives, c.sends, answer);
      c' := Cursor(c.connects + 1, receives, sends, c.disconnects);
      if uncaught {
        return c', exchanges, Some(Uncaught);
      }
      if c.disconnects == |pipe.disconnects| || !pipe.disconnects[c.disconnects] {
        return c', exchanges, Some(DisconnectFailed);
      }
      c' := Cursor(c.connects + 1, receives, sends, c.disconnects + 1);
      failure := None;
    }

    /**
     * `run`'s inner loop: answer the lines received on one connection until
     * it ends. A failed receive or send ends the connection
     * (`HANDLE_EXCEPTION`), as do `disconnect` and `kill`.
     */
    method ServeConnection(connection: nat, monitorCount: nat, resolve: string -> FolderLookup, pipe: PipeScript,
                           receives0: nat, sends0: nat, ghost answer: Handler)
      returns (receives: nat, sends: nat, exchanges: seq<Exchange>, uncaught: bool)
      requires Valid() && Handles(answer, monitorCount, resolve)
      requires receives0 <= |pipe.receives| && sends0 <= |pipe.sends|
      modifies this
      ensures Valid() && receives <= |pipe.receives| && sends <= |pipe.sends|
      ensures Session(receives, sends, State(), exchanges, uncaught) == ServeSpec(pipe, connection, receives0, sends0, old(State()), answer)
    {
      ghost var goal := ServeSpec(pipe, connection, receives0, sends0, State(), answer);
      receives, sends, exchanges := receives0, sends0, [];
      while !isDisconnect
        invariant Valid()
        invariant receives <= |pipe.receives| && sends <= |pipe.sends|
        invariant goal == Extended(exchanges, ServeSpec(pipe, connection, receives, sends, State(), answer))
        decreases |pipe.receives| - receives, if isDisconnect then 0 else 1
      {
        if receives == |pipe.receives| || pipe.receives[receives].None? {
          if receives < |pipe.receives| {
            receives := receives + 1;
          }
          isDisconnect := true;
          continue;
        }
        var input := pipe.receives[receives].value;
        var sendOk := sends < |pipe.sends| && pipe.sends[sends];
        receives := receives + 1;
        ghost var before := exchanges;
        var e := Serve(connection, input, sendOk, monitorCount, resolve, answer);
        exchanges := exchanges + [e];
        if e.reply.Unanswered? {
          return receives, sends, exchanges, true;
        }
        if sends < |pipe.sends| {
          sends := sends + 1;
        }
        ghost var rest := ServeSpec(pipe, connection, receives, sends, State(), answer);
        assert before + ([e] + rest.exchanges) == exchanges + rest.exchanges;
      }
      assert exchanges + [] == exchanges;
      uncaught := false;
    }
  }

  /** `Answer` agrees with the handlers, and keeps the connection, the line and the state it started from. */
  lemma AnswerConsistent(connection: nat, input: string, sendOk: bool, s: ServerState, monitorCount: nat,
                         resolve: string -> FolderLookup)
    ensures var e := Answer(connection, input, sendOk, s, monitorCount, resolve);
      && e.connection == connection && e.request == input && e.before == s
      && Handled(e, monitorCount, resolve)
      && (e.reply.Undelivered? <==> !sendOk && !e.reply.Unanswered?)
  {
  }

  /** For the server's handler, an exchange is consistent exactly when it agrees with the handlers. */
  lemma ConsistentMeans(e: Exchange, monitorCount: nat, resolve: string -> FolderLookup, answer: Handler)
    requires Handles(answer, monitorCount, resolve)
    ensures Consistent(e, answer) <==> Handled(e, monitorCount, resolve)
  {
    assert answer(e.connection, e.request, !e.reply.Undelivered?, e.before)
        == Answer(e.connection, e.request, !e.reply.Undelivered?, e.before, monitorCount, resolve);
  }

  /**
   * What holds while `run` serves connection `connection` in state `st`:
   * the invariant, the transcript so far, the state it left, and an open
   * connection that its last exchange did not end.
   */
  ghost predicate Serving(t: seq<Exchange>, s0: ServerState, connection: nat, answer: Handler, st: ServerState) {
    && ValidState(st)
    && Transcript(t, s0, answer)
    && (t != [] ==> t[|t| - 1].connection <= connection)
    && st == WithDisconnect(Latest(t, s0), st.isDisconnect)
    && (t != [] ==> !t[|t| - 1].reply.Unanswered?)
    && (t != [] && t[|t| - 1].connection == connection && Settled(t[|t| - 1]).isDisconnect ==> st.isDisconnect)
  }

  /** A new connection starts with `isDisconnect` cleared; nothing in the transcript belongs to it yet. */
  lemma ServingNextConnection(t: seq<Exchange>, s0: ServerState, connection: nat, answer: Handler, st: ServerState)
    requires Serving(t, s0, connection, answer, st) && !st.isKill
    ensures Serving(t, s0, connection + 1, answer, WithDisconnect(st, false))
  {
  }

  /** One more line answered on an open connection extends the transcript, and keeps `Serving` unless it went unanswered. */
  lemma ServingAnswer(t: seq<Exchange>, s0: ServerState, connection: nat, monitorCount: nat,
                      resolve: string -> FolderLookup, s: ServerState, input: string, sendOk: bool, answer: Handler)
    requires connection >= 1 && !s.isDisconnect && Handles(answer, monitorCount, resolve)
    requires Serving(t, s0, connection, answer, s)
    ensures var e := answer(connection, input, sendOk, s);
      && e.request == input
      && Transcript(t + [e], s0, answer)
      && ValidState(Settled(e))
      && (e.reply.Unanswered? ==> Settled(e) == s)
      && (!e.reply.Unanswered? ==> Serving(t + [e], s0, connection, answer, Settled(e)))
  {
    var e := Answer(connection, input, sendOk, s, monitorCount, resolve);
    assert answer(connection, input, sendOk, s) == e;
    AnswerConsistent(connection, input, sendOk, s, monitorCount, resolve);
    ConsistentMeans(e, monitorCount, resolve, answer);
    DispatchKeepsValid(s, CommandLine(Tokenize(input)), monitorCount, resolve);
    TranscriptExtends(t, e, s0, answer, connection);
  }

  /**
   * What serving one connection leaves after the transcript `t`: when an
   * exception escaped, a transcript ending in the blank line that raised it;
   * otherwise a connection that is over, with `Serving` still holding.
   */
  ghost predicate Served(t: seq<Exchange>, s0: ServerState, connection: nat, answer: Handler, session: Session) {
    var t' := t + session.exchanges;
    && (session.uncaught ==>
      && ValidState(session.state) && !session.state.isKill && Transcript(t', s0, answer)
      && session.state == Latest(t', s0) && t' != [] && t'[|t'| - 1].reply.Unanswered?)
    && (!session.uncaught ==> session.state.isDisconnect && Serving(t', s0, connection, answer, session.state))
  }

  lemma ServedExtended(t: seq<Exchange>, e: Exchange, s0: ServerState, connection: nat, answer: Handler, session: Session)
    requires Served(t + [e], s0, connection, answer, session)
    ensures Served(t, s0, connection, answer, Extended([e], session))
  {
    assert t + ([e] + session.exchanges) == (t + [e]) + session.exchanges;
  }

  /** Serving a connection from any point of the script, in a state that `Serving` describes, is `Served`. */
  lemma {:induction false} ServeSpecServing(pipe: PipeScript, connection: nat, receives: nat, sends: nat, s: ServerState,
                                            t: seq<Exchange>, s0: ServerState, monitorCount: nat, resolve: string -> FolderLookup,
                                            answer: Handler)
    requires connection >= 1 && Handles(answer, monitorCount, resolve)
    requires Serving(t, s0, connection, answer, s)
    ensures Served(t, s0, connection, answer, ServeSpec(pipe, connection, receives, sends, s, answer))
    decreases |pipe.receives| - receives, 1
  {
    var session := ServeSpec(pipe, connection, receives, sends, s, answer);
    if s.isDisconnect || receives >= |pipe.receives| || pipe.receives[receives].None? {
      ServedClosed(t, s0, connection, answer, s, session);
    } else {
      var sendOk := sends < |pipe.sends| && pipe.sends[sends];
      var input := pipe.receives[receives].value;
      var e := answer(connection, input, sendOk, s);
      ServingAnswer(t, s0, connection, monitorCount, resolve, s, input, sendOk, answer);
      if !e.reply.Unanswered? {
        var sends' := if sends < |pipe.sends| then sends + 1 else sends;
        ServeSpecServingNext(pipe, connection, receives, sends', t, s0, monitorCount, resolve, answer, e, session);
      }
    }
  }

  /** A connection whose client has gone, or whose receive failed, is over with nothing answered. */
  lemma ServedClosed(t: seq<Exchange>, s0: ServerState, connection: nat, answer: Handler, s: ServerState, session: Session)
    requires Serving(t, s0, connection, answer, s)
    requires session.exchanges == [] && !session.uncaught && session.state == WithDisconnect(s, true)
    ensures Served(t, s0, connection, answer, session)
  {
    assert t + [] == t;
  }

  /** The step of `ServeSpecServing` past a line that was answered. */
  lemma {:induction false} ServeSpecServingNext(pipe: PipeScript, connection: nat, receives: nat, sends': nat,
                                                t: seq<Exchange>, s0: ServerState, monitorCount: nat, resolve: string -> FolderLookup,
                                                answer: Handler, e: Exchange, session: Session)
    requires connection >= 1 && Handles(answer, monitorCount, resolve)
    requires receives < |pipe.receives| && Serving(t + [e], s0, connection, answer, Settled(e))
    requires session == Extended([e], ServeSpec(pipe, connection, receives + 1, sends', Settled(e), answer))
    ensures Served(t, s0, connection, answer, session)
    decreases |pipe.receives| - receives, 0
  {
    ServeSpecServing(pipe, connection, receives + 1, sends', Settled(e), t + [e], s0, monitorCount, resolve, answer);
    ServedExtended(t, e, s0, connection, answer, ServeSpec(pipe, connection, receives + 1, sends', Settled(e), answer));
  }


  /**
   * What the rest of a `run` leaves after the transcript `t`: a transcript
   * that leaves the final state, `Killed` only after `kill`, and `Uncaught`
   * exactly when the last line went unanswered.
   */
  ghost predicate RunServed(t: seq<Exchange>, s0: ServerState, answer: Handler, r: RunResult) {
    var t' := t + r.transcript;
    && ValidState(r.final) && Transcript(t', s0, answer)
    && WithDisconnect(r.final, false) == WithDisconnect(Latest(t', s0), false)
    && (r.end == Killed ==> r.final.isKill)
    && (r.end == ConnectFailed || r.end == Uncaught ==> !r.final.isKill)
    && (r.end == Uncaught <==> t' != [] && t'[|t'| - 1].reply == Unanswered)
  }

  lemma RunServedResumed(t: seq<Exchange>, exchanges: seq<Exchange>, s0: ServerState, answer: Handler, r: RunResult)
    requires RunServed(t + exchanges, s0, answer, r)
    ensures RunServed(t, s0, answer, Resumed(exchanges, r))
  {
    assert t + (exchanges + r.transcript) == (t + exchanges) + r.transcript;
  }

  /** The connection that `run` serves next, from a state that `Serving` describes. */
  lemma ServeClientServing(pipe: PipeScript, c: Cursor, connection: nat, s: ServerState,
                           t: seq<Exchange>, s0: ServerState, monitorCount: nat, resolve: string -> FolderLookup, answer: Handler)
    requires Handles(answer, monitorCount, resolve) && !s.isKill
    requires Serving(t, s0, connection, answer, s)
    ensures Served(t, s0, connection + 1, answer, ServeSpec(pipe, connection + 1, c.receives, c.sends, WithDisconnect(s, false), answer))
  {
    ServingNextConnection(t, s0, connection, answer, s);
    ServeSpecServing(pipe, connection + 1, c.receives, c.sends, WithDisconnect(s, false), t, s0, monitorCount, resolve, answer);
  }

  /** A `run` that stops before serving: killed, or the next connect failed. */
  lemma RunServedStopped(t: seq<Exchange>, s0: ServerState, connection: nat, answer: Handler, s: ServerState, r: RunResult)
    requires Serving(t, s0, connection, answer, s) && r.transcript == []
    requires (r.end == Killed && s.isKill && r.final == s) || (r.end == ConnectFailed && !s.isKill && r.final == WithDisconnect(s, false))
    ensures RunServed(t, s0, answer, r)
  {
    assert t + [] == t;
  }

  /** A `run` whose connection ended it: an uncaught exception, or a failed disconnect. */
  lemma RunServedSessionEnd(t: seq<Exchange>, s0: ServerState, connection: nat, answer: Handler, session: Session, r: RunResult)
    requires Served(t, s0, connection, answer, session)
    requires r.transcript == session.exchanges && r.final == session.state
    requires (r.end == Uncaught && session.uncaught) || (r.end == DisconnectFailed && !session.uncaught)
    ensures RunServed(t, s0, answer, r)
  {
  }

  /** A connection that closed normally leaves a state that `Serving` describes. */
  lemma ServedContinues(t: seq<Exchange>, s0: ServerState, connection: nat, answer: Handler, session: Session)
    requires Served(t, s0, connection, answer, session) && !session.uncaught
    ensures Serving(t + session.exchanges, s0, connection, answer, session.state)
  {
  }

  /** A `run` from any point of the script, in a state that `Serving` describes, is `RunServed`. */
  lemma {:induction false} RunSpecServing(pipe: PipeScript, c: Cursor, connection: nat, s: ServerState,
                                          t: seq<Exchange>, s0: ServerState, monitorCount: nat, resolve: string -> FolderLookup,
                                          answer: Handler)
    requires Handles(answer, monitorCount, resolve)
    requires Serving(t, s0, connection, answer, s)
    ensures RunServed(t, s0, answer, RunSpec(pipe, c, connection, s, answer))
    decreases |pipe.connects| - c.connects, 1
  {
    var r := RunSpec(pipe, c, connection, s, answer);
    if s.isKill || c.connects >= |pipe.connects| || !pipe.connects[c.connects] {
      RunServedStopped(t, s0, connection, answer, s, r);
    } else {
      ServeClientServing(pipe, c, connection, s, t, s0, monitorCount, resolve, answer);
      var session := ServeSpec(pipe, connection + 1, c.receives, c.sends, WithDisconnect(s, false), answer);
      if session.uncaught || c.disconnects >= |pipe.disconnects| || !pipe.disconnects[c.disconnects] {
        RunServedSessionEnd(t, s0, connection + 1, answer, session, r);
      } else {
        var c' := Cursor(c.connects + 1, session.receives, session.sends, c.disconnects + 1);
        RunSpecServingNext(pipe, c, connection, t, s0, monitorCount, resolve, answer, session, c', r);
      }
    }
  }

  /** The step of `RunSpecServing` past a connection that closed normally. */
  lemma {:induction false} RunSpecServingNext(pipe: PipeScript, c: Cursor, connection: nat,
                                              t: seq<Exchange>, s0: ServerState, monitorCount: nat, resolve: string -> FolderLookup,
                                              answer: Handler, session: Session, c': Cursor, r: RunResult)
    requires Handles(answer, monitorCount, resolve)
    requires Served(t, s0, connection + 1, answer, session) && !session.uncaught
    requires c'.connects == c.connects + 1 && c.connects < |pipe.connects|
    requires r == Resumed(session.exchanges, RunSpec(pipe, c', connection + 1, session.state, answer))
    ensures RunServed(t, s0, answer, r)
    decreases |pipe.connects| - c.connects, 0
  {
    var rest := RunSpec(pipe, c', connection + 1, session.state, answer);
    ServedContinues(t, s0, connection + 1, answer, session);
    RunSpecServing(pipe, c', connection + 1, session.state, t + session.exchanges, s0, monitorCount, resolve, answer);
    RunServedResumed(t, session.exchanges, s0, answer, rest);
  }

  /**
   * A whole `run` from a valid state: its exchanges form a transcript that
   * leaves the final state, `Killed` only after `kill`, and `Uncaught`
   * exactly when the last line went unanswered.
   */
  lemma RunSpecMeans(pipe: PipeScript, s0: ServerState, monitorCount: nat, resolve: string -> FolderLookup, answer: Handler)
    requires ValidState(s0) && Handles(answer, monitorCount, resolve)
    ensures var r := RunSpec(pipe, Cursor(0, 0, 0, 0), 0, s0, answer);
      && ValidState(r.final) && Transcript(r.transcript, s0, answer)
      && WithDisconnect(r.final, false) == WithDisconnect(Latest(r.transcript, s0), false)
      && (r.end == Killed ==> r.final.isKill)
      && (r.end == ConnectFailed || r.end == Uncaught ==> !r.final.isKill)
      && (r.end == Uncaught <==> r.transcript != [] && r.transcript[|r.transcript| - 1].reply == Unanswered)
  {
    var r := RunSpec(pipe, Cursor(0, 0, 0, 0), 0, s0, answer);
    RunSpecServing(pipe, Cursor(0, 0, 0, 0), 0, s0, [], s0, monitorCount, resolve, answer);
    RunServedFromStart(s0, answer, r);
  }

  lemma RunServedFromStart(s0: ServerState, answer: Handler, r: RunResult)
    requires RunServed([], s0, answer, r)
    ensures && ValidState(r.final) && Transcript(r.transcript, s0, answer)
      && WithDisconnect(r.final, false) == WithDisconnect(Latest(r.transcript, s0), false)
      && (r.end == Killed ==> r.final.isKill)
      && (r.end == ConnectFailed || r.end == Uncaught ==> !r.final.isKill)
      && (r.end == Uncaught <==> r.transcript != [] && r.transcript[|r.transcript| - 1].reply == Unanswered)
  {
    assert [] + r.transcript == r.transcript;
  }

  /** The lines of the receive outcomes, in order, skipping the failed receives. */
  function Lines(rs: seq<Option<string>>): seq<string> {
    if rs == [] then [] else (if rs[0].Some? then [rs[0].value] else []) + Lines(rs[1..])
  }

  /** The lines a transcript answered, in order. */
  function Requests(t: seq<Exchange>): seq<string> {
    if t == [] then [] else [t[0].request] + Requests(t[1..])
  }

  lemma {:induction false} LinesAppend(a: seq<Option<string>>, b: seq<Option<string>>)
    ensures Lines(a + b) == Lines(a) + Lines(b)
  {
    if a != [] {
      assert (a + b)[1..] == a[1..] + b;
      LinesAppend(a[1..], b);
      var head := if a[0].Some? then [a[0].value] else [];
      assert head + (Lines(a[1..]) + Lines(b)) == (head + Lines(a[1..])) + Lines(b);
    } else {
      assert a + b == b;
    }
  }

  lemma {:induction false} RequestsAppend(a: seq<Exchange>, b: seq<Exchange>)
    ensures Requests(a + b) == Requests(a) + Requests(b)
  {
    if a != [] {
      assert (a + b)[1..] == a[1..] + b;
      RequestsAppend(a[1..], b);
      assert [a[0].request] + (Requests(a[1..]) + Requests(b)) == ([a[0].request] + Requests(a[1..])) + Requests(b);
    } else {
      assert a + b == b;
    }
  }

  /** A connection answers, in order, exactly the lines it received: every receive it used, up to the failed one. */
  lemma {:induction false} ServeSpecRequests(pipe: PipeScript, connection: nat, receives: nat, sends: nat, s: ServerState,
                                             monitorCount: nat, resolve: string -> FolderLookup, answer: Handler)
    requires receives <= |pipe.receives| && Handles(answer, monitorCount, resolve)
    ensures var session := ServeSpec(pipe, connection, receives, sends, s, answer);
      && receives <= session.receives <= |pipe.receives|
      && Requests(session.exchanges) == Lines(pipe.receives[receives..session.receives])
    decreases |pipe.receives| - receives
  {
    var session := ServeSpec(pipe, connection, receives, sends, s, answer);
    if s.isDisconnect || receives == |pipe.receives| {
    } else if pipe.receives[receives].None? {
      assert pipe.receives[receives..session.receives] == [pipe.receives[receives]];
    } else {
      var input, sendOk := pipe.receives[receives].value, sends < |pipe.sends| && pipe.sends[sends];
      var e := answer(connection, input, sendOk, s);
      assert e.request == input by {
        assert e == Answer(connection, input, sendOk, s, monitorCount, resolve);
      }
      if e.reply.Unanswered? {
        assert pipe.receives[receives..session.receives] == [pipe.receives[receives]];
      } else {
        var sends' := if sends < |pipe.sends| then sends + 1 else sends;
        ServeSpecRequests(pipe, connection, receives + 1, sends', Settled(e), monitorCount, resolve, answer);
        var rest := ServeSpec(pipe, connection, receives + 1, sends', Settled(e), answer);
        var used := pipe.receives[receives..session.receives];
        assert used[0] == pipe.receives[receives] && used[1..] == pipe.receives[receives + 1..session.receives];
        assert ([e] + rest.exchanges)[1..] == rest.exchanges;
      }
    }
  }

  /**
   * What a `run` from cursor `c` used of the script: the lines of the
   * receives it used are, in order, the lines it answered; it connected only
   * on successful connects, disconnected only on successful disconnects, and
   * a pipe failure ended it at the entry that failed.
   */
  ghost predicate UsesScript(pipe: PipeScript, c: Cursor, r: RunResult) {
    && c.connects <= r.used.connects <= |pipe.connects|
    && c.receives <= r.used.receives <= |pipe.receives|
    && c.disconnects <= r.used.disconnects <= |pipe.disconnects|
    && Requests(r.transcript) == Lines(pipe.receives[c.receives..r.used.receives])
    && (forall i :: c.connects <= i < r.used.connects ==> pipe.connects[i])
    && (forall i :: c.disconnects <= i < r.used.disconnects ==> pipe.disconnects[i])
    && (r.end == ConnectFailed ==> r.used.connects == |pipe.connects| || !pipe.connects[r.used.connects])
    && (r.end == DisconnectFailed ==> r.used.disconnects == |pipe.disconnects| || !pipe.disconnects[r.used.disconnects])
  }

  /** A connection that answered the lines of the receives from `c.receives` up to `session.receives`. */
  ghost predicate SessionUses(pipe: PipeScript, c: Cursor, session: Session) {
    && c.connects < |pipe.connects| && pipe.connects[c.connects]
    && c.receives <= session.receives <= |pipe.receives|
    && Requests(session.exchanges) == Lines(pipe.receives[c.receives..session.receives])
  }

  /** A `run` that stops before serving uses nothing. */
  lemma UsesScriptStopped(pipe: PipeScript, c: Cursor, r: RunResult)
    requires c.connects <= |pipe.connects| && c.receives <= |pipe.receives| && c.disconnects <= |pipe.disconnects|
    requires r.transcript == [] && r.used == c
    requires r.end == Killed || (r.end == ConnectFailed && (c.connects == |pipe.connects| || !pipe.connects[c.connects]))
    ensures UsesScript(pipe, c, r)
  {
  }

  /** A `run` that its connection ended used the connect and the connection's receives. */
  lemma UsesScriptSessionEnd(pipe: PipeScript, c: Cursor, session: Session, r: RunResult)
    requires c.disconnects <= |pipe.disconnects| && SessionUses(pipe, c, session)
    requires r.transcript == session.exchanges && r.used == Cursor(c.connects + 1, session.receives, session.sends, c.disconnects)
    requires r.end == Uncaught || (r.end == DisconnectFailed && (c.disconnects == |pipe.disconnects| || !pipe.disconnects[c.disconnects]))
    ensures UsesScript(pipe, c, r)
  {
  }

  /** A connection that closed normally, followed by the rest of the `run`. */
  lemma UsesScriptResumed(pipe: PipeScript, c: Cursor, session: Session, c': Cursor, rest: RunResult)
    requires SessionUses(pipe, c, session) && c.disconnects < |pipe.disconnects| && pipe.disconnects[c.disconnects]
    requires c' == Cursor(c.connects + 1, session.receives, session.sends, c.disconnects + 1)
    requires UsesScript(pipe, c', rest)
    ensures UsesScript(pipe, c, Resumed(session.exchanges, rest))
  {
    RequestsJoin(pipe.receives, c.receives, session.receives, rest.used.receives, session.exchanges, rest.transcript);
  }

  /** Two runs of answered lines, each the lines of its stretch of receives, join up. */
  lemma RequestsJoin(rs: seq<Option<string>>, i: nat, j: nat, k: nat, a: seq<Exchange>, b: seq<Exchange>)
    requires i <= j <= k <= |rs|
    requires Requests(a) == Lines(rs[i..j]) && Requests(b) == Lines(rs[j..k])
    ensures Requests(a + b) == Lines(rs[i..k])
  {
    RequestsAppend(a, b);
    LinesAppend(rs[i..j], rs[j..k]);
    assert rs[i..k] == rs[i..j] + rs[j..k];
  }

  /** A `run` from cursor `c` is `UsesScript`. */
  lemma {:induction false} RunSpecUsesScript(pipe: PipeScript, c: Cursor, connection: nat, s: ServerState,
                                              monitorCount: nat, resolve: string -> FolderLookup, answer: Handler)
    requires c.connects <= |pipe.connects| && c.receives <= |pipe.receives| && c.disconnects <= |pipe.disconnects|
    requires Handles(answer, monitorCount, resolve)
    ensures UsesScript(pipe, c, RunSpec(pipe, c, connection, s, answer))
    decreases |pipe.connects| - c.connects, 1
  {
    var r := RunSpec(pipe, c, connection, s, answer);
    if s.isKill || c.connects >= |pipe.connects| || !pipe.connects[c.connects] {
      UsesScriptStopped(pipe, c, r);
    } else {
      var session := ServeSpec(pipe, connection + 1, c.receives, c.sends, WithDisconnect(s, false), answer);
      ServeSpecRequests(pipe, connection + 1, c.receives, c.sends, WithDisconnect(s, false), monitorCount, resolve, answer);
      if session.uncaught || c.disconnects >= |pipe.disconnects| || !pipe.disconnects[c.disconnects] {
        UsesScriptSessionEnd(pipe, c, session, r);
      } else {
        var c' := Cursor(c.connects + 1, session.receives, session.sends, c.disconnects + 1);
        RunSpecUsesScriptNext(pipe, c, connection, monitorCount, resolve, answer, session, c', r);
      }
    }
  }

  /** The step of `RunSpecUsesScript` past a connection that closed normally. */
  lemma {:induction false} RunSpecUsesScriptNext(pipe: PipeScript, c: Cursor, connection: nat,
                                                  monitorCount: nat, resolve: string -> FolderLookup, answer: Handler,
                                                  session: Session, c': Cursor, r: RunResult)
    requires Handles(answer, monitorCount, resolve)
    requires SessionUses(pipe, c, session) && c.disconnects < |pipe.disconnects| && pipe.disconnects[c.disconnects]
    requires c' == Cursor(c.connects + 1, session.receives, session.sends, c.disconnects + 1)
    requires r == Resumed(session.exchanges, RunSpec(pipe, c', connection + 1, session.state, answer))
    ensures UsesScript(pipe, c, r)
    decreases |pipe.connects| - c.connects, 0
  {
    RunSpecUsesScript(pipe, c', connection + 1, session.state, monitorCount, resolve, answer);
    UsesScriptResumed(pipe, c, session, c', RunSpec(pipe, c', connection + 1, session.state, answer));
  }

  /**
   * A failed receive uses up its entry: the client that connects next is
   * served from the next receive. Here the first connection's receive fails
   * and the second client's `kill` ends `run`.
   */
  lemma FailedReceiveSkipped(monitorCount: nat, resolve: string -> FolderLookup)
    ensures var s0 := ServerState(false, false, false, []);
      var killed := ServerState(false, true, true, []);
      var pipe := PipeScript([true, true], [None, Some("4")], [true], [true, true]);
      RunSpec(pipe, Cursor(0, 0, 0, 0), 0, s0, ServerAnswers(monitorCount, resolve))
        == RunResult(Killed, [Exchange(2, "4", s0, killed, Delivered(Succeeded))], killed, Cursor(2, 2, 1, 2))
  {
    var s0 := ServerState(false, false, false, []);
    var killed := ServerState(false, true, true, []);
    var pipe := PipeScript([true, true], [None, Some("4")], [true], [true, true]);
    var answer := ServerAnswers(monitorCount, resolve);
    var e := Exchange(2, "4", s0, killed, Delivered(Succeeded));
    assert Tokenize("4") == ["4"] by { assert "4" + "" == "4"; TokenizeToken("4", ""); }
    assert Stoi("4") == Some(4) by { StoiOfNumeral(4, false); assert "" + NatToString(4) == "4"; }
    assert answer(2, "4", true, s0) == e;
    assert ServeSpec(pipe, 1, 0, 0, s0, answer) == Session(1, 0, WithDisconnect(s0, true), [], false);
    assert ServeSpec(pipe, 2, 1, 0, s0, answer) == Session(2, 1, killed, [e], false);
    assert RunSpec(pipe, Cursor(1, 1, 0, 1), 1, WithDisconnect(s0, true), answer)
        == RunResult(Killed, [e], killed, Cursor(2, 2, 1, 2));
  }

  /** Appending one exchange that starts from the state the transcript left keeps it a transcript. */
  lemma TranscriptExtends(t: seq<Exchange>, e: Exchange, s0: ServerState, answer: Handler, connection: nat)
    requires Transcript(t, s0, answer)
    requires Consistent(e, answer) && e.connection == connection >= 1
    requires t != [] ==> t[|t| - 1].connection <= connection
    requires e.before == WithDisconnect(Latest(t, s0), false)
    requires t != [] ==> !Settled(t[|t| - 1]).isKill && !t[|t| - 1].reply.Unanswered?
    requires t != [] && t[|t| - 1].connection == connection ==> !Settled(t[|t| - 1]).isDisconnect
    ensures Transcript(t + [e], s0, answer)
  {
    var t' := t + [e];
    assert t'[..|t'| - 1] == t && t'[|t'| - 1] == e;
    assert t != [] ==> Linked(t[|t| - 1], e);
  }

  /** A transcript, read exchange by exchange: every exchange agrees with the handlers and came on a connection. */
  lemma {:induction false} TranscriptConsistent(t: seq<Exchange>, s0: ServerState, monitorCount: nat, resolve: string -> FolderLookup,
                                                answer: Handler, k: nat)
    requires Transcript(t, s0, answer) && Handles(answer, monitorCount, resolve) && k < |t|
    ensures Handled(t[k], monitorCount, resolve) && t[k].connection >= 1
    decreases |t|
  {
    if k < |t| - 1 {
      var init := t[..|t| - 1];
      TranscriptConsistent(init, s0, monitorCount, resolve, answer, k);
      assert init[k] == t[k];
    } else {
      ConsistentMeans(t[k], monitorCount, resolve, answer);
    }
  }

  /** The first exchange starts from `s0` and consecutive exchanges are linked. */
  lemma {:induction false} TranscriptLinked(t: seq<Exchange>, s0: ServerState, answer: Handler)
    requires Transcript(t, s0, answer)
    ensures t != [] ==> t[0].before == WithDisconnect(s0, false)
    ensures forall k :: 0 <= k < |t| - 1 ==> Linked(t[k], t[k + 1])
    decreases |t|
  {
    if |t| >= 2 {
      var init := t[..|t| - 1];
      TranscriptLinked(init, s0, answer);
      assert init[0] == t[0];
      forall k | 0 <= k < |t| - 1
        ensures Linked(t[k], t[k + 1])
      {
        if k < |init| - 1 {
          assert init[k] == t[k] && init[k + 1] == t[k + 1];
        }
      }
    }
  }

  /** Connection numbers never decrease along a transcript. */
  lemma {:induction false} TranscriptConnectionsOrdered(t: seq<Exchange>, s0: ServerState, answer: Handler)
    requires Transcript(t, s0, answer)
    ensures forall j, k :: 0 <= j <= k < |t| ==> t[j].connection <= t[k].connection
    decreases |t|
  {
    if t != [] {
      var init := t[..|t| - 1];
      TranscriptConnectionsOrdered(init, s0, answer);
      forall j, k | 0 <= j <= k < |t|
        ensures t[j].connection <= t[k].connection
      {
        if k < |t| - 1 {
          assert init[j] == t[j] && init[k] == t[k];
        } else if j < k {
          assert init[j] == t[j] && init[|init| - 1] == t[k - 1];
        }
      }
    }
  }

}
