/**
 * The client side of the recording protocol (ServerHandle.cpp): each call
 * writes one request line to the pipe, reads one reply line and classifies
 * it. The pipe's behaviour for one call is an input: the send fails, the
 * receive fails, or a reply line arrives. The requests written are recorded.
 */
module ServerHandle {
  import opened Wrappers
  import opened Conversions
  import opened CommandLines
  import opened RecorderServer

  /** `start`'s request: the opcode and the three numbers, separated by single spaces. */
  function StartRequest(framerate: int32, framesBufferSize: int32, monitorIndex: int32): (r: string)
    ensures |r| >= 7 && r[..2] == IntToString(START) + " "
  {
    IntToString(START) + " " + IntToString(framerate) + " " + IntToString(framesBufferSize) + " " + IntToString(monitorIndex)
  }

  /** `stop`'s request: the opcode, a space and the folder path as given. */
  function StopRequest(folderPath: string): (r: string)
    ensures |r| == |folderPath| + 2 && r[..2] == IntToString(STOP) + " " && r[2..] == folderPath
  {
    IntToString(STOP) + " " + folderPath
  }

  /** The requests of `cancel`, `disconnect` and `kill`: the opcode alone. */
  function OpcodeRequest(code: nat): (r: string)
    ensures code <= INT_MAX ==> Stoi(r) == Some(code as int32)
  {
    if code <= INT_MAX then StoiOfIntToString(code as int32); IntToString(code) else IntToString(code)
  }

  const ERROR_PREFIX: string := "Received the following error message from server: "
  const NOT_A_RESPONSE: string := " is not a valid server response"

  /**
   * How a client call ends: it returns, or it throws `invalid_argument` with
   * the server's message, `runtime_error` for a reply it cannot read,
   * `out_of_range` for a reply without a token, or `ios_base::failure` when
   * the pipe fails.
   */
  datatype ClientOutcome = Returned | ServerError(message: string) | ProtocolError(message: string) | TokenOutOfRange | ChannelFailure

  /** What the pipe does during one call. */
  datatype Channel = SendFails | ReceiveFails | Replies(line: string)

  /** The switch all five calls share, on the tokens of the reply. */
  function DecodeResponse(reply: string): (o: ClientOutcome)
    ensures o == TokenOutOfRange <==> Tokenize(reply) == []
    ensures o == Returned <==> Tokenize(reply) != [] && Stoi(Tokenize(reply)[0]) == Some(SUCCESS)
    ensures o.ServerError? <==> Tokenize(reply) != [] && Stoi(Tokenize(reply)[0]) == Some(FAILURE)
    ensures o.ServerError? ==> o.message == ERROR_PREFIX + Join(Tokenize(reply)[1..])
    ensures o.ProtocolError? ==> o.message == Tokenize(reply)[0] + NOT_A_RESPONSE
    ensures o != ChannelFailure
  {
    var cmd := CommandLine(Tokenize(reply));
    match cmd.TryGetAsInt(0, 0)
    case OutOfRange => TokenOutOfRange
    case Ok(response) =>
      if !response.success then ProtocolError(cmd.Get(0).value + NOT_A_RESPONSE)
      else if response.value == SUCCESS then Returned
      else if response.value == FAILURE then ServerError(ERROR_PREFIX + Join(cmd.tokens[1..]))
      else ProtocolError(cmd.Get(0).value + NOT_A_RESPONSE)
  }

  /** What a call ends with for a given behaviour of the pipe. */
  function CallOutcome(channel: Channel): ClientOutcome {
    if channel.Replies? then DecodeResponse(channel.line) else ChannelFailure
  }

  class ServerHandle {
    /** The request lines written to the pipe. */
    var sent: seq<string>

    constructor ()
      ensures sent == []
    {
      sent := [];
    }

    method Start(framerate: int32, framesBufferSize: int32, monitorIndex: int32, channel: Channel) returns (outcome: ClientOutcome)
      modifies this
      ensures sent == old(sent) + (if channel.SendFails? then [] else [StartRequest(framerate, framesBufferSize, monitorIndex)])
      ensures outcome == CallOutcome(channel)
    {
      var request := IntToString(START) + " " + IntToString(framerate) + " " + IntToString(framesBufferSize) + " " + IntToString(monitorIndex);
      outcome := Call(request, channel);
    }

    method Stop(folderPath: string, channel: Channel) returns (outcome: ClientOutcome)
      modifies this
      ensures sent == old(sent) + (if channel.SendFails? then [] else [StopRequest(folderPath)])
      ensures outcome == CallOutcome(channel)
    {
      var request := IntToString(STOP) + " " + folderPath;
      outcome := Call(request, channel);
    }

    method Cancel(channel: Channel) returns (outcome: ClientOutcome)
      modifies this
      ensures sent == old(sent) + (if channel.SendFails? then [] else [OpcodeRequest(CANCEL)])
      ensures outcome == CallOutcome(channel)
    {
      outcome := Call(IntToString(CANCEL), channel);
    }

    method Disconnect(channel: Channel) returns (outcome: ClientOutcome)
      modifies this
      ensures sent == old(sent) + (if channel.SendFails? then [] else [OpcodeRequest(DISCONNECT)])
      ensures outcome == CallOutcome(channel)
    {
      outcome := Call(IntToString(DISCONNECT), channel);
    }

    method Kill(channel: Channel) returns (outcome: ClientOutcome)
      modifies this
      ensures sent == old(sent) + (if channel.SendFails? then [] else [OpcodeRequest(KILL)])
      ensures outcome == CallOutcome(channel)
    {
      outcome := Call(IntToString(KILL), channel);
    }

    /** Send `request`, receive the reply and decode it. */
    method Call(request: string, channel: Channel) returns (outcome: ClientOutcome)
      modifies this
      ensures sent == old(sent) + (if channel.SendFails? then [] else [request])
      ensures outcome == CallOutcome(channel)
    {
      if channel.SendFails? {
        return ChannelFailure;
      }
      sent := sent + [request];
      if channel.ReceiveFails? {
        return ChannelFailure;
      }
      var cmd := ParseLine(channel.line);
      var response := cmd.TryGetAsInt(0, 0);
      if response.OutOfRange? {
        return TokenOutOfRange;
      }
      if !response.value.success {
        var token := cmd.Get(0);
        return ProtocolError(token.value + NOT_A_RESPONSE);
      }
      if response.value.value == SUCCESS {
        return Returned;
      } else if response.value.value == FAILURE {
        var detail := cmd.GetRange(1, cmd.Size());
        assert cmd.tokens[1..cmd.Size()] == cmd.tokens[1..];
        return ServerError(ERROR_PREFIX + detail.value);
      }
      var token := cmd.Get(0);
      return ProtocolError(token.value + NOT_A_RESPONSE);
    }
  }

  /** The numbers `to_string` writes are tokens. */
  lemma NumeralIsToken(n: int)
    ensures IsToken(IntToString(n))
  {
  }

  /** `start`'s request splits into exactly four tokens, which is the arity the server's `start` demands. */
  lemma StartRequestTokens(framerate: int32, framesBufferSize: int32, monitorIndex: int32)
    ensures Tokenize(StartRequest(framerate, framesBufferSize, monitorIndex))
      == ["0", IntToString(framerate), IntToString(framesBufferSize), IntToString(monitorIndex)]
  {
    var ts := [IntToString(START), IntToString(framerate), IntToString(framesBufferSize)];
    var last := IntToString(monitorIndex);
    assert IntToString(START) == "0";
    NumeralIsToken(START);
    NumeralIsToken(framerate);
    NumeralIsToken(framesBufferSize);
    NumeralIsToken(monitorIndex);
    assert Spaced(ts[2..], last) == ts[2] + " " + last;
    assert Spaced(ts[1..], last) == ts[1] + " " + (ts[2] + " " + last);
    assert StartRequest(framerate, framesBufferSize, monitorIndex) == Spaced(ts, last);
    PrefixTokens(ts, last);
    TokenizeToken(last, "");
    assert last + "" == last;
  }

  /**
   * Whatever numbers the client sends, the server reads them back: a
   * server that is not recording accepts `start` with the client's values
   * exactly when the monitor index is below the number of monitors.
   */
  lemma StartRoundTrip(s: ServerState, framerate: int32, framesBufferSize: int32, monitorIndex: int32,
                       monitorCount: nat, resolve: string -> FolderLookup)
    requires !s.isCapturing
    ensures var cmd := CommandLine(Tokenize(StartRequest(framerate, framesBufferSize, monitorIndex)));
      && Classify(cmd) == Some(Opcode(START))
      && (DecideStart(cmd, false, monitorCount) == StartAccepted(framerate, framesBufferSize, monitorIndex)
          <==> 0 <= monitorIndex < monitorCount)
      && (0 <= monitorIndex < monitorCount ==>
            DispatchStep(s, cmd, monitorCount, resolve)
            == Some(Step(s.(isCapturing := true, captureCalls := s.captureCalls + [Created(framerate, framesBufferSize, monitorIndex)]),
                         Succeeded)))
  {
    StartRequestTokens(framerate, framesBufferSize, monitorIndex);
    StoiOfIntToString(0);
    StoiOfIntToString(framerate);
    StoiOfIntToString(framesBufferSize);
    StoiOfIntToString(monitorIndex);
  }

  /** `stop`'s request is the opcode followed by the tokens of the path. */
  lemma StopRequestTokens(folderPath: string)
    ensures Tokenize(StopRequest(folderPath)) == ["1"] + Tokenize(folderPath)
  {
    assert IntToString(STOP) == "1";
    assert StopRequest(folderPath) == Spaced(["1"], folderPath);
    PrefixTokens(["1"], folderPath);
  }

  /**
   * The server takes the folder from the path's tokens: a path with no
   * token, or with white space inside it, fails the arity check of `stop`,
   * and a path of one token reaches the folder lookup (with white space
   * around it dropped).
   */
  lemma StopRoundTrip(folderPath: string, isCapturing: bool, resolve: string -> FolderLookup)
    ensures var d := DecideStop(CommandLine(Tokenize(StopRequest(folderPath))), isCapturing, resolve);
      && (|Tokenize(folderPath)| != 1 ==> d == StopRejected(StopUsage))
      && (|Tokenize(folderPath)| == 1 && isCapturing && resolve(Tokenize(folderPath)[0]) == Resolved ==>
            d == StopAccepted(Tokenize(folderPath)[0]))
      && (IsToken(folderPath) && isCapturing && resolve(folderPath) == Resolved ==> d == StopAccepted(folderPath))
  {
    StopRequestTokens(folderPath);
    if IsToken(folderPath) {
      TokenizeToken(folderPath, "");
      assert folderPath + "" == folderPath;
    }
  }

  /** A Windows path with a space in it is split by the server and refused. */
  lemma StopPathWithSpaceRefused(isCapturing: bool, resolve: string -> FolderLookup)
    ensures DecideStop(CommandLine(Tokenize(StopRequest("C:\\My Frames"))), isCapturing, resolve) == StopRejected(StopUsage)
  {
    var ts := ["C:\\My", "Frames"];
    assert Join(ts) == "C:\\My Frames" by {
      assert ts[1..] == ["Frames"];
    }
    TokenizeJoin(ts);
    StopRoundTrip("C:\\My Frames", isCapturing, resolve);
  }

  /** `cancel`, `disconnect` and `kill` send one token, which the server reads as their opcode. */
  lemma OpcodeRequestRoundTrip(code: nat)
    requires code == CANCEL || code == DISCONNECT || code == KILL
    ensures Tokenize(OpcodeRequest(code)) == [IntToString(code)]
    ensures Classify(CommandLine(Tokenize(OpcodeRequest(code)))) == Some(Opcode(code))
  {
    NumeralIsToken(code);
    TokenizeToken(IntToString(code), "");
    assert IntToString(code) + "" == IntToString(code);
    StoiOfIntToString(code);
  }

  /**
   * What the client makes of each server reply: success returns, and a
   * failure raises the server's error with "Server Usage:" and the reason's
   * tokens re-joined by single spaces.
   */
  lemma ResponseRoundTrip(r: Response)
    ensures DecodeResponse(Wire(r)) == match r
      case Succeeded => Returned
      case Failed(reason) => ServerError(ERROR_PREFIX + Join(["Server", "Usage:"] + Tokenize(ReasonText(reason))))
  {
    match r
    case Succeeded =>
      WireTokens(r);
      assert Stoi("0") == Some(0) by {
        StoiOfIntToString(0);
      }
    case Failed(reason) =>
      FailureDecodes(ReasonText(reason));
  }

  lemma FailureDecodes(text: string)
    ensures DecodeResponse(IntToString(FAILURE) + " Server Usage: " + text)
         == ServerError(ERROR_PREFIX + Join(["Server", "Usage:"] + Tokenize(text)))
  {
    var line := IntToString(FAILURE) + " Server Usage: " + text;
    var rest := ["Server", "Usage:"] + Tokenize(text);
    FailureTokens(text);
    HeadSplit(["1", "Server", "Usage:"], Tokenize(text));
    assert ["1", "Server", "Usage:"][1..] == ["Server", "Usage:"];
    FailureStatusDecodes(line, rest);
  }

  lemma HeadSplit<T>(ts: seq<T>, rest: seq<T>)
    requires ts != []
    ensures ts + rest == [ts[0]] + (ts[1..] + rest)
  {
    assert ts == [ts[0]] + ts[1..];
  }

  /** A reply whose first token is the failure status raises the rest of its tokens, re-joined. */
  lemma FailureStatusDecodes(line: string, rest: seq<string>)
    requires Tokenize(line) == ["1"] + rest
    ensures DecodeResponse(line) == ServerError(ERROR_PREFIX + Join(rest))
  {
    assert Stoi("1") == Some(1) by {
      StoiOfIntToString(1);
    }
    assert (["1"] + rest)[1..] == rest;
  }

  /** A reason whose tokens are separated by single spaces, with no white space at its ends, reaches the client unchanged. */
  lemma ReasonArrivesIntact(reason: Reason)
    requires Tokenize(ReasonText(reason)) != [] && Join(Tokenize(ReasonText(reason))) == ReasonText(reason)
    ensures DecodeResponse(Wire(Failed(reason))) == ServerError(ERROR_PREFIX + "Server Usage: " + ReasonText(reason))
  {
    var text := ReasonText(reason);
    ResponseRoundTrip(Failed(reason));
    JoinUsage(Tokenize(text));
    SeqAssoc(ERROR_PREFIX, "Server Usage: ", text);
  }

  lemma SeqAssoc(a: string, b: string, c: string)
    ensures a + (b + c) == a + b + c
  {
  }

  /** The server prefixes "Server Usage:" to every error; joined, that is "Server Usage: " before the reason. */
  lemma JoinUsage(ts: seq<string>)
    requires ts != []
    ensures Join(["Server", "Usage:"] + ts) == "Server Usage: " + Join(ts)
  {
    var usage := ["Server", "Usage:"];
    JoinAppend(usage, ts);
    assert Join(usage) == "Server Usage:" by {
      assert usage[1..] == ["Usage:"];
    }
  }

  /** The client's `cancel` raises the server's error when no recording is in progress, though its documentation lists only pipe and format failures. */
  lemma CancelWhenIdleRaises(s: ServerState, monitorCount: nat, resolve: string -> FolderLookup)
    requires !s.isCapturing
    ensures var st := DispatchStep(s, CommandLine(Tokenize(OpcodeRequest(CANCEL))), monitorCount, resolve);
      && st == Some(Step(s, Failed(NotStarted)))
      && DecodeResponse(Wire(st.value.response)) == ServerError(ERROR_PREFIX + "Server Usage: " + NOT_STARTED)
  {
    assert ReasonText(NotStarted) == NOT_STARTED;
    IdleCancelRefused(s, monitorCount, resolve);
    NotStartedIsCanonical();
    ReasonArrivesIntact(NotStarted);
  }

  lemma IdleCancelRefused(s: ServerState, monitorCount: nat, resolve: string -> FolderLookup)
    requires !s.isCapturing
    ensures DispatchStep(s, CommandLine(Tokenize(OpcodeRequest(CANCEL))), monitorCount, resolve) == Some(Step(s, Failed(NotStarted)))
  {
    OpcodeRequestRoundTrip(CANCEL);
  }

  lemma NotStartedIsCanonical()
    ensures var text := ReasonText(NotStarted);
      Tokenize(text) != [] && Join(Tokenize(text)) == text
  {
    assert ReasonText(NotStarted) == NOT_STARTED;
    var ts := ["recording", "not", "started"];
    assert Join(ts) == NOT_STARTED by {
      assert ts[1..] == ["not", "started"];
      assert ts[1..][1..] == ["started"];
    }
    TokenizeJoin(ts);
  }

  /** A reply without a token makes the client's `TryGetAsInt(0, …)` throw. */
  lemma BlankReplies()
    ensures DecodeResponse("") == TokenOutOfRange
    ensures DecodeResponse(" \t") == TokenOutOfRange
  {
    assert " \t"[1..] == "\t" && "\t"[1..] == "";
  }

  /** A reply whose first token is not an integer is a format error naming that token. */
  lemma NonNumericReply(token: string, rest: string)
    requires IsToken(token) && Stoi(token).None?
    requires rest == [] || IsSpace(rest[0])
    ensures DecodeResponse(token + rest) == ProtocolError(token + NOT_A_RESPONSE)
  {
    TokenizeToken(token, rest);
  }

  /** A status other than 0 and 1 is a format error too. */
  lemma UnknownStatusReply(status: int32, rest: string)
    requires status != SUCCESS && status != FAILURE
    requires rest == [] || IsSpace(rest[0])
    ensures DecodeResponse(IntToString(status) + rest) == ProtocolError(IntToString(status) + NOT_A_RESPONSE)
  {
    NumeralIsToken(status);
    TokenizeToken(IntToString(status), rest);
    StoiOfIntToString(status);
  }
}
