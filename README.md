# screenrecorder: a Dafny model of the recording core

This project models the sequential logic of a Windows screen recorder.
The recorder runs as a server behind a named pipe. A client asks it to start
a capture, to stop and save the sampled frames, to cancel, to end the
connection, or to shut down. The model has five parts, one Dafny module each:

- `FrameBuffer` (circular_frame_buffer.dfy) is the frame retention buffer.
  - It is a deque of frames with a running byte total.
  - It evicts from the front, either by frame count or, in megabyte mode,
    by a byte budget.
  - The frame size is computed in the source's 32-bit and 64-bit unsigned
    arithmetic.
- `Capture` (simple_capture.dfy) is the capture session.
  - Frames are admitted at a throttled rate into a count-bounded vector.
  - A compare-and-swap makes the teardown run once.
  - Saved frames are named `screenshotNNNN.jpg`.
- `CommandLines` (command_line.dfy) is the token codec under the wire protocol.
  - It splits lines on white space and gives bounds-checked token access.
  - It parses tokens with `std::stoi`.
  - It joins a token range with single spaces.
- `ServerHandle` (server_handle.dfy) is the client.
  - It encodes requests and decodes the reply status.
- `RecorderServer` (server.dfy) is the server.
  - It has three flags and five handlers, each with its own validation order.
  - It dispatches each received line to a handler.
  - Its `run` loop serves one connection after another; a pipe failure
    inside a connection ends that connection (`HANDLE_EXCEPTION`).

Two more modules support the rest:

- `Wrappers` holds `Option`.
- `Conversions` models the standard-library pieces the recorder relies on:
  - `isspace` in the "C" locale;
  - `std::to_string(int)`;
  - `std::stoi`: leading white space, an optional sign, the longest run of
    digits, and a range check against 32-bit `int`.

The collaborators are inputs:

- The number of monitors is a parameter.
- Folder resolution is a function from the path to one of three outcomes: a
  folder, `hresult_invalid_argument`, or another `hresult_error`.
- The pipe is a script of connect, receive, send and disconnect outcomes.
- The clock is a millisecond timestamp passed to each call.
- Frames and textures are opaque ids.

The server keeps the calls it makes on its capture object as a sequence:
created, closed, or closed-and-saved. The capture session keeps a ghost
history of its teardown steps.

`Server.Run` is proved against `RunSpec`, a reference definition of `run` by
recursion over the pipe script. `Run` returns the end reason and the
transcript of exchanges that `RunSpec` gives, and leaves the state that
`RunSpec` gives. The properties of a run are proved about `RunSpec`:

- `RunSpecMeans`: the exchanges form a `Transcript`. Each exchange agrees with
  the handler functions. The first exchange starts from the initial state, and
  each later one starts from the state the one before it left. The last one
  leaves the final state. The end reason is `Killed` only after `kill`, and
  `Uncaught` exactly when the last line went unanswered.
- `RunSpecUsesScript`: the lines answered are, in order, the lines of the
  receives that the run used. The run connects only on successful connects
  and disconnects only on successful disconnects. A failed connect or
  disconnect ends the run at the entry that failed.

The handler of one line is the function `Answer`. The reference definitions
and the loops take it as a ghost parameter `answer`, and the predicate
`Handles` fixes `answer` to `Answer` on every input (`ServerAnswersHandle`).
This keeps the handlers out of the recursive definitions; the lemmas that
need them go through `Handles`.

The failure messages are kept as the source writes them. This includes the
typo "framerate must be and integer".

## Model

| member | source | states |
|---|---|---|
| Conversions.IntToString | screenrecorder/ServerHandle.cpp:21 | `std::to_string` of an `int` is non-empty and contains no white space, so it is always one token |
| Conversions.NatToString | screenrecorder/SimpleCapture.cpp:128 | a decimal rendering is at least one digit long, and has exactly one digit iff the number is below 10 |
| Conversions.Stoi | screenrecorder/CommandLine.cpp:38 | `std::stoi`: skips leading white space, reads an optional sign and the longest run of digits, and gives `None` for the two exceptions (no digit, or a value outside `int`); its contracts are the all-input lemmas `StoiSkipsSpace`, `StoiLongestPrefix`, `StoiNeedsDigit`, `StoiOfIntToString` and `StoiOfNumeral`, with `StoiReadsDigitPrefix` and `StoiNeedsADigit` as worked examples |
| Conversions.DigitsValueOfNatToString | screenrecorder/SimpleCapture.cpp:128 | the value of the digits written for `n` is `n` |
| Conversions.StoiOfIntToString | screenrecorder/CommandLine.cpp:38 | `std::stoi` reads back exactly the `int` that `std::to_string` wrote, for every 32-bit `int` |
| Conversions.StoiSkipsSpace | screenrecorder/CommandLine.cpp:38 | for every run of white space `w` and every string `s`, `stoi(w + s)` is `stoi(s)` |
| Conversions.StoiLongestPrefix | screenrecorder/CommandLine.cpp:38 | for no sign, `-` or `+`, any non-empty digit run `d` and any `rest` that does not start with a digit, `stoi(sign + d + rest)` is `stoi(sign + d)`, and that is the value of `d`, negated for `-` and unchanged for `+`, iff it fits in `int`, and otherwise the out-of-range failure |
| Conversions.StoiNeedsDigit | screenrecorder/CommandLine.cpp:36-45 | for every string, a successful `stoi` means the string holds a digit |
| Conversions.StoiReadsDigitPrefix | screenrecorder/CommandLine.cpp:38 | examples only: `stoi` reads only the leading digits (`"0abc"` gives 0) and honours a minus sign (`"-17"` gives -17) |
| Conversions.StoiNeedsADigit | screenrecorder/CommandLine.cpp:36-45 | examples only: without a digit (`"abc"`, `""`, `"-x"`) `stoi` throws, so the parse fails |
| Conversions.StoiOfNumeral | screenrecorder/CommandLine.cpp:36-45 | a numeral, with or without a minus sign, parses to its value iff the value fits in 32 bits; otherwise the parse fails, as the overflow exception does |
| Conversions.DigitsValueLeadingZeros | screenrecorder/SimpleCapture.cpp:128 | zeros padded in front of a digit string do not change its value |
| CommandLines.Tokenize | screenrecorder/CommandLine.cpp:7-13 | every token extracted is non-empty and free of white space |
| CommandLines.ParseLine | screenrecorder/CommandLine.cpp:5-14 | the string constructor's loop yields exactly the tokens of the line, in order, and `Size()` is their number |
| CommandLines.CommandLine.Size | screenrecorder/CommandLine.cpp:24-27 | the token count as an `int`, never negative; `ParseLine` and `FromArgs` state what it is for each constructor |
| CommandLines.TokenEnd | screenrecorder/CommandLine.cpp:10 | the token scan stops at the first white space or the end of the line, taking the whole non-white-space run |
| CommandLines.FromArgs | screenrecorder/CommandLine.cpp:16-22 | the argv constructor keeps all `argc` arguments, `argv[0]` included, in order, and `Size()` is `argc` |
| CommandLines.CommandLine.TryGetAsInt | screenrecorder/CommandLine.cpp:29-46 | an index outside the tokens throws `out_of_range`, which is distinct from returning false; otherwise it succeeds iff `stoi` parses the token, with the parsed value; on failure `value` is left unchanged |
| CommandLines.CommandLine.TryGetAsBool | screenrecorder/CommandLine.cpp:48-65 | the same error rules as `TryGetAsInt`; on success the value is whether the parsed integer is non-zero |
| CommandLines.CommandLine.Get | screenrecorder/CommandLine.cpp:88-96 | succeeds iff the index is within the tokens, and then returns that token |
| CommandLines.CommandLine.GetRange | screenrecorder/CommandLine.cpp:68-86 | throws iff start > stop, start < 0, start > Size or stop < 0; otherwise returns the tokens start..stop joined by single spaces, which is "" when start == stop |
| CommandLines.JoinSnoc | screenrecorder/CommandLine.cpp:77-84 | appending a token to the joined range adds one separating space, except after nothing |
| CommandLines.Join | screenrecorder/CommandLine.cpp:77-84 | the range `GetRange` builds, tokens with one space between neighbours; `JoinSnoc` ties it to the loop, `JoinAppend` splits it and `TokenizeJoin` splits it back into the tokens |
| CommandLines.TokenizeSkipsSpace | screenrecorder/CommandLine.cpp:10 | white space in front of the input yields no token |
| CommandLines.TokenizeToken | screenrecorder/CommandLine.cpp:10 | a token followed by white space or by the end of the input is extracted whole |
| CommandLines.TokenizeJoin | screenrecorder/CommandLine.cpp:68-86 | splitting a single-space join of tokens gives back the same tokens |
| CommandLines.ResplitFullRange | screenrecorder/Server.cpp:179 | re-splitting `Get(0, Size())` of any parsed line reproduces its tokens |
| CommandLines.TokenizeInterleave | screenrecorder/CommandLine.cpp:5-14 | however a string is laid out as tokens separated by white space, splitting finds exactly those tokens, so they are the maximal non-white-space runs |
| CommandLines.Gaps | screenrecorder/CommandLine.cpp:5-14 | every string is its tokens interleaved with white-space gaps, non-empty between two tokens, so splitting loses only white space |
| CommandLines.TokenizeEmptyWhenBlank | screenrecorder/CommandLine.cpp:10 | a line has no token iff it is all white space |
| CommandLines.JoinAppend | screenrecorder/CommandLine.cpp:77-84 | the join of two non-empty ranges is their joins with one space between |
| FrameBuffer.RowPitch | screenrecorder/CircularFrameBuffer.cpp:34 | the row pitch, `(Width*Format*8+7)/8` in 32-bit unsigned arithmetic, is `Width*Format` mod 2^29, and exactly `Width*Format` when that is below 2^29: the `+7` never rounds up |
| FrameBuffer.RowPitchArithmetic | screenrecorder/CircularFrameBuffer.cpp:34 | the wrapped multiple of 8 plus 7, divided by 8, is the original product mod 2^29 |
| FrameBuffer.FrameSize | screenrecorder/CircularFrameBuffer.cpp:30-37 | the frame size is below 2^64, and equals `Width*Format*Height*ArraySize` when nothing wraps |
| FrameBuffer.FrameSizeArithmetic | screenrecorder/CircularFrameBuffer.cpp:35-36 | without wrap-around, the slice pitch times the array size is the plain product |
| FrameBuffer.TotalSizeAppend | screenrecorder/CircularFrameBuffer.cpp:26-27 | pushing a frame adds exactly its size to the total |
| FrameBuffer.TotalSize | screenrecorder/CircularFrameBuffer.cpp:14-27 | what `m_memoryUsage` tracks, the sum of the stored frame sizes; `TotalSizeAppend`, `TotalSizeSplit` and `AdmitTotal` show each update of the counter keeps it equal to this sum |
| FrameBuffer.SizeEvictions | screenrecorder/CircularFrameBuffer.cpp:14-18 | megabyte mode evicts oldest-first exactly while the total plus the new size exceeds the budget and frames remain |
| FrameBuffer.SizeEvictionsUnique | screenrecorder/CircularFrameBuffer.cpp:14-18 | the stopping rule of the eviction loop fixes how many frames it evicts |
| FrameBuffer.Evictions | screenrecorder/CircularFrameBuffer.cpp:12-24 | `add_frame` never evicts more frames than are stored |
| FrameBuffer.Admit | screenrecorder/CircularFrameBuffer.cpp:8-28 | the deque after `add_frame`: at least one frame and at most one more than before, the new frame last; `AdmitKeepsOrder`, `AdmitTotal`, `CountModeAdmit` and `SizeModeAdmit` say which frames survive |
| FrameBuffer.CircularFrameBuffer.constructor | screenrecorder/CircularFrameBuffer.cpp:4-6 | a new buffer is empty, with memory usage 0, and keeps its capacity and mode |
| FrameBuffer.CircularFrameBuffer.AddFrame | screenrecorder/CircularFrameBuffer.cpp:8-28 | the deque becomes the surviving suffix of the old frames followed by the new frame; the counter stays equal to the total of the stored sizes; the count bound holds in count mode; the byte bound holds in megabyte mode unless the new frame is stored alone |
| FrameBuffer.CircularFrameBuffer.EvictForSize | screenrecorder/CircularFrameBuffer.cpp:12-18 | the eviction loop drops exactly the `SizeEvictions` oldest frames and keeps the counter equal to the total |
| FrameBuffer.CircularFrameBuffer.SaveFrames | screenrecorder/CircularFrameBuffer.cpp:39-65 | every stored frame is written under its file name, oldest to newest, and the buffer is unchanged |
| FrameBuffer.AdmitTotal | screenrecorder/CircularFrameBuffer.cpp:8-28 | no drift: the new total is the old total, less the evicted frames, plus the new frame |
| FrameBuffer.TotalSizeSplit | screenrecorder/CircularFrameBuffer.cpp:16-17 | the total of the deque is the total of the evicted prefix plus the total of the rest |
| FrameBuffer.AdmitKeepsOrder | screenrecorder/CircularFrameBuffer.cpp:17-26 | the new frame ends up last, behind a suffix of the previous frames in their original order |
| FrameBuffer.CountModeAdmit | screenrecorder/CircularFrameBuffer.cpp:20-24 | in count mode nothing is evicted below capacity and exactly the oldest frame at capacity, so count ≤ capacity is kept |
| FrameBuffer.SizeModeAdmit | screenrecorder/CircularFrameBuffer.cpp:12-18 | in megabyte mode the new frame is always admitted; afterwards the total is within the budget or the new frame is stored alone; nothing is evicted when it fits |
| FrameBuffer.CountModeExample | screenrecorder/CircularFrameBuffer.cpp:20-27 | count capacity 2 with frames A, B and C of 100 bytes keeps [B, C], 200 bytes |
| FrameBuffer.SizeModeExample | screenrecorder/CircularFrameBuffer.cpp:12-27 | a budget of 150 bytes with frames A of 100 and B of 80 bytes keeps [B], 80 bytes |
| Capture.CppDiv | screenrecorder/SimpleCapture.cpp:44 | C++ `int` division: the remainder has the dividend's sign and is smaller in magnitude than the divisor |
| Capture.CppDivRemainder | screenrecorder/SimpleCapture.cpp:44 | the truncated quotient built from the magnitudes satisfies the C++ division rule |
| Capture.PositiveFrameInterval | screenrecorder/SimpleCapture.cpp:44 | for a positive frame rate the interval is the floor of 1000 / rate, and 0 above 1000 frames a second |
| Capture.FrameInterval | screenrecorder/SimpleCapture.cpp:44 | `1000 / framerate` with C++ `int` division: between 0 and 1000 for a positive rate, between -1000 and 0 for a negative one; `PositiveFrameInterval` and `NegativeFrameInterval` give the exact values |
| Capture.NegativeFrameInterval | screenrecorder/SimpleCapture.cpp:44 | a negative frame rate gives an interval ≤ 0, so every frame passes the time test |
| Capture.Zeros | screenrecorder/SimpleCapture.cpp:128 | the fill is the requested number of '0' characters |
| Capture.ZeroPad | screenrecorder/SimpleCapture.cpp:128 | `setw` with fill `0`: the result is `width` long when the digits are shorter, the digits unchanged otherwise; the digits come last, preceded only by `0` characters |
| Capture.ScreenshotName | screenrecorder/SimpleCapture.cpp:125-128 | the k-th file name starts with `screenshot` and ends with `.jpg`, at least 14 characters long; `ScreenshotNameNumber` and `ScreenshotNamesDistinct` say what is between |
| Capture.ScreenshotNameNumber | screenrecorder/SimpleCapture.cpp:125-128 | the number inside the k-th file name reads back as k: four digits or more are written whole, never truncated |
| Capture.ScreenshotNamesDistinct | screenrecorder/SimpleCapture.cpp:125-152 | different positions get different file names |
| Capture.ScreenshotNameExamples | screenrecorder/SimpleCapture.cpp:128 | the first name is `screenshot0001.jpg`; the 12345th is `screenshot12345.jpg` |
| Capture.PaddedOne | screenrecorder/SimpleCapture.cpp:128 | 1 padded to four digits is `0001` |
| Capture.FiveDigits | screenrecorder/SimpleCapture.cpp:128 | 12345 is written as `12345` |
| Capture.CountsAppend | screenrecorder/SimpleCapture.cpp:57-58 | closings and saves in a history add up over its parts |
| Capture.CountsSingleton | screenrecorder/SimpleCapture.cpp:57-58 | a single event counts as a closing or a save according to its kind |
| Capture.NoSaves | screenrecorder/SimpleCapture.cpp:71-78 | a history with no save has no save event anywhere |
| Capture.BodyCounts | screenrecorder/SimpleCapture.cpp:55-84 | one run of either teardown body closes once and saves at most once |
| Capture.SimpleCapture.constructor | screenrecorder/SimpleCapture.cpp:23-46 | the interval is 1000 / framerate in C++ division, the capacity is as given, and the session starts open, unstarted and empty |
| Capture.SimpleCapture.StartCapture | screenrecorder/SimpleCapture.cpp:48-53 | it fails once the session is closed; otherwise it sets the time baseline to now before the feed starts delivering frames |
| Capture.SimpleCapture.OnFrameArrived | screenrecorder/SimpleCapture.cpp:86-121 | a frame is stored iff at least the interval has passed since the last stored frame or the baseline; at capacity the oldest is erased and the new one appended last; the time is recorded; a rejected frame changes nothing; stored times stay at least one interval apart |
| Capture.SimpleCapture.Close | screenrecorder/SimpleCapture.cpp:55-67 | the first closing call closes the session and the frame pool and releases them; every later call does nothing |
| Capture.SimpleCapture.CloseAndSave | screenrecorder/SimpleCapture.cpp:69-84 | the first closing call closes the session and pool, then saves the frames, then releases; after `Close` it saves nothing; saving happens at most once and only after closing |
| Capture.SimpleCapture.SaveFrames | screenrecorder/SimpleCapture.cpp:123-154 | the k-th frame in buffer order is written to the k-th screenshot name, counting from 1 |
| Capture.Screenshots | screenrecorder/SimpleCapture.cpp:125-152 | one file per frame, in buffer order, the k-th named `ScreenshotName(k + 1)` |
| Capture.ScreenshotsSnoc | screenrecorder/SimpleCapture.cpp:152 | one more frame adds one file with the next number |
| Capture.ScreenshotsDistinct | screenrecorder/SimpleCapture.cpp:125-152 | no two saved frames get the same name, so no file overwrites another |
| RecorderServer.WireTokens | screenrecorder/Server.cpp:36-151 | a reply splits into its status token and, for a failure, "Server", "Usage:" and the tokens of the reason |
| RecorderServer.FailureTokens | screenrecorder/Server.cpp:40 | `"1 Server Usage: " + text` splits into "1", "Server", "Usage:" and the tokens of the text |
| CommandLines.PrefixTokens | screenrecorder/ServerHandle.cpp:21 | tokens each followed by one space, and then more text, split back into those tokens and the tokens of the text |
| CommandLines.TokenThenSpace | screenrecorder/ServerHandle.cpp:21 | a token, a space and more text split into the token and the tokens of the text |
| RecorderServer.Wire | screenrecorder/Server.cpp:36-151 | the reply string starts with the status digit, `0` for success and `1` for failure, and is exactly one character long iff the request succeeded; `WireTokens` splits it |
| RecorderServer.ReasonText | screenrecorder/Server.cpp:36-151 | every failure carries a non-empty reason phrase: the message constants, and for a non-request the token followed by " is not a valid server request" |
| RecorderServer.DecideStart | screenrecorder/Server.cpp:36-89 | `start` checks in order: not four tokens gives the start usage; capturing gives already-started; then the first of framerate, buffer size and monitor index that `stoi` rejects gives its own not-an-integer failure; a monitor index outside 0 to the monitor count gives out-of-range; it accepts iff all hold, with the parsed values |
| RecorderServer.DecideStop | screenrecorder/Server.cpp:92-123 | `stop` checks in order two tokens, capturing and a folder that resolves; it accepts iff all hold, with the path token as folder; an invalid-argument lookup gives its own failure |
| RecorderServer.StartStep | screenrecorder/Server.cpp:36-89 | `start` succeeds iff `DecideStart` accepts; a rejection answers its reason and leaves the state; acceptance sets `isCapturing`, keeps the other flags and appends one creation with the parsed values to the capture calls |
| RecorderServer.StopStep | screenrecorder/Server.cpp:92-123 | `stop` succeeds iff `DecideStop` accepts; a rejection answers its reason and leaves the state; acceptance clears `isCapturing`, keeps the other flags and appends one close-and-save into the folder |
| RecorderServer.CancelStep | screenrecorder/Server.cpp:125-136 | `cancel` succeeds iff capturing; otherwise it answers not-started and leaves the state; on success it clears `isCapturing`, keeps the other flags and appends one close without saving |
| RecorderServer.DisconnectStep | screenrecorder/Server.cpp:138-143 | `disconnect` always succeeds, sets `isDisconnect` and leaves capturing, `isKill` and the capture calls alone |
| RecorderServer.KillStep | screenrecorder/Server.cpp:145-151 | `kill` always succeeds, sets `isDisconnect` and `isKill` and leaves a running capture and the capture calls alone |
| RecorderServer.Classify | screenrecorder/Server.cpp:181-188 | a line with no token makes `TryGetAsInt(0, …)` throw; otherwise the first token is an opcode iff `stoi` parses it, else a non-request named by that token |
| RecorderServer.DispatchStep | screenrecorder/Server.cpp:181-214 | the request switch of `run`: no step iff the line has no token; a first token `stoi` rejects fails naming that token and changes nothing; opcodes 0 to 4 give `StartStep`, `StopStep`, `CancelStep`, `DisconnectStep` and `KillStep`; any other integer gets the usage failure and changes nothing; a handled request adds at most one call on the capture, after the earlier ones |
| RecorderServer.DispatchKeepsValid | screenrecorder/Server.cpp:36-151 | every handled request keeps the invariant: creations and closings of the capture alternate, and killed implies disconnecting |
| RecorderServer.FailureChangesNothing | screenrecorder/Server.cpp:36-151 | a request that fails leaves the whole server state unchanged |
| RecorderServer.DisconnectKeepsCapture | screenrecorder/Server.cpp:138-151 | `disconnect` and `kill` succeed and set `isDisconnect`; only `kill` sets `isKill`; the capture is not touched |
| RecorderServer.SecondStartRefused | screenrecorder/Server.cpp:43-46 | a well-formed `start` while capturing fails with "recording already started" and changes nothing |
| RecorderServer.CancelIgnoresArguments | screenrecorder/Server.cpp:125-136 | `cancel` has no arity check; when capturing it closes the capture |
| RecorderServer.BlankLineUnanswered | screenrecorder/Server.cpp:176-188 | a received line gets no answer, and the exception escapes `run`, exactly when it is blank |
| RecorderServer.Server.constructor | screenrecorder/Server.cpp:21 | a new server is not capturing, not disconnecting, not killed, and has made no capture calls |
| RecorderServer.Server.Start | screenrecorder/Server.cpp:36-89 | the `start` handler applies `DecideStart`: on acceptance it creates the capture with the parsed values and sets `isCapturing`; otherwise it answers the first failing check and changes nothing |
| RecorderServer.Server.Stop | screenrecorder/Server.cpp:92-123 | the `stop` handler applies `DecideStop`: on acceptance it closes and saves into the folder and clears `isCapturing`; otherwise it changes nothing |
| RecorderServer.Server.Cancel | screenrecorder/Server.cpp:125-136 | the `cancel` handler fails when not capturing; otherwise it closes the capture and clears `isCapturing` |
| RecorderServer.Server.Disconnect | screenrecorder/Server.cpp:138-143 | the `disconnect` handler sets only `isDisconnect` and succeeds |
| RecorderServer.Server.Kill | screenrecorder/Server.cpp:145-151 | the `kill` handler sets `isDisconnect` and `isKill` and succeeds |
| RecorderServer.Server.Respond | screenrecorder/Server.cpp:181-214 | the answer and the new state are those of `DispatchStep`, so a blank line leaves the state and gives no answer, a non-integer opcode fails naming the token, opcodes 0 to 4 go to their handler and any other integer gets the usage failure; the invariant is kept |
| RecorderServer.Server.Serve | screenrecorder/Server.cpp:176-216 | one received line gets the exchange `answer` gives, so at most one response, consistent with the handlers; a failed send sets `isDisconnect`; a blank line changes nothing |
| RecorderServer.Server.ServeConnection | screenrecorder/Server.cpp:171-217 | the inner loop serves the connection exactly as `ServeSpec` does from the same point of the script: the same exchanges, the same receives and sends used, the same final state |
| RecorderServer.Server.ServeClient | screenrecorder/Server.cpp:155-226 | one pass of the outer loop: clear `isDisconnect`, connect, serve, disconnect; it ends the run exactly where `RunSpec` does, or leaves the rest of the run to `RunSpec` from the next point of the script |
| RecorderServer.Server.Run | screenrecorder/Server.cpp:153-228 | `run` keeps the invariant and returns the end reason and the transcript that `RunSpec` gives for the script, leaving its final state |
| RecorderServer.AnswerConsistent | screenrecorder/Server.cpp:176-214 | the exchange for one line keeps its connection, its line and its starting state, agrees with the handlers, and is undelivered exactly when there was a response and the send failed |
| RecorderServer.Answer | screenrecorder/Server.cpp:176-214 | the exchange for one received line, defined from `DispatchStep`; its properties are `AnswerConsistent` (connection, line and start state kept, the handler's step, undelivered iff the send fails) and `BlankLineUnanswered` |
| RecorderServer.ServerAnswersHandle | screenrecorder/Server.cpp:176-214 | the server's own handler is `Answer` on every input |
| RecorderServer.ConsistentMeans | screenrecorder/Server.cpp:176-214 | for a handler that is `Answer`, an exchange is consistent exactly when it agrees with the handlers |
| RecorderServer.ServingAnswer | screenrecorder/Server.cpp:176-216 | answering one more line on an open connection extends the transcript and keeps the invariant; a blank line leaves the state as it was |
| RecorderServer.ServeSpecServing | screenrecorder/Server.cpp:171-217 | a connection served from a described state either stops on a blank line, with the transcript ending in that unanswered exchange, or closes with the transcript, the invariant and the final state intact |
| RecorderServer.ServeSpec | screenrecorder/Server.cpp:171-217 | the reference definition of one connection's inner loop, by recursion over the receive script; `Server.ServeConnection` is proved equal to it, and `ServeSpecServing` and `ServeSpecRequests` state what it does |
| RecorderServer.RunSpecServing | screenrecorder/Server.cpp:153-228 | the rest of a run from a described state keeps the transcript: it ends in the final state, `Killed` only after `kill`, and `Uncaught` exactly when the last line went unanswered |
| RecorderServer.RunSpec | screenrecorder/Server.cpp:153-228 | the reference definition of `run`, by recursion over the connect script; `Server.Run` is proved equal to it, and `RunSpecMeans`, `RunSpecUsesScript` and `FailedReceiveSkipped` state what it does |
| RecorderServer.RunSpecMeans | screenrecorder/Server.cpp:153-228 | a whole run from a valid state keeps the invariant and produces a transcript that ends in the final state; it ends `Killed` only after `kill`, is not killed after a failed connect or an uncaught exception, and ends `Uncaught` exactly when the last exchange went unanswered |
| RecorderServer.ServeSpecRequests | screenrecorder/Server.cpp:171-217 | a connection answers, in order, exactly the lines of the receives it used, up to the one that failed |
| RecorderServer.RunSpecUsesScript | screenrecorder/Server.cpp:153-228 | a run answers, in order, exactly the lines of the receives it used; it connects and disconnects only on successful entries; a failed connect or disconnect ends it at that entry |
| RecorderServer.FailedReceiveSkipped | screenrecorder/Server.cpp:9-19 | a failed receive ends only its connection and uses up its entry: with the receives [failure, "4"], the second client's `kill` is served on connection 2 and ends the run `Killed` |
| RecorderServer.ServingNextConnection | screenrecorder/Server.cpp:155-158 | a new connection starts with `isDisconnect` cleared |
| RecorderServer.TranscriptExtends | screenrecorder/Server.cpp:171-217 | an exchange that starts where the last one left off extends the transcript |
| RecorderServer.TranscriptConsistent | screenrecorder/Server.cpp:176-214 | every exchange of a transcript agrees with the handlers and came on a connection |
| RecorderServer.TranscriptLinked | screenrecorder/Server.cpp:155-217 | the first exchange starts from the initial state; each later one starts from the state its predecessor left, on the same connection only if the predecessor did not end it |
| RecorderServer.TranscriptConnectionsOrdered | screenrecorder/Server.cpp:155-166 | connection numbers never decrease along a transcript |
| ServerHandle.DecodeResponse | screenrecorder/ServerHandle.cpp:24-43 | an empty reply throws `out_of_range`; status 0 returns; status 1 raises the server's error, the fixed prefix plus the remaining tokens joined by single spaces; a non-integer or any other status is a format error naming the first token |
| ServerHandle.ServerHandle.constructor | screenrecorder/ServerHandle.cpp:6-8 | a new client has sent nothing |
| ServerHandle.ServerHandle.Start | screenrecorder/ServerHandle.cpp:19-44 | sends `"0 <framerate> <framesBufferSize> <monitorIndex>"` and ends as the shared decoder says |
| ServerHandle.ServerHandle.Stop | screenrecorder/ServerHandle.cpp:47-72 | sends `"1 " + folderPath` and ends as the shared decoder says |
| ServerHandle.ServerHandle.Cancel | screenrecorder/ServerHandle.cpp:74-99 | sends `"2"` and ends as the shared decoder says, so it also raises the server's error |
| ServerHandle.ServerHandle.Disconnect | screenrecorder/ServerHandle.cpp:101-126 | sends `"3"` and ends as the shared decoder says |
| ServerHandle.ServerHandle.Kill | screenrecorder/ServerHandle.cpp:128-153 | sends `"4"` and ends as the shared decoder says |
| ServerHandle.ServerHandle.Call | screenrecorder/ServerHandle.cpp:22-43 | a failed send sends nothing; a failed receive throws the pipe failure; a reply is classified by the decoder |
| ServerHandle.StartRequest | screenrecorder/ServerHandle.cpp:21 | the `start` request begins with opcode `0` and a space; `StartRequestTokens` and `StartRoundTrip` say how the server reads it |
| ServerHandle.StopRequest | screenrecorder/ServerHandle.cpp:49 | the `stop` request is `1`, a space, and the folder path unaltered, with no quoting or escaping |
| ServerHandle.OpcodeRequest | screenrecorder/ServerHandle.cpp:76 | the request of `cancel`, `disconnect` and `kill` reads back under `std::stoi` as the opcode itself |
| ServerHandle.NumeralIsToken | screenrecorder/ServerHandle.cpp:21 | every number the client writes is a single token |
| ServerHandle.StartRequestTokens | screenrecorder/ServerHandle.cpp:21 | the `start` request splits into exactly four tokens, the arity the server's `start` demands |
| ServerHandle.StartRoundTrip | screenrecorder/ServerHandle.cpp:19-24 | the server reads the client's `start` as opcode 0 with the client's own three numbers; when idle it accepts iff the monitor index is in range, and then creates the capture with those values |
| ServerHandle.StopRequestTokens | screenrecorder/ServerHandle.cpp:49 | the `stop` request splits into "1" and the tokens of the path |
| ServerHandle.StopRoundTrip | screenrecorder/ServerHandle.cpp:47-50 | a path with no token or with white space inside fails the server's arity check; a one-token path reaches the folder lookup |
| ServerHandle.StopPathWithSpaceRefused | screenrecorder/ServerHandle.cpp:49 | `stop` of `C:\My Frames` is refused with the `stop` usage message |
| ServerHandle.OpcodeRequestRoundTrip | screenrecorder/ServerHandle.cpp:76 | `cancel`, `disconnect` and `kill` send one token, which the server reads as their opcode |
| ServerHandle.ResponseRoundTrip | screenrecorder/ServerHandle.cpp:33-43 | a server success makes the client return; a failure raises the prefix, "Server Usage:" and the reason's tokens re-joined |
| ServerHandle.FailureDecodes | screenrecorder/ServerHandle.cpp:37-38 | a failure line decodes to the server's error with "Server Usage:" and the tokens of the text |
| ServerHandle.FailureStatusDecodes | screenrecorder/ServerHandle.cpp:37-38 | a reply starting with token "1" raises the rest of its tokens, re-joined |
| ServerHandle.ReasonArrivesIntact | screenrecorder/ServerHandle.cpp:38 | a reason phrase without doubled or outer white space reaches the client's error unchanged |
| ServerHandle.JoinUsage | screenrecorder/CommandLine.cpp:77-84 | joining "Server", "Usage:" and more tokens gives "Server Usage: " and their join |
| ServerHandle.CancelWhenIdleRaises | screenrecorder/ServerHandle.cpp:74-99 | the client's `cancel` on an idle server raises "… Server Usage: recording not started", though its header lists only pipe and format failures |
| ServerHandle.IdleCancelRefused | screenrecorder/Server.cpp:125-130 | an idle server answers the client's `cancel` with "recording not started" and changes nothing |
| ServerHandle.NotStartedIsCanonical | screenrecorder/Server.cpp:129 | "recording not started" splits and re-joins to itself |
| ServerHandle.BlankReplies | screenrecorder/ServerHandle.cpp:24-28 | an empty or blank reply makes `TryGetAsInt(0, …)` throw `out_of_range` |
| ServerHandle.NonNumericReply | screenrecorder/ServerHandle.cpp:28-31 | a reply whose first token is not an integer raises "… is not a valid server response" naming that token |
| ServerHandle.UnknownStatusReply | screenrecorder/ServerHandle.cpp:41-43 | any status other than 0 and 1 is a format error too |

## Left out

- Concurrency: `OnFrameArrived` runs on a free-threaded pool thread. Each method call is one atomic step of a sequential trace; nothing about races is stated.
- GPU and WinRT work is not modelled: texture creation and copy, the bitmap encoder, file streams, D3D device creation and capture items. Frames and textures are opaque ids.
- Encoder and file-system exceptions during saving are not modelled; saving succeeds.
- Folder resolution is a function of the path, so it is deterministic.
- Monitor enumeration is represented only by the number of monitors.
- The named pipe is a script of outcomes consumed in order. A script that runs out fails every later call. Pipe set-up (`try_init`) is not modelled.
- The clock is a millisecond timestamp parameter. `steady_clock` is monotonic, which the requirement `now >= lastFrameTime` states.
- main.cpp, Pipe.h and the two tracing provider headers have no logic in this model: command-line orchestration, pipe I/O and TraceLogging registration. The header files are consulted only for enumeration values and documentation.
- Console output (`std::cout`) in `run` is not modelled, apart from the round trip of the `Get(0, Size())` it prints.
- Server.cpp:82-83 passes a `CircularFrameBuffer` where `SimpleCapture`'s constructor takes an `int` buffer size. The server model records the capture it creates as a call carrying the three parsed numbers. `SimpleCapture` is modelled with its own count-bounded vector, as its code is written. `CircularFrameBuffer` is modelled on its own, megabyte mode included.
- A frame rate of 0 passes the server's checks, as in the code. The division by zero it would cause in the capture's constructor is not modelled; `Capture.SimpleCapture.constructor` requires a non-zero frame rate.
- FrameBuffer.CircularFrameBuffer.AddFrame: count mode at capacity 0 pops an empty deque, which is undefined behaviour; the precondition excludes it.
- FrameBuffer.CircularFrameBuffer.AddFrame: `m_memoryUsage` is a `size_t`, but the counter and the comparison with the budget are unbounded integers. Wrap-around of the running total past 2^64 is not modelled.
- In the frame size, `Format` enters the size as its numeric `DXGI_FORMAT` code, as the code uses it, not as bytes per pixel.
- CommandLines.CommandLine.GetRange: a `stop` beyond the token count reads past the vector, which is undefined behaviour; the precondition excludes it.
- Capture.SimpleCapture.OnFrameArrived: frames arrive only once the feed is started, which the precondition states. A buffer capacity of 0 erases from an empty vector, which is undefined behaviour and excluded.
- Capture.SimpleCapture.StartCapture: `CheckClosed` throws on a closed session; this is the `false` result here.
- The server's handlers return a `Response` value; the string the source returns is its `Wire` rendering, related by `RecorderServer.WireTokens` and `ServerHandle.ResponseRoundTrip`.
