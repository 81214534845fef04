/** The plan executor: the outcome of each step from the frames of its stream, and the trace
    of events a whole run publishes. */
module Executor {
  import opened Text

  const MAX_OUTPUT_CAPTURE := 4096

  // ---------------------------------------------------------------- capped output

  function Captured(output: string): string {
    if |output| <= MAX_OUTPUT_CAPTURE then output else output[..MAX_OUTPUT_CAPTURE]
  }

  function Truncated(output: string): nat {
    if |output| <= MAX_OUTPUT_CAPTURE then 0 else |output| - MAX_OUTPUT_CAPTURE
  }

  /** captureCapped: what one more chunk does to the buffer and the truncation count. However
      the output is cut into chunks, they describe the output as a whole. */
  method CaptureCapped(buf: string, truncated: nat, data: string, ghost output: string) returns (buf': string, truncated': nat)
    requires buf == Captured(output) && truncated == Truncated(output)
    ensures buf' == Captured(output + data) && truncated' == Truncated(output + data)
    ensures buf' <= output + data && |buf'| + truncated' == |output + data| && (|buf'| == 4096 || truncated' == 0) && |buf'| <= 4096
  {
    var remaining := MAX_OUTPUT_CAPTURE - |buf|;
    if remaining <= 0 {
      assert (output + data)[..MAX_OUTPUT_CAPTURE] == output[..MAX_OUTPUT_CAPTURE];
      return buf, truncated + |data|;
    }
    if |data| > remaining {
      assert (output + data)[..MAX_OUTPUT_CAPTURE] == output + data[..remaining];
      return buf + data[..remaining], truncated + (|data| - remaining);
    }
    return buf + data, truncated;
  }

  // ---------------------------------------------------------------- one step

  datatype Reason = ReasonNone | ExitCode | Timeout | SpawnFailed | IOError | TransportError | ProtocolError | UnknownReason
  datatype ErrorCode = CodeTimeout | CodeSpawnFailed | CodeIOError | CodeNotFound | CodeInvalidRequest | CodeUnknownCommand | CodeOther

  function ClassifyErrorCode(code: ErrorCode): Reason {
    match code
    case CodeTimeout => Timeout
    case CodeSpawnFailed => SpawnFailed
    case CodeIOError => IOError
    case CodeNotFound => IOError
    case CodeInvalidRequest => ProtocolError
    case CodeUnknownCommand => ProtocolError
    case CodeOther => UnknownReason
  }

  datatype Payload = Started | StageExit | Output(data: string) | Done(exit: int) | ErrorFrame(code: ErrorCode, message: string) | UnknownPayload
  datatype Frame = Frame(commandId: string, payload: Payload)

  /** One attempt to read the stream. */
  datatype Recv = Got(frame: Frame) | Cancelled(detail: string) | Eof | Broken(detail: string)

  datatype Outcome = Outcome(exit: int, reason: Reason, detail: string, transport: bool)

  predicate Failed(o: Outcome) { o.reason != ReasonNone }

  const SUCCEEDED := Outcome(0, ReasonNone, "", false)

  function TransportFailure(detail: string): Outcome { Outcome(-1, TransportError, detail, true) }

  function CodeText(code: ErrorCode): string {
    match code
    case CodeTimeout => "ERROR_CODE_TIMEOUT"
    case CodeSpawnFailed => "ERROR_CODE_SPAWN_FAILED"
    case CodeIOError => "ERROR_CODE_IO_ERROR"
    case CodeNotFound => "ERROR_CODE_NOT_FOUND"
    case CodeInvalidRequest => "ERROR_CODE_INVALID_REQUEST"
    case CodeUnknownCommand => "ERROR_CODE_UNKNOWN_COMMAND_ID"
    case CodeOther => "ERROR_CODE_UNSPECIFIED"
  }

  function IntText(n: int): string { if n < 0 then "-" + Itoa(-n) else Itoa(n) }

  function ExitDetail(exit: int, output: string): string {
    var shown := TrimSpace(Captured(output));
    "exit_code=" + IntText(exit)
    + (if shown == "" then ""
       else "; output: " + shown
            + (if Truncated(output) > 0 then " ... [" + Itoa(Truncated(output)) + " bytes truncated]" else ""))
  }

  /** The frames that end a step. */
  predicate Terminal(p: Payload) { p.Done? || p.ErrorFrame? }

  predicate Concludes(r: Recv, id: string) { r.Got? ==> r.frame.commandId == id && Terminal(r.frame.payload) }

  /** The output frames addressed to this command, joined. */
  function OutputOf(recvs: seq<Recv>, id: string): string {
    if recvs == [] then ""
    else
      var r := recvs[|recvs| - 1];
      OutputOf(recvs[..|recvs| - 1], id)
      + (if r.Got? && r.frame.commandId == id && r.frame.payload.Output? then r.frame.payload.data else "")
  }

  /** What the concluding read means, given the output before it. */
  function Conclusion(r: Recv, output: string, step: string): Outcome
    requires r.Got? ==> Terminal(r.frame.payload)
  {
    match r
    case Cancelled(detail) => TransportFailure(detail)
    case Eof => TransportFailure("stream EOF before terminal response")
    case Broken(detail) => TransportFailure("recv " + step + ": " + detail)
    case Got(Frame(_, Done(exit))) =>
      if exit == 0 then SUCCEEDED else Outcome(exit, ExitCode, ExitDetail(exit, output), false)
    case Got(Frame(_, ErrorFrame(code, message))) =>
      Outcome(-1, ClassifyErrorCode(code), CodeText(code) + ": " + message, false)
  }

  /** awaitStepResult: the first concluding read decides; frames of other commands and
      unknown payloads change nothing. */
  method AwaitStepResult(recvs: seq<Recv>, id: string, step: string) returns (out: Option<Outcome>, ghost at: nat)
    ensures out == None ==> forall i :: 0 <= i < |recvs| ==> !Concludes(recvs[i], id)
    ensures out.Some? ==> at < |recvs| && Concludes(recvs[at], id) && (forall i :: 0 <= i < at ==> !Concludes(recvs[i], id))
                          && out == Some(Conclusion(recvs[at], OutputOf(recvs[..at], id), step))
  {
    var buf, truncated := "", 0;
    at := 0;
    for i := 0 to |recvs|
      invariant buf == Captured(OutputOf(recvs[..i], id)) && truncated == Truncated(OutputOf(recvs[..i], id))
      invariant forall j :: 0 <= j < i ==> !Concludes(recvs[j], id)
    {
      assert recvs[..i + 1][..i] == recvs[..i];
      at := i;
      match recvs[i] {
        case Cancelled(detail) => return Some(TransportFailure(detail)), at;
        case Eof => return Some(TransportFailure("stream EOF before terminal response")), at;
        case Broken(detail) => return Some(TransportFailure("recv " + step + ": " + detail)), at;
        case Got(frame) =>
          if frame.commandId == id {
            match frame.payload {
              case Output(data) => buf, truncated := CaptureCapped(buf, truncated, data, OutputOf(recvs[..i], id));
              case Done(exit) =>
                if exit == 0 {
                  return Some(SUCCEEDED), at;
                }
                var detail := DoneDetail(exit, buf, truncated, OutputOf(recvs[..i], id));
                return Some(Outcome(exit, ExitCode, detail, false)), at;
              case ErrorFrame(code, message) =>
                return Some(Outcome(-1, ClassifyErrorCode(code), CodeText(code) + ": " + message, false)), at;
              case _ =>
            }
          }
      }
    }
    return None, at;
  }

  method DoneDetail(exit: int, buf: string, truncated: nat, ghost output: string) returns (detail: string)
    requires buf == Captured(output) && truncated == Truncated(output)
    ensures detail == ExitDetail(exit, output)
  {
    detail := "exit_code=" + IntText(exit);
    var s := TrimSpace(buf);
    if s != "" {
      detail := detail + "; output: " + s;
      if truncated > 0 {
        detail := detail + " ... [" + Itoa(truncated) + " bytes truncated]";
      }
    }
    hide TrimSpace, Itoa, IntText;
  }

  /** A step succeeds exactly when it is concluded by its own Done frame with exit code 0, and
      every failure says why, with the exit code of the command or -1 where it has none. */
  lemma SuccessIsDoneZero(r: Recv, output: string, step: string)
    requires r.Got? ==> Terminal(r.frame.payload)
    ensures var o := Conclusion(r, output, step);
            && (o.reason == ReasonNone <==> r.Got? && r.frame.payload == Done(0))
            && (o.reason != ReasonNone && !r.Cancelled? ==> o.detail != "")
            && (o.transport <==> !r.Got?) && (o.reason == TransportError <==> !r.Got?)
            && (o.exit == if r.Got? && r.frame.payload.Done? then r.frame.payload.exit else -1)
            && (o.reason == ExitCode <==> r.Got? && r.frame.payload.Done? && r.frame.payload.exit != 0)
  {
    hide ExitDetail;
    ExitDetailNonEmpty(output);
  }

  /** What an error frame is classified as. */
  lemma ErrorReasons(f: Frame, output: string, step: string)
    requires f.payload.ErrorFrame?
    ensures var code, reason := f.payload.code, Conclusion(Got(f), output, step).reason;
            && (reason == Timeout <==> code == CodeTimeout)
            && (reason == SpawnFailed <==> code == CodeSpawnFailed)
            && (reason == IOError <==> code in {CodeIOError, CodeNotFound})
            && (reason == ProtocolError <==> code in {CodeInvalidRequest, CodeUnknownCommand})
            && (reason == UnknownReason <==> code == CodeOther)
  {
  }

  lemma ExitDetailNonEmpty(output: string)
    ensures forall exit :: ExitDetail(exit, output) != ""
  {
    hide TrimSpace, Itoa;
  }

  // ---------------------------------------------------------------- a whole run

  /** How a step's turn ends: with its outcome, or in a panic that Run recovers from. */
  datatype Turn = Ends(out: Outcome) | Panics(detail: string)

  predicate Succeeds(t: Turn) { t.Ends? && !Failed(t.out) }

  function TurnDetail(t: Turn): string { match t case Ends(o) => o.detail case Panics(d) => d }

  datatype Message =
    | ExecStarted(stepCount: int)
    | StepStarted(name: string, index: int)
    | StepCompleted(name: string, index: int)
    | StepFailed(name: string, index: int, detail: string)
    | ExecCompleted
    | ExecFailed(detail: string)

  /** The first step that does not succeed, or the number of steps. */
  function FirstFailure(turns: seq<Turn>): (n: nat)
    ensures n <= |turns|
    ensures forall i :: 0 <= i < n ==> Succeeds(turns[i])
    ensures n < |turns| ==> !Succeeds(turns[n])
  {
    if turns == [] || !Succeeds(turns[0]) then 0 else 1 + FirstFailure(turns[1..])
  }

  function Completions(plan: seq<string>, n: nat): seq<Message>
    requires n <= |plan|
  {
    if n == 0 then [] else Completions(plan, n - 1) + [StepStarted(plan[n - 1], n - 1), StepCompleted(plan[n - 1], n - 1)]
  }

  /** The events of a run: every step before the first failure completes; then the run
      completes, or the failing step and the run fail with its detail. */
  function Trace(plan: seq<string>, turns: seq<Turn>): seq<Message>
    requires |turns| == |plan|
  {
    var n := FirstFailure(turns);
    [ExecStarted(|plan|)] + Completions(plan, n)
    + (if n == |plan| then [ExecCompleted]
       else [StepStarted(plan[n], n), StepFailed(plan[n], n, TurnDetail(turns[n])), ExecFailed(TurnDetail(turns[n]))])
  }

  method RunPlan(plan: seq<string>, turns: seq<Turn>) returns (events: seq<Message>, ok: bool)
    requires |turns| == |plan|
    ensures events == Trace(plan, turns)
    ensures ok <==> FirstFailure(turns) == |plan|
  {
    events := [ExecStarted(|plan|)];
    for i := 0 to |plan|
      invariant i <= FirstFailure(turns)
      invariant events == [ExecStarted(|plan|)] + Completions(plan, i)
    {
      events := events + [StepStarted(plan[i], i)];
      if !Succeeds(turns[i]) {
        var detail := TurnDetail(turns[i]);
        events := events + [StepFailed(plan[i], i, detail), ExecFailed(detail)];
        return events, false;
      }
      events := events + [StepCompleted(plan[i], i)];
    }
    events := events + [ExecCompleted];
    return events, true;
  }
}
