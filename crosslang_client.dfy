/**
 * mlgame/crosslang/client.py: the subprocess running a non-Python client,
 * talked to through lines of text. Messages to the client are written to
 * its standard input; the reader thread classifies each line the client
 * prints and queues the commands.
 *
 * The client's output is given as the lines `readline` returns, in order
 * (an empty sequence is the end of the output), together with its standard
 * error and exit code. `json.dumps` and `json.loads` are parameters of the
 * client. The reader thread is run to its stop by `ReadStdout`.
 *
 * mlgame/crosslang/client.py imports `MLClientExecutionError` from
 * mlgame/exception.py, which does not define it; the class is the one of
 * mlgame/crosslang/exceptions.py, which is what mlgame/crosslang/ml_play.py
 * tests for. Its instances are `ClientErrorV(message)`.
 */
module CrosslangClient {
  import opened Wrappers
  import opened Exceptions
  import opened PyText
  import opened PyValue
  import opened Communication

  /** The header of a command line. */
  const COMMAND_HEADER := "__command__"

  /** The frame `send_to_client` writes: the header, a space, the JSON text and a newline. */
  function Frame(header: string, json: string): (f: string)
    ensures |f| == |header| + |json| + 2
  {
    header + " " + json + "\n"
  }

  /** The frame splits back into its header and its JSON text, between a space and a final newline. */
  lemma FrameParts(header: string, json: string)
    ensures var f := Frame(header, json);
      f[..|header|] == header && f[|header|] == ' ' && f[|header| + 1..|f| - 1] == json && f[|f| - 1] == '\n'
  {
  }

  /** With neither part holding a newline, the frame is exactly one line: its only newline ends it. */
  lemma FrameIsOneLine(header: string, json: string)
    requires '\n' !in header && '\n' !in json
    ensures var f := Frame(header, json);
      forall k :: 0 <= k < |f| ==> (f[k] == '\n' <==> k == |f| - 1)
  {
    var f := Frame(header, json);
    FrameParts(header, json);
    forall k | 0 <= k < |f| - 1
      ensures f[k] != '\n'
    {
      if k < |header| {
        assert f[k] == f[..|header|][k] == header[k];
      } else if k > |header| {
        assert f[k] == f[|header| + 1..|f| - 1][k - |header| - 1] == json[k - |header| - 1];
      }
    }
  }

  /** `message[12:-1]`: the first twelve characters and the last one dropped; too short a line gives "". */
  function Payload(line: string): (p: string)
    ensures |line| >= 13 ==> |p| == |line| - 13 && forall k :: 0 <= k < |p| ==> p[k] == line[k + 12]
    ensures |line| < 13 ==> p == ""
  {
    if |line| >= 13 then line[12..|line| - 1] else ""
  }

  /** The command line `"__command__ " + text + "\n"` carries `text` as its payload. */
  lemma PayloadOfCommandLine(text: string)
    ensures Payload(COMMAND_HEADER + " " + text + "\n") == text
  {
    var line := COMMAND_HEADER + " " + text + "\n";
    assert line[12..|line| - 1] == text;
  }

  /** Why the reader thread stopped: a zero-length read, or `json.loads` raised and the thread died. */
  datatype ReadEnd = EndOfOutput | DecodeFailed(e: PyException)

  /** The reader's state: the queue, what it printed, and the lines not read yet. */
  datatype Reading = Reading(queue: seq<Value>, printed: seq<string>, unread: seq<string>)

  /** The reader thread after one `readline()`, or its stop. */
  datatype ReadStep = Next(r: Reading) | Stopped(r: Reading, end: ReadEnd)

  /**
   * One round of `_read_stdout`: a line holding the header anywhere is a
   * command, queued as "READY" or as what `json.loads` makes of it; any
   * other non-empty line is printed; a zero-length read ends the loop.
   */
  function ReadOne(r: Reading, loads: string -> Result<Value, PyException>): ReadStep {
    var line := if r.unread == [] then "" else r.unread[0];
    var rest := if r.unread == [] then [] else r.unread[1..];
    if Contains(line, COMMAND_HEADER) then
      var p := Payload(line);
      if p == "READY" then Next(Reading(r.queue + [StrV(p)], r.printed, rest))
      else match loads(p)
        case Failure(e) => Stopped(Reading(r.queue, r.printed, rest), DecodeFailed(e))
        case Success(v) => Next(Reading(r.queue + [v], r.printed, rest))
    else if |line| > 0 then Next(Reading(r.queue, r.printed + [line], rest))
    else Stopped(Reading(r.queue, r.printed, rest), EndOfOutput)
  }

  /** `_read_stdout`'s loop run from `r` to its stop. */
  function ReadAll(r: Reading, loads: string -> Result<Value, PyException>): (s: ReadStep)
    ensures s.Stopped? && |s.r.unread| < |r.unread| + 1
    decreases |r.unread|
  {
    match ReadOne(r, loads)
    case Next(r') => ReadAll(r', loads)
    case Stopped(r', end) => Stopped(r', end)
  }

  /** The reader only ever appends: what was queued or printed before stays, in order, at the front. */
  lemma {:induction false} ReadAllAppends(r: Reading, loads: string -> Result<Value, PyException>)
    ensures r.queue <= ReadAll(r, loads).r.queue && r.printed <= ReadAll(r, loads).r.printed
    decreases |r.unread|
  {
    match ReadOne(r, loads)
    case Next(r') => ReadAllAppends(r', loads);
    case Stopped(_, _) =>
  }

  /** A line the reader prints: nonempty and without the header. */
  predicate PlainLine(line: string) {
    !Contains(line, COMMAND_HEADER) && line != ""
  }

  /** With nothing left to read, the next read is zero-length and the reader stops. */
  lemma ReadEndOfOutput(r: Reading, loads: string -> Result<Value, PyException>)
    requires r.unread == []
    ensures ReadAll(r, loads) == Stopped(Reading(r.queue, r.printed, []), EndOfOutput)
  {
    assert !Contains("", COMMAND_HEADER);
  }

  /** A nonempty line without the header is printed and the reader goes on. */
  lemma PlainLineStep(r: Reading, loads: string -> Result<Value, PyException>)
    requires r.unread != [] && PlainLine(r.unread[0])
    ensures ReadAll(r, loads) == ReadAll(Reading(r.queue, r.printed + [r.unread[0]], r.unread[1..]), loads)
  {
    assert ReadOne(r, loads) == Next(Reading(r.queue, r.printed + [r.unread[0]], r.unread[1..]));
  }

  /** Lines without the header, up to the end of the output: each is printed, in order, and nothing is queued. */
  lemma {:induction false} ReadPlainLines(r: Reading, loads: string -> Result<Value, PyException>)
    requires forall k :: 0 <= k < |r.unread| ==> PlainLine(r.unread[k])
    ensures ReadAll(r, loads) == Stopped(Reading(r.queue, r.printed + r.unread, []), EndOfOutput)
    decreases |r.unread|
  {
    if r.unread == [] {
      ReadEndOfOutput(r, loads);
      assert r.printed + r.unread == r.printed;
    } else {
      var line := r.unread[0];
      var r' := Reading(r.queue, r.printed + [line], r.unread[1..]);
      forall k | 0 <= k < |r'.unread|
        ensures PlainLine(r'.unread[k])
      {
        assert r'.unread[k] == r.unread[k + 1];
      }
      calc {
        ReadAll(r, loads);
        { PlainLineStep(r, loads); }
        ReadAll(r', loads);
        { ReadPlainLines(r', loads); }
        Stopped(Reading(r.queue, r.printed + [line] + r.unread[1..], []), EndOfOutput);
        { assert r.printed + [line] + r.unread[1..] == r.printed + ([line] + r.unread[1..]);
          assert [line] + r.unread[1..] == r.unread; }
        Stopped(Reading(r.queue, r.printed + r.unread, []), EndOfOutput);
      }
    }
  }

  /** What a command line queues when `json.loads` accepts its payload. */
  function Decoded(line: string, loads: string -> Result<Value, PyException>): Value
    requires Payload(line) == "READY" || loads(Payload(line)).Success?
  {
    if Payload(line) == "READY" then READY else loads(Payload(line)).value
  }

  /** A line whose payload `json.loads` accepts, or that is "READY". */
  predicate Decodable(line: string, loads: string -> Result<Value, PyException>) {
    Contains(line, COMMAND_HEADER) && (Payload(line) == "READY" || loads(Payload(line)).Success?)
  }

  /** The objects a run of decodable command lines queues, in order. */
  function DecodedAll(lines: seq<string>, loads: string -> Result<Value, PyException>): (vs: seq<Value>)
    requires forall k :: 0 <= k < |lines| ==> Decodable(lines[k], loads)
    ensures |vs| == |lines|
  {
    if lines == [] then []
    else
      assert Decodable(lines[0], loads);
      [Decoded(lines[0], loads)] + DecodedAll(lines[1..], loads)
  }

  /**
   * Command lines up to the end of the output: each queues exactly one
   * object, in the order of the lines, and nothing is printed.
   */
  lemma {:induction false} ReadCommandLines(r: Reading, loads: string -> Result<Value, PyException>)
    requires forall k :: 0 <= k < |r.unread| ==> Decodable(r.unread[k], loads)
    ensures ReadAll(r, loads) == Stopped(Reading(r.queue + DecodedAll(r.unread, loads), r.printed, []), EndOfOutput)
    decreases |r.unread|
  {
    if r.unread == [] {
      assert !Contains("", COMMAND_HEADER);
    } else {
      var line := r.unread[0];
      var v := Decoded(line, loads);
      var r' := Reading(r.queue + [v], r.printed, r.unread[1..]);
      assert ReadOne(r, loads) == Next(r');
      assert ReadAll(r, loads) == ReadAll(r', loads);
      ReadCommandLines(r', loads);
      calc {
        r.queue + [v] + DecodedAll(r.unread[1..], loads);
        r.queue + ([v] + DecodedAll(r.unread[1..], loads));
        r.queue + DecodedAll(r.unread, loads);
      }
    }
  }

  /** The reader stops at the first zero-length read: the lines after it are never read. */
  lemma {:induction false} ReadStopsAtEmptyLine(r: Reading, loads: string -> Result<Value, PyException>, after: seq<string>)
    requires r.unread == [""] + after
    ensures ReadAll(r, loads) == Stopped(Reading(r.queue, r.printed, after), EndOfOutput)
  {
    assert !Contains("", COMMAND_HEADER);
    assert r.unread[1..] == after;
  }

  /**
   * "RESET" gets no special treatment: its command line is handed to
   * `json.loads` like any payload other than "READY".
   */
  lemma ResetIsDecoded(r: Reading, loads: string -> Result<Value, PyException>)
    requires r.unread == [COMMAND_HEADER + " RESET\n"]
    ensures loads("RESET").Failure? ==>
      ReadAll(r, loads) == Stopped(Reading(r.queue, r.printed, []), DecodeFailed(loads("RESET").error))
    ensures loads("RESET").Success? ==>
      ReadAll(r, loads) == Stopped(Reading(r.queue + [loads("RESET").value], r.printed, []), EndOfOutput)
  {
    var line := COMMAND_HEADER + " RESET\n";
    PayloadOfCommandLine("RESET");
    assert line == COMMAND_HEADER + " " + "RESET" + "\n";
    assert COMMAND_HEADER <= line;
    assert r.unread[1..] == [];
    assert !Contains("", COMMAND_HEADER);
  }

  /** What the thread queues after the loop: one error carrying the whole standard error, for a non-zero exit code only. */
  function ExitReport(end: ReadEnd, returncode: int, stderr: seq<string>): (q: seq<Value>)
    ensures |q| <= 1
    ensures q != [] <==> end.EndOfOutput? && returncode != 0
  {
    if end.EndOfOutput? && returncode != 0 then [ClientErrorV(Concat(stderr))] else []
  }

  /** `Client`: the subprocess and its command queue. */
  class Client {
    const dumps: Value -> string
    const loads: string -> Result<Value, PyException>
    /** Everything written to the client's standard input. */
    var stdin: string
    /** The lines of the client's output not read yet. */
    var stdout: seq<string>
    /** The lines of the client's standard error not read yet. */
    var stderr: seq<string>
    const returncode: int
    /** `_command_obj_queue`, oldest first. */
    var queue: seq<Value>
    /** The lines the reader printed. */
    var printed: seq<string>

    constructor(dumps: Value -> string, loads: string -> Result<Value, PyException>,
                stdout: seq<string>, stderr: seq<string>, returncode: int)
      ensures this.dumps == dumps && this.loads == loads && this.returncode == returncode
      ensures this.stdout == stdout && this.stderr == stderr
      ensures stdin == "" && queue == [] && printed == []
    {
      this.dumps, this.loads := dumps, loads;
      this.stdout, this.stderr, this.returncode := stdout, stderr, returncode;
      stdin, queue, printed := "", [], [];
    }

    /** `send_to_client`: one frame written to the client's standard input. */
    method SendToClient(header: string, payload: Value)
      modifies this
      ensures stdin == old(stdin) + Frame(header, dumps(payload))
      ensures stdout == old(stdout) && stderr == old(stderr) && queue == old(queue) && printed == old(printed)
    {
      stdin := stdin + Frame(header, dumps(payload));
    }

    /** `recv_from_client`: the oldest queued object; waits while the queue is empty. */
    method RecvFromClient() returns (r: Received)
      modifies this
      ensures old(queue) == [] ==> r == WouldBlock && queue == old(queue)
      ensures old(queue) != [] ==> r == Got(old(queue)[0]) && queue == old(queue)[1..]
      ensures stdin == old(stdin) && stdout == old(stdout) && stderr == old(stderr) && printed == old(printed)
    {
      if queue == [] {
        return WouldBlock;
      }
      r := Got(queue[0]);
      queue := queue[1..];
    }

    /**
     * `_read_stdout` run to its stop, then `_read_stderr` when the client
     * exited with a non-zero code.
     */
    method ReadStdout() returns (end: ReadEnd)
      modifies this
      ensures var s := ReadAll(Reading(old(queue), old(printed), old(stdout)), loads);
        end == s.end && stdout == s.r.unread && printed == s.r.printed
        && queue == s.r.queue + ExitReport(end, returncode, old(stderr))
        && stderr == (if ExitReport(end, returncode, old(stderr)) == [] then old(stderr) else [])
      ensures stdin == old(stdin)
    {
      ghost var goal := ReadAll(Reading(queue, printed, stdout), loads);
      while true
        invariant ReadAll(Reading(queue, printed, stdout), loads) == goal
        invariant stdin == old(stdin) && stderr == old(stderr)
        decreases |stdout|
      {
        var line := if stdout == [] then "" else stdout[0];
        stdout := if stdout == [] then [] else stdout[1..];
        if Contains(line, COMMAND_HEADER) {
          var p := Payload(line);
          if p == "READY" {
            queue := queue + [StrV(p)];
          } else {
            var v := loads(p);
            if v.Failure? {
              end := DecodeFailed(v.error);
              return;
            }
            queue := queue + [v.value];
          }
        } else if |line| > 0 {
          printed := printed + [line];
        } else {
          break;
        }
      }
      end := EndOfOutput;
      if returncode != 0 {
        queue := queue + [ClientErrorV(Concat(stderr))];
        stderr := [];
      }
    }
  }
}
