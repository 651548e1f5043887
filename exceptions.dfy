/**
 * mlgame/exception.py: the ProcessError family that crosses process
 * boundaries, the two message-only configuration errors, the Python
 * exceptions the rest of the model raises, and `trim_callstack`.
 */
module Exceptions {
  import opened Wrappers
  import opened PyText

  /** Which class of the ProcessError family an error object is. */
  datatype ProcessKind = BaseProcess | GameProcess | MLProcess

  /** `ProcessError(process_name, message)`; the constructor stores both fields as given. */
  datatype ProcessError = ProcessError(kind: ProcessKind, processName: string, message: string)

  /** ExecutionCommandError and GameConfigError; `str()` of either is its `message` field. */
  datatype MessageError = ExecutionCommandError(message: string) | GameConfigError(message: string)

  /** The exceptions raised by the modelled code. */
  datatype PyException =
    | ValueError(msg: string)
    | TypeError(msg: string)
    | RuntimeError(msg: string)
    | KeyError(key: string)
    | IndexError
    | NameError(name: string)
    | AttributeError(name: string)
    | ZeroDivisionError
    | BrokenPipeError
    | FileNotFoundError(msg: string)
    | ProcessFailure(err: ProcessError)
    | ConfigFailure(cause: MessageError)
    /** Any other exception, given by its formatted traceback. */
    | Uncaught(traceback: string)

  // ---- trim_callstack ----

  /**
   * The index the search loop of `trim_callstack` ends on: 0 when the
   * message has at most two lines (the `for` body never runs), otherwise the
   * first index from 2 whose line contains the target, or the last index.
   */
  function StartIndex(lines: seq<string>, target: string): (i: nat)
    ensures lines != [] ==> i < |lines|
  {
    if |lines| <= 2 then 0 else SearchFrom(lines, target, 2)
  }

  function SearchFrom(lines: seq<string>, target: string, k: nat): (i: nat)
    requires k < |lines|
    ensures k <= i < |lines|
    decreases |lines| - k
  {
    if Contains(lines[k], target) || k == |lines| - 1 then k else SearchFrom(lines, target, k + 1)
  }

  /** What `trim_callstack(msg, target)` returns, or the IndexError it raises for an empty message. */
  function Trimmed(msg: string, target: string): Result<string, PyException> {
    var lines := SplitLines(msg);
    if lines == [] then Failure(IndexError)
    else Success(lines[0] + Concat(lines[StartIndex(lines, target)..]))
  }

  method TrimCallstack(msg: string, target: string) returns (r: Result<string, PyException>)
    ensures r == Trimmed(msg, target)
  {
    var lines := SplitLines(msg);
    if |lines| == 0 {
      return Failure(IndexError);
    }
    var trimmed := lines[0];
    var i := 0;
    var k := 2;
    while k < |lines|
      invariant 2 <= k
      invariant |lines| <= 2 ==> k == 2 && i == 0
      invariant 2 < |lines| ==> k <= |lines|
      invariant 2 < |lines| && k < |lines| ==> SearchFrom(lines, target, 2) == SearchFrom(lines, target, k)
      invariant 2 < |lines| && k == |lines| ==> i == k - 1 && SearchFrom(lines, target, 2) == i
      decreases |lines| - k
    {
      i := k;
      if Contains(lines[k], target) {
        break;
      }
      k := k + 1;
    }
    r := Success(trimmed + Concat(lines[i..]));
  }

  lemma {:induction false} SearchFromSpec(lines: seq<string>, target: string, k: nat)
    requires k < |lines|
    ensures var i := SearchFrom(lines, target, k);
      k <= i < |lines| &&
      (forall j :: k <= j < i ==> !Contains(lines[j], target)) &&
      (Contains(lines[i], target) || i == |lines| - 1)
    decreases |lines| - k
  {
    if !(Contains(lines[k], target) || k == |lines| - 1) {
      SearchFromSpec(lines, target, k + 1);
    }
  }

  /** An empty message raises IndexError; any other output begins with the message's first line. */
  lemma TrimmedStartsWithTitle(msg: string, target: string)
    ensures Trimmed(msg, target).Failure? <==> msg == ""
    ensures Trimmed(msg, target).Success? ==> SplitLines(msg)[0] <= Trimmed(msg, target).value
  {
    SplitLinesKeepsText(msg);
  }

  /**
   * For three or more lines the output is the title followed by every line
   * from the first index i >= 2 whose line contains the target; with no such
   * line, i is the last index.
   */
  lemma TrimmedLongMessage(msg: string, target: string)
    requires |SplitLines(msg)| >= 3
    ensures var lines := SplitLines(msg); exists i ::
      2 <= i < |lines| &&
      (forall j :: 2 <= j < i ==> !Contains(lines[j], target)) &&
      (Contains(lines[i], target) || i == |lines| - 1) &&
      Trimmed(msg, target) == Success(lines[0] + Concat(lines[i..]))
  {
    var lines := SplitLines(msg);
    SearchFromSpec(lines, target, 2);
    var i := SearchFrom(lines, target, 2);
    assert Trimmed(msg, target) == Success(lines[0] + Concat(lines[i..]));
  }

  /** With no line from index 2 on holding the target, only the title and the last line remain. */
  lemma TrimmedNoMatch(msg: string, target: string)
    requires |SplitLines(msg)| >= 3
    requires forall j :: 2 <= j < |SplitLines(msg)| ==> !Contains(SplitLines(msg)[j], target)
    ensures var lines := SplitLines(msg); Trimmed(msg, target) == Success(lines[0] + lines[|lines| - 1])
  {
    var lines := SplitLines(msg);
    SearchFromSpec(lines, target, 2);
    var i := SearchFrom(lines, target, 2);
    assert i == |lines| - 1;
    assert Trimmed(msg, target) == Success(lines[0] + Concat(lines[i..]));
    assert lines[i..] == [lines[i]];
    assert Concat(lines[i..]) == lines[i] + Concat(lines[i..][1..]);
    assert Concat(lines[i..][1..]) == "";
    assert Concat(lines[i..]) == lines[|lines| - 1];
  }

  /** For a message of one or two lines the loop never runs, so the output is the title followed by the whole message. */
  lemma TrimmedShortMessage(msg: string, target: string)
    requires 1 <= |SplitLines(msg)| <= 2
    ensures Trimmed(msg, target) == Success(SplitLines(msg)[0] + msg)
  {
    SplitLinesKeepsText(msg);
    assert SplitLines(msg)[0..] == SplitLines(msg);
  }

  /** Line ends are kept, so everything after the title is a verbatim suffix of the input. */
  lemma TrimmedKeepsSuffix(msg: string, target: string)
    requires msg != ""
    ensures exists p :: 0 <= p <= |msg| && Trimmed(msg, target) == Success(SplitLines(msg)[0] + msg[p..])
  {
    var lines := SplitLines(msg);
    SplitLinesKeepsText(msg);
    var i := StartIndex(lines, target);
    if |lines| > 2 {
      SearchFromSpec(lines, target, 2);
    }
    assert lines == lines[..i] + lines[i..];
    ConcatAppend(lines[..i], lines[i..]);
    var p := |Concat(lines[..i])|;
    assert msg == Concat(lines[..i]) + Concat(lines[i..]);
    assert msg[p..] == Concat(lines[i..]);
  }
}
