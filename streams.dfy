/**
 * The response stream of a Run call: one fragment per decoded character of
 * stdout and stderr, then a single result-code fragment. Only the order within
 * each pipe is specified; how the two pipes interleave is not.
 */
module Streams {

  /** A response message as the RPC carries it: stdout text, stderr text, a result code. */
  datatype Response = Response(stdout: string, stderr: string, resultCode: int)

  datatype Pipe = StdoutPipe | StderrPipe

  function Field(r: Response, p: Pipe): string
  {
    match p
    case StdoutPipe => r.stdout
    case StderrPipe => r.stderr
  }

  /** The fragment that forwards one decoded character of a pipe. */
  function CharFragment(p: Pipe, c: char): (r: Response)
    ensures Field(r, p) == [c] && r.resultCode == 0
    ensures forall q :: q != p ==> Field(r, q) == ""
  {
    match p
    case StdoutPipe => Response([c], "", 0)
    case StderrPipe => Response("", [c], 0)
  }

  /** The closing fragment, carrying only the result code. */
  function ResultResponse(code: int): Response
  {
    Response("", "", code)
  }

  /** The result code of sendError. */
  const ErrorResultCode: int := 1

  /** What sendError sends: the error text on stderr with result code ErrorResultCode. */
  function ErrorResponse(message: string): Response
  {
    Response("", message, ErrorResultCode)
  }

  /** Exactly one character, on exactly one of the two pipes, and result code 0. */
  predicate IsCharFragment(r: Response)
  {
    r.resultCode == 0 && ((|r.stdout| == 1 && r.stderr == "") || (r.stdout == "" && |r.stderr| == 1))
  }

  /** The fragments that forward the characters of `s`, one each, in order. */
  function Fragments(p: Pipe, s: string): (rs: seq<Response>)
    ensures |rs| == |s|
    ensures forall i :: 0 <= i < |s| ==> rs[i] == CharFragment(p, s[i])
  {
    seq(|s|, i requires 0 <= i < |s| => CharFragment(p, s[i]))
  }

  /** The fragments that carry text of pipe `p`, in stream order. */
  function OnPipe(rs: seq<Response>, p: Pipe): seq<Response>
  {
    if rs == [] then []
    else (if Field(rs[0], p) != "" then [rs[0]] else []) + OnPipe(rs[1..], p)
  }

  /** The text of pipe `p` the receiver reassembles by concatenating the fragments. */
  function Text(rs: seq<Response>, p: Pipe): string
  {
    if rs == [] then "" else Field(rs[0], p) + Text(rs[1..], p)
  }

  /**
   * `rs` forwards `out` and `err`: every fragment is a one-character fragment,
   * and concatenating the fragments of each pipe gives that pipe's characters.
   */
  predicate ForwardedOutput(rs: seq<Response>, out: string, err: string)
  {
    && (forall i :: 0 <= i < |rs| ==> IsCharFragment(rs[i]))
    && Text(rs, StdoutPipe) == out
    && Text(rs, StderrPipe) == err
  }

  lemma {:induction false} TextAppend(a: seq<Response>, b: seq<Response>, p: Pipe)
    ensures Text(a + b, p) == Text(a, p) + Text(b, p)
  {
    if a == [] {
      assert a + b == b;
    } else {
      assert (a + b)[1..] == a[1..] + b;
      TextAppend(a[1..], b, p);
    }
  }

  lemma TextSingle(f: Response, p: Pipe)
    ensures Text([f], p) == Field(f, p)
  {
    assert [f][1..] == [];
  }

  lemma FragmentsCons(p: Pipe, c: char, s: string)
    ensures Fragments(p, [c] + s) == [CharFragment(p, c)] + Fragments(p, s)
  {
    var l, r := Fragments(p, [c] + s), [CharFragment(p, c)] + Fragments(p, s);
    assert |l| == |r|;
    forall i | 0 <= i < |l| ensures l[i] == r[i] {
      if i > 0 { assert ([c] + s)[i] == s[i - 1]; }
    }
  }

  /** A character fragment with text on pipe `p` is the fragment of that one character. */
  lemma CharFragmentOf(r: Response, p: Pipe)
    requires IsCharFragment(r) && Field(r, p) != ""
    ensures Field(r, p) == [Field(r, p)[0]]
    ensures r == CharFragment(p, Field(r, p)[0])
  {
  }

  /**
   * In a stream of one-character fragments, the fragments of each pipe are
   * exactly one per character of that pipe's text, in order: the two pipes'
   * fragments interleave, each keeping its own order.
   */
  lemma {:induction false} PipeFragmentsInOrder(rs: seq<Response>, p: Pipe)
    requires forall i :: 0 <= i < |rs| ==> IsCharFragment(rs[i])
    ensures OnPipe(rs, p) == Fragments(p, Text(rs, p))
  {
    if rs != [] {
      assert IsCharFragment(rs[0]);
      PipeFragmentsInOrder(rs[1..], p);
      var f := Field(rs[0], p);
      if f != "" {
        CharFragmentOf(rs[0], p);
        FragmentsCons(p, f[0], Text(rs[1..], p));
      } else {
        assert Text(rs, p) == Text(rs[1..], p);
      }
    }
  }

  /** Every one-character fragment carries exactly one character of one pipe. */
  lemma {:induction false} FragmentCount(rs: seq<Response>)
    requires forall i :: 0 <= i < |rs| ==> IsCharFragment(rs[i])
    ensures |Text(rs, StdoutPipe)| + |Text(rs, StderrPipe)| == |rs|
  {
    if rs != [] {
      assert IsCharFragment(rs[0]);
      FragmentCount(rs[1..]);
    }
  }

  /**
   * Forwarded output holds one fragment per character and nothing else, and
   * each pipe's fragments are that pipe's characters in order.
   */
  lemma ForwardedShape(rs: seq<Response>, out: string, err: string)
    requires ForwardedOutput(rs, out, err)
    ensures |rs| == |out| + |err|
    ensures OnPipe(rs, StdoutPipe) == Fragments(StdoutPipe, out)
    ensures OnPipe(rs, StderrPipe) == Fragments(StderrPipe, err)
  {
    FragmentCount(rs);
    PipeFragmentsInOrder(rs, StdoutPipe);
    PipeFragmentsInOrder(rs, StderrPipe);
  }

  /** Forwarding one more character of a pipe extends that pipe's text only. */
  lemma ForwardedExtend(rs: seq<Response>, out: string, err: string, p: Pipe, c: char)
    requires ForwardedOutput(rs, out, err)
    ensures ForwardedOutput(rs + [CharFragment(p, c)],
                            if p == StdoutPipe then out + [c] else out,
                            if p == StderrPipe then err + [c] else err)
  {
    var f := CharFragment(p, c);
    var rs' := rs + [f];
    TextAppend(rs, [f], StdoutPipe);
    TextAppend(rs, [f], StderrPipe);
    TextSingle(f, StdoutPipe);
    TextSingle(f, StderrPipe);
    assert forall i :: 0 <= i < |rs'| ==> IsCharFragment(rs'[i]) by {
      forall i | 0 <= i < |rs'| ensures IsCharFragment(rs'[i]) {
        if i < |rs| { assert rs'[i] == rs[i]; }
      }
    }
  }

  /**
   * The full stream of a run whose last send succeeded: forwarded characters and
   * then the result code. Exactly one fragment is not a character fragment, it is
   * the last one, and it carries the code; the reassembled texts are the pipes'.
   */
  lemma RunStreamShape(body: seq<Response>, out: string, err: string, code: int)
    requires ForwardedOutput(body, out, err)
    ensures var s := body + [ResultResponse(code)];
            && (forall i :: 0 <= i < |s| - 1 ==> IsCharFragment(s[i]))
            && !IsCharFragment(s[|s| - 1])
            && s[|s| - 1].resultCode == code
            && Text(s, StdoutPipe) == out
            && Text(s, StderrPipe) == err
  {
    var s := body + [ResultResponse(code)];
    TextAppend(body, [ResultResponse(code)], StdoutPipe);
    TextAppend(body, [ResultResponse(code)], StderrPipe);
    TextSingle(ResultResponse(code), StdoutPipe);
    TextSingle(ResultResponse(code), StderrPipe);
    assert forall i :: 0 <= i < |s| - 1 ==> s[i] == body[i];
  }

  /** Whether the transport accepts the i-th fragment of a pipe; beyond the list it does. */
  function SendSucceeds(sends: seq<bool>, i: nat): bool
  {
    i >= |sends| || sends[i]
  }

  /** The number of characters forwarded from position k on before the first failed send. */
  function DeliveredFrom(s: string, sends: seq<bool>, k: nat): (n: nat)
    requires k <= |s|
    ensures k <= n <= |s|
    ensures forall i :: k <= i < n ==> SendSucceeds(sends, i)
    ensures n < |s| ==> !SendSucceeds(sends, n)
    decreases |s| - k
  {
    if k == |s| || !SendSucceeds(sends, k) then k else DeliveredFrom(s, sends, k + 1)
  }

  /**
   * How many characters of a pipe reach the receiver: all of them up to the
   * first failed send, which ends that pipe's forwarding.
   */
  function Delivered(s: string, sends: seq<bool>): (n: nat)
    ensures n <= |s|
    ensures forall i :: 0 <= i < n ==> SendSucceeds(sends, i)
    ensures n < |s| ==> !SendSucceeds(sends, n)
    ensures (forall i :: 0 <= i < |s| ==> SendSucceeds(sends, i)) ==> n == |s|
  {
    DeliveredFrom(s, sends, 0)
  }

  const Int32Modulus: int := 0x1_0000_0000
  const Int32Min: int := -0x8000_0000

  /** Go's int32(x) conversion: wrap modulo 2^32 into the signed 32-bit range. */
  function Int32(x: int): (r: int)
    ensures Int32Min <= r < -Int32Min
    ensures (x - r) % Int32Modulus == 0
    ensures Int32Min <= x < -Int32Min ==> r == x
  {
    var m := x % Int32Modulus;
    if m >= -Int32Min then m - Int32Modulus else m
  }

  /** What cmd.Wait reports: success, an exit error with its exit code, or another error. */
  datatype WaitOutcome = Exited | ExitError(exitCode: int) | WaitFailed(cause: string)

  /**
   * The result code sent last: 0 after a clean exit, the exit code (as an int32)
   * after an exit error, 1 after any other wait error.
   */
  function ResultCode(w: WaitOutcome): (c: int)
    ensures Int32Min <= c < -Int32Min
    ensures w.Exited? ==> c == 0
    ensures w.WaitFailed? ==> c == 1
    ensures w.ExitError? && Int32Min <= w.exitCode < -Int32Min ==> c == w.exitCode
    ensures w.ExitError? ==> (w.exitCode - c) % Int32Modulus == 0
  {
    match w
    case Exited => 0
    case ExitError(code) => Int32(code)
    case WaitFailed(_) => 1
  }

  /** An exit status N with 0 <= N < 256 comes back as result code N. */
  lemma ExitStatusFidelity(n: int)
    requires 0 <= n < 256
    ensures ResultCode(ExitError(n)) == n
  {
  }
}
