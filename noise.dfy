/**
 * The noise-demotion predicate: whether an error-level log call carries an
 * end-of-stream condition that should be recorded at debug level instead.
 */
module Noise {
  import opened Wrappers
  import opened Text
  import opened Errors

  /**
   * One element of a variadic `args ...any` list: a string, a non-nil
   * error, a nil error, or any other value.
   */
  datatype Arg = Str(s: string) | Err(e: Error) | NilErr | Other

  const DecodeUDPMessage: string := "decode udp message"
  const EOFWord: string := "eof"

  /**
   * isNoisyUDPEOF: the lower-cased string contains both the phrase
   * "decode udp message" and "eof".
   */
  function IsNoisyUDPEOF(s: string): (b: bool)
    ensures b <==> Occurs(Lower(s), DecodeUDPMessage) && Occurs(Lower(s), EOFWord)
  {
    var l := Lower(s);
    Contains(l, DecodeUDPMessage) && Contains(l, EOFWord)
  }

  /** The error chain of `e` reaches io.EOF or io.ErrUnexpectedEOF. */
  ghost predicate ReachesEndOfStream(e: Error) {
    EOF in Chain(e) || UnexpectedEOF in Chain(e)
  }

  /**
   * shouldDowngradeError: nil is never noisy; otherwise the message passes
   * isNoisyUDPEOF or the error is, or wraps, one of the two sentinels.
   */
  function ShouldDowngradeError(err: Option<Error>): (b: bool)
    ensures err.None? ==> !b
    ensures err.Some? ==> (b <==> IsNoisyUDPEOF(Message(err.value)) || ReachesEndOfStream(err.value))
  {
    if err.None? then
      false
    else if IsNoisyUDPEOF(Message(err.value)) then
      true
    else
      Is(err.value, EOF) || Is(err.value, UnexpectedEOF)
  }

  /**
   * The per-argument test of the loop: an error is judged by
   * ShouldDowngradeError, a string by IsNoisyUDPEOF, anything else is inert.
   */
  ghost predicate NoisyArg(a: Arg) {
    match a
    case Err(e) => ShouldDowngradeError(Some(e))
    case Str(s) => IsNoisyUDPEOF(s)
    case NilErr => false
    case Other => false
  }

  /**
   * shouldDowngradeErrorArgs: some argument, at any position, is noisy.
   * A non-noisy error moves on to the next argument (the `continue`).
   */
  function ShouldDowngradeErrorArgs(args: seq<Arg>): (b: bool)
    ensures b <==> exists i :: 0 <= i < |args| && NoisyArg(args[i])
    ensures args == [] ==> !b
  {
    if args == [] then
      false
    else
      var found :=
        match args[0]
        case Err(e) => ShouldDowngradeError(Some(e))
        case Str(s) => IsNoisyUDPEOF(s)
        case _ => false;
      if found then
        assert NoisyArg(args[0]);
        true
      else
        var b := ShouldDowngradeErrorArgs(args[1..]);
        assert forall i :: 1 <= i < |args| ==> args[i] == args[1..][i - 1];
        b
  }

  /** The predicate only asks whether some noisy argument is present. */
  lemma DowngradeArgsByMembership(args: seq<Arg>)
    ensures ShouldDowngradeErrorArgs(args) <==> exists a :: a in args && NoisyArg(a)
  {
  }

  /** Concatenating argument lists combines their verdicts by "or". */
  lemma DowngradeArgsAppend(a: seq<Arg>, b: seq<Arg>)
    ensures ShouldDowngradeErrorArgs(a + b) == (ShouldDowngradeErrorArgs(a) || ShouldDowngradeErrorArgs(b))
  {
    DowngradeArgsByMembership(a);
    DowngradeArgsByMembership(b);
    DowngradeArgsByMembership(a + b);
  }

  /** Order does not matter: any permutation of the arguments gives the same verdict. */
  lemma DowngradeArgsPermutation(a: seq<Arg>, b: seq<Arg>)
    requires multiset(a) == multiset(b)
    ensures ShouldDowngradeErrorArgs(a) == ShouldDowngradeErrorArgs(b)
  {
    DowngradeArgsByMembership(a);
    DowngradeArgsByMembership(b);
    forall x | x in a ensures x in b {
      assert x in multiset(a);
    }
    forall x | x in b ensures x in a {
      assert x in multiset(b);
    }
  }

  /** Inserting an inert argument anywhere leaves the verdict unchanged. */
  lemma InertArgIgnored(args: seq<Arg>, k: nat, x: Arg)
    requires k <= |args| && !NoisyArg(x)
    ensures ShouldDowngradeErrorArgs(args[..k] + [x] + args[k..]) == ShouldDowngradeErrorArgs(args)
  {
    DowngradeArgsAppend(args[..k], [x]);
    DowngradeArgsAppend(args[..k] + [x], args[k..]);
    DowngradeArgsAppend(args[..k], args[k..]);
    assert args[..k] + args[k..] == args;
  }

  /** Matching ignores case: "decode UDP message: EOF" is noisy. */
  lemma MixedCaseStringIsNoisy()
    ensures IsNoisyUDPEOF("decode UDP message: EOF")
  {
    var l := Lower("decode UDP message: EOF");
    assert l == "decode udp message: eof";
    assert MatchAt(l, DecodeUDPMessage, 0);
    assert MatchAt(l, EOFWord, 20);
  }

  /** The verdict on a string is the verdict on its lower-case form. */
  lemma NoisyIgnoresCase(s: string)
    ensures IsNoisyUDPEOF(Lower(s)) == IsNoisyUDPEOF(s)
  {
    LowerIdempotent(s);
  }

  /** Both substrings are needed: the phrase without "eof" is not noisy. */
  lemma PhraseAloneIsNotNoisy()
    ensures !IsNoisyUDPEOF("decode udp message: connection closed")
  {
    var s := "decode udp message: connection closed";
    LowerOfLowercase(s);
    MissingCharNoOccurrence(s, EOFWord, 'f');
  }

  /**
   * A bare "EOF" string is not noisy, while the io.EOF error, whose message
   * is the same text, is: errors are also judged by identity.
   */
  lemma EOFStringVersusEOFError()
    ensures !IsNoisyUDPEOF("EOF")
    ensures ShouldDowngradeError(Some(EOF))
  {
  }

  /** An unrelated error keeps error severity. */
  lemma ConnectionResetIsNotNoisy()
    ensures !ShouldDowngradeError(Some(Custom("connection reset by peer", None)))
  {
    var s := "connection reset by peer";
    LowerOfLowercase(s);
    MissingCharNoOccurrence(s, DecodeUDPMessage, 'u');
  }

  /** Wrapping an end-of-stream error, at any depth, keeps it noisy. */
  lemma WrappedEndOfStreamIsNoisy(m: string, e: Error)
    requires ReachesEndOfStream(e)
    ensures ShouldDowngradeError(Some(Custom(m, Some(e))))
  {
  }

  /** Two levels of wrapping around io.EOF are still seen through. */
  lemma DoublyWrappedEOFIsNoisy()
    ensures ShouldDowngradeError(Some(Custom("read packet", Some(Custom("read frame", Some(EOF))))))
  {
  }

  /**
   * Only the outermost message is matched: a noisy message on a cause
   * does not make the wrapping error noisy.
   */
  lemma CauseMessageNotInspected()
    ensures !ShouldDowngradeError(Some(Custom("read failed", Some(Custom("decode udp message: eof", None)))))
  {
  }

  /** An error whose message is a noisy string is noisy too. */
  lemma NoisyMessageMakesNoisyError(m: string, cause: Option<Error>)
    requires NoisyArg(Str(m))
    ensures NoisyArg(Err(Custom(m, cause)))
  {
  }

  /** A non-noisy error does not stop the search: a later noisy string still demotes. */
  lemma SearchContinuesPastQuietError()
    ensures ShouldDowngradeErrorArgs([Err(Custom("connection reset by peer", None)), Str("decode udp message: got eof")])
  {
    var s := "decode udp message: got eof";
    LowerOfLowercase(s);
    assert MatchAt(s, DecodeUDPMessage, 0);
    assert MatchAt(s, EOFWord, 24);
    assert NoisyArg([Err(Custom("connection reset by peer", None)), Str(s)][1]);
  }

  /** A nil error and a non-error, non-string value never demote on their own. */
  lemma NilAndOtherAreInert()
    ensures !ShouldDowngradeErrorArgs([NilErr, Other])
  {
  }
}
