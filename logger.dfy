/**
 * The recording facility the adapter forwards to (xerrors.LogDebug,
 * LogInfo, LogWarning, LogError): which recorder is called, with which
 * context and which arguments. What a recorder then does is outside the model.
 */
module Recorder {
  import Noise

  datatype Level = Debug | Info | Warning | Error

  /** A context.Context is opaque; Background stands for context.Background(). */
  datatype Ctx = Background | Token(id: nat)

  /** One call `xerrors.Log<level>(ctx, args...)`. */
  datatype Call = Call(level: Level, ctx: Ctx, args: seq<Noise.Arg>)

  /** Severity order of the recorders: debug < info < warning < error. */
  function Rank(l: Level): nat {
    match l
    case Debug => 1
    case Info => 2
    case Warning => 3
    case Error => 4
  }
}

/** The seven levels of the caller's logging interface (sing's logger.ContextLogger). */
module SingLogger {

  datatype Severity = Trace | Debug | Info | Warn | Error | Fatal | Panic
}

/**
 * The XrayLogger adapter: each of its fourteen methods maps a log call to at
 * most one recorder call, returned here as an Option.
 */
module XrayLogger {
  import opened Wrappers
  import opened Noise
  import Errors
  import Recorder
  import SingLogger

  type Record = Option<Recorder.Call>

  function Trace(args: seq<Arg>): (r: Record)
    ensures r.None?
  {
    None
  }

  function Debug(args: seq<Arg>): (r: Record)
    ensures r == Some(Recorder.Call(Recorder.Debug, Recorder.Background, args))
  {
    Some(Recorder.Call(Recorder.Debug, Recorder.Background, args))
  }

  function Info(args: seq<Arg>): (r: Record)
    ensures r == Some(Recorder.Call(Recorder.Info, Recorder.Background, args))
  {
    Some(Recorder.Call(Recorder.Info, Recorder.Background, args))
  }

  function Warn(args: seq<Arg>): (r: Record)
    ensures r == Some(Recorder.Call(Recorder.Warning, Recorder.Background, args))
  {
    Some(Recorder.Call(Recorder.Warning, Recorder.Background, args))
  }

  /**
   * Exactly one recorder call, on the background context with the arguments
   * unchanged: debug level when the noise predicate holds, error level otherwise.
   */
  function Error(args: seq<Arg>): (r: Record)
    ensures r.Some? && r.value.ctx == Recorder.Background && r.value.args == args
    ensures r.value.level == Recorder.Debug <==> ShouldDowngradeErrorArgs(args)
    ensures r.value.level == Recorder.Error <==> !ShouldDowngradeErrorArgs(args)
  {
    if ShouldDowngradeErrorArgs(args) then
      Some(Recorder.Call(Recorder.Debug, Recorder.Background, args))
    else
      Some(Recorder.Call(Recorder.Error, Recorder.Background, args))
  }

  function Fatal(args: seq<Arg>): (r: Record)
    ensures r.None?
  {
    None
  }

  function Panic(args: seq<Arg>): (r: Record)
    ensures r.None?
  {
    None
  }

  function TraceContext(ctx: Recorder.Ctx, args: seq<Arg>): (r: Record)
    ensures r.None?
  {
    None
  }

  function DebugContext(ctx: Recorder.Ctx, args: seq<Arg>): (r: Record)
    ensures r == Some(Recorder.Call(Recorder.Debug, ctx, args))
  {
    Some(Recorder.Call(Recorder.Debug, ctx, args))
  }

  function InfoContext(ctx: Recorder.Ctx, args: seq<Arg>): (r: Record)
    ensures r == Some(Recorder.Call(Recorder.Info, ctx, args))
  {
    Some(Recorder.Call(Recorder.Info, ctx, args))
  }

  function WarnContext(ctx: Recorder.Ctx, args: seq<Arg>): (r: Record)
    ensures r == Some(Recorder.Call(Recorder.Warning, ctx, args))
  {
    Some(Recorder.Call(Recorder.Warning, ctx, args))
  }

  /** The same decision as Error, on the supplied context. */
  function ErrorContext(ctx: Recorder.Ctx, args: seq<Arg>): (r: Record)
    ensures r.Some? && r.value.ctx == ctx && r.value.args == args
    ensures r.value.level == Recorder.Debug <==> ShouldDowngradeErrorArgs(args)
    ensures r.value.level == Recorder.Error <==> !ShouldDowngradeErrorArgs(args)
  {
    if ShouldDowngradeErrorArgs(args) then
      Some(Recorder.Call(Recorder.Debug, ctx, args))
    else
      Some(Recorder.Call(Recorder.Error, ctx, args))
  }

  function FatalContext(ctx: Recorder.Ctx, args: seq<Arg>): (r: Record)
    ensures r.None?
  {
    None
  }

  function PanicContext(ctx: Recorder.Ctx, args: seq<Arg>): (r: Record)
    ensures r.None?
  {
    None
  }

  /** The recorder whose name matches a caller level; none for trace, fatal and panic. */
  function Counterpart(s: SingLogger.Severity): Option<Recorder.Level> {
    match s
    case Debug => Some(Recorder.Debug)
    case Info => Some(Recorder.Info)
    case Warn => Some(Recorder.Warning)
    case Error => Some(Recorder.Error)
    case _ => None
  }

  /** The context a recorder receives: the supplied one, or Background for the plain forms. */
  function EffectiveCtx(ctx: Option<Recorder.Ctx>): Recorder.Ctx {
    if ctx.Some? then ctx.value else Recorder.Background
  }

  /**
   * A call through the caller's interface: the level it asks for, the
   * context when it uses a *Context method, and the arguments. The result
   * goes to the same-named recorder with the arguments unchanged, except
   * that a noisy error call goes to the debug recorder; trace, fatal and
   * panic record nothing.
   */
  function Invoke(s: SingLogger.Severity, ctx: Option<Recorder.Ctx>, args: seq<Arg>): (r: Record)
    ensures r.None? <==> Counterpart(s).None?
    ensures r.Some? ==> r.value.args == args && r.value.ctx == EffectiveCtx(ctx)
    ensures r.Some? ==>
              r.value.level == if s == SingLogger.Error && ShouldDowngradeErrorArgs(args)
                               then Recorder.Debug else Counterpart(s).value
  {
    match ctx
    case None =>
      (match s
      case Trace => Trace(args)
      case Debug => Debug(args)
      case Info => Info(args)
      case Warn => Warn(args)
      case Error => Error(args)
      case Fatal => Fatal(args)
      case Panic => Panic(args))
    case Some(c) =>
      (match s
      case Trace => TraceContext(c, args)
      case Debug => DebugContext(c, args)
      case Info => InfoContext(c, args)
      case Warn => WarnContext(c, args)
      case Error => ErrorContext(c, args)
      case Fatal => FatalContext(c, args)
      case Panic => PanicContext(c, args))
  }

  /** A *Context method records exactly what its plain form records, on the supplied context. */
  lemma ContextFormMatchesPlainForm(s: SingLogger.Severity, ctx: Recorder.Ctx, args: seq<Arg>)
    ensures Invoke(s, Some(ctx), args).None? == Invoke(s, None, args).None?
    ensures Invoke(s, None, args).Some? ==>
      Invoke(s, Some(ctx), args) == Some(Invoke(s, None, args).value.(ctx := ctx))
  {
  }

  /** Outside error and errorContext the argument contents never affect the call. */
  lemma OnlyErrorInspectsArgs(s: SingLogger.Severity, ctx: Option<Recorder.Ctx>, a: seq<Arg>, b: seq<Arg>)
    requires s != SingLogger.Error
    ensures Invoke(s, ctx, a).None? == Invoke(s, ctx, b).None?
    ensures Invoke(s, ctx, a).Some? ==>
      Invoke(s, ctx, b) == Some(Invoke(s, ctx, a).value.(args := b))
  {
  }

  /**
   * The adapter never raises a severity, and it lowers one exactly when an
   * error call is noisy.
   */
  lemma DemotionOnlyLowers(s: SingLogger.Severity, ctx: Option<Recorder.Ctx>, args: seq<Arg>)
    requires Invoke(s, ctx, args).Some?
    ensures Recorder.Rank(Invoke(s, ctx, args).value.level) <= Recorder.Rank(Counterpart(s).value)
    ensures Recorder.Rank(Invoke(s, ctx, args).value.level) < Recorder.Rank(Counterpart(s).value)
      <==> s == SingLogger.Error && ShouldDowngradeErrorArgs(args)
  {
  }

  /** A call with no arguments is never demoted. */
  lemma NoArgsNoDemotion(ctx: Option<Recorder.Ctx>)
    ensures Invoke(SingLogger.Error, ctx, []) == Some(Recorder.Call(Recorder.Error, EffectiveCtx(ctx), []))
  {
  }

  /**
   * A single noisy argument (such as the string "decode udp message: got eof",
   * see Noise.SearchContinuesPastQuietError) demotes on both forms, and
   * errorContext keeps the caller's context.
   */
  lemma NoisyArgDemotesBothForms(a: Arg, ctx: Recorder.Ctx)
    requires NoisyArg(a)
    ensures Error([a]) == Some(Recorder.Call(Recorder.Debug, Recorder.Background, [a]))
    ensures ErrorContext(ctx, [a]) == Some(Recorder.Call(Recorder.Debug, ctx, [a]))
  {
  }

  /** An unrelated error is recorded at error level. */
  lemma QuietErrorKeepsErrorLevel(ctx: Recorder.Ctx)
    ensures Error([Err(Errors.Custom("connection reset by peer", None))]).value.level == Recorder.Error
    ensures ErrorContext(ctx, [Err(Errors.Custom("connection reset by peer", None))]).value.level == Recorder.Error
  {
    ConnectionResetIsNotNoisy();
  }
}
