# XrayLogger noise-demotion adapter, modelled in Dafny

The adapter in `common/singbridge/logger.go` implements sing's leveled, context-aware
logger interface (`logger.ContextLogger`) on top of Xray's recorders
(`xerrors.LogDebug`, `LogInfo`, `LogWarning`, `LogError`). Each of its fourteen methods
turns a log call into at most one recorder call. The trace, fatal and panic methods
record nothing. Debug, info and warn go to the recorder of the same name. Error goes
to the error recorder, unless an argument is a noisy end-of-stream condition; then it
goes to the debug recorder instead.

The model is pure, like the source:

- `wrappers.dfy`: `Option`.
- `text.dfy` (module `Text`): ASCII lower-casing (`Lower`) and substring search
  (`Contains`). `Contains` is proved equal to a position-based reference predicate
  (`Occurs`).
- `errors.dfy` (module `Errors`): an error value is one of the sentinels `EOF`
  (`io.EOF`) or `UnexpectedEOF` (`io.ErrUnexpectedEOF`), or a `Custom` error with a
  message and an optional wrapped cause. `Chain` lists the errors reached by
  unwrapping. `Is` models `errors.Is`; it is proved to mean "the target is in the
  chain", and to be reflexive and transitive.
- `noise.dfy` (module `Noise`): the argument union `Arg`
  (`Str` | `Err` | `NilErr` | `Other`), `IsNoisyUDPEOF`, `ShouldDowngradeError` and
  `ShouldDowngradeErrorArgs`. `ShouldDowngradeErrorArgs` is proved to mean "some argument
  is noisy". From that come independence of order, the rule for concatenating argument
  lists, and that inserting an inert argument changes nothing. The module also proves
  edge cases: a mixed-case phrase, the phrase without "eof", a doubly wrapped `io.EOF`,
  the bare string "EOF" against the `io.EOF` error, an unrelated error, a noisy message
  on a cause, a quiet error followed by a noisy string, and nil and other arguments.
- `logger.dfy`:
  - module `Recorder`: the recorder call, as a level, a context and the arguments.
    A context is opaque; `Background` stands for `context.Background()`.
  - module `SingLogger`: the caller's seven levels.
  - module `XrayLogger`: one function per method, returning `Option<Recorder.Call>`.
    `Invoke` routes a (level, optional context, args) triple to the matching method.
    The lemmas about `Invoke` cover all fourteen methods at once.

## Model

| member | source | states |
|---|---|---|
| `Text.Contains` | common/singbridge/logger.go:110 | the search answers true exactly when the substring occurs at some position of the string |
| `Text.LowerChar` | common/singbridge/logger.go:109 | lower-casing maps `A`-`Z` onto `a`-`z` letter for letter, leaves every other character alone, and never yields an upper-case letter |
| `Text.Lower` | common/singbridge/logger.go:109 | lower-casing keeps the length and lowers every character, position by position |
| `Text.LowerIdempotent` | common/singbridge/logger.go:109 | lower-casing an already lower-cased string changes nothing |
| `Text.SameUpToCase` | common/singbridge/logger.go:109 | two strings that differ only in letter case have the same lower-case form |
| `Text.ShiftOccurs` | common/singbridge/logger.go:110 | when the substring is not at position 0, it occurs in the string exactly when it occurs in the string's tail |
| `Text.MissingCharNoOccurrence` | common/singbridge/logger.go:110 | a substring holding a character the string lacks does not occur in it |
| `Errors.Message` | common/singbridge/logger.go:102 | `err.Error()`: "EOF" for `io.EOF`, "unexpected EOF" for `io.ErrUnexpectedEOF`, and its own message for any other error |
| `Errors.Unwrap` | common/singbridge/logger.go:105 | the unwrap step of `errors.Is`: the sentinels wrap nothing, and any other error yields its cause, if it has one |
| `Errors.Chain` | common/singbridge/logger.go:105 | the chain starts at the error, each element unwraps to the next one, and the last element unwraps to nothing |
| `Errors.Is` | common/singbridge/logger.go:105 | an error "is" a target exactly when the target appears in its unwrap chain |
| `Errors.IsReflexive` | common/singbridge/logger.go:105 | every error is itself |
| `Errors.WrapKeepsIs` | common/singbridge/logger.go:105 | wrapping an error keeps every target it matched |
| `Errors.IsTransitive` | common/singbridge/logger.go:105 | if A is B and B is C then A is C, the transitive wrap relation |
| `Errors.SentinelsAreDistinct` | common/singbridge/logger.go:105 | `io.EOF` is not `io.ErrUnexpectedEOF` and the reverse |
| `Noise.IsNoisyUDPEOF` | common/singbridge/logger.go:108-111 | true exactly when the lower-cased string contains both "decode udp message" and "eof" at some positions |
| `Noise.NoisyIgnoresCase` | common/singbridge/logger.go:109-110 | a string and its lower-case form get the same verdict |
| `Noise.MixedCaseStringIsNoisy` | common/singbridge/logger.go:108-111 | "decode UDP message: EOF" is noisy |
| `Noise.PhraseAloneIsNotNoisy` | common/singbridge/logger.go:110 | the phrase without "eof" is not noisy: both substrings are required |
| `Noise.ShouldDowngradeError` | common/singbridge/logger.go:98-106 | nil is never noisy; a non-nil error is noisy exactly when its message is noisy or its chain reaches `io.EOF` or `io.ErrUnexpectedEOF` |
| `Noise.EOFStringVersusEOFError` | common/singbridge/logger.go:102-110 | the bare string "EOF" is not noisy, while the `io.EOF` error is |
| `Noise.ConnectionResetIsNotNoisy` | common/singbridge/logger.go:98-106 | an error "connection reset by peer" with no cause is not noisy |
| `Noise.WrappedEndOfStreamIsNoisy` | common/singbridge/logger.go:105 | wrapping an error whose chain reaches a sentinel gives a noisy error, whatever the new message |
| `Noise.DoublyWrappedEOFIsNoisy` | common/singbridge/logger.go:105 | A wraps B wraps `io.EOF` is noisy |
| `Noise.CauseMessageNotInspected` | common/singbridge/logger.go:102 | only the outer message is matched: a noisy message on a cause does not make its wrapper noisy |
| `Noise.NoisyMessageMakesNoisyError` | common/singbridge/logger.go:102-110 | an error whose message is a noisy string is itself noisy |
| `Noise.ShouldDowngradeErrorArgs` | common/singbridge/logger.go:83-96 | true exactly when some argument is an error that `ShouldDowngradeError` accepts, or a string that `IsNoisyUDPEOF` accepts; false on no arguments |
| `Noise.DowngradeArgsByMembership` | common/singbridge/logger.go:84-94 | the verdict depends only on which arguments are present, not on their positions |
| `Noise.DowngradeArgsAppend` | common/singbridge/logger.go:84-95 | the verdict on `a + b` is the verdict on `a` or the verdict on `b` |
| `Noise.DowngradeArgsPermutation` | common/singbridge/logger.go:84-94 | any permutation of the arguments gets the same verdict |
| `Noise.InertArgIgnored` | common/singbridge/logger.go:84-94 | inserting a non-noisy argument at any position leaves the verdict unchanged |
| `Noise.SearchContinuesPastQuietError` | common/singbridge/logger.go:85-93 | after a non-noisy error, the search continues and a later noisy string still demotes |
| `Noise.NilAndOtherAreInert` | common/singbridge/logger.go:84-95 | a nil error and a non-error, non-string value do not demote |
| `XrayLogger.Trace` | common/singbridge/logger.go:25-26 | no recorder call |
| `XrayLogger.Debug` | common/singbridge/logger.go:28-30 | one debug call on the background context with the arguments unchanged |
| `XrayLogger.Info` | common/singbridge/logger.go:32-34 | one info call on the background context with the arguments unchanged |
| `XrayLogger.Warn` | common/singbridge/logger.go:36-38 | one warning call on the background context with the arguments unchanged |
| `XrayLogger.Error` | common/singbridge/logger.go:40-46 | exactly one call on the background context with the arguments unchanged; debug level exactly when the noise predicate holds, error level exactly when it does not |
| `XrayLogger.Fatal` | common/singbridge/logger.go:48-49 | no recorder call |
| `XrayLogger.Panic` | common/singbridge/logger.go:51-52 | no recorder call |
| `XrayLogger.TraceContext` | common/singbridge/logger.go:54-55 | no recorder call |
| `XrayLogger.DebugContext` | common/singbridge/logger.go:57-59 | one debug call on the supplied context with the arguments unchanged |
| `XrayLogger.InfoContext` | common/singbridge/logger.go:61-63 | one info call on the supplied context with the arguments unchanged |
| `XrayLogger.WarnContext` | common/singbridge/logger.go:65-67 | one warning call on the supplied context with the arguments unchanged |
| `XrayLogger.ErrorContext` | common/singbridge/logger.go:69-75 | the same decision as `Error`, but on the supplied context, not the background one |
| `XrayLogger.FatalContext` | common/singbridge/logger.go:77-78 | no recorder call |
| `XrayLogger.PanicContext` | common/singbridge/logger.go:80-81 | no recorder call |
| `XrayLogger.Invoke` | common/singbridge/logger.go:25-81 | across all fourteen methods: no call exactly for trace, fatal and panic; otherwise the arguments are unchanged, the context is the supplied one or background, and the level is the same-named one except for a noisy error call, which goes to debug |
| `XrayLogger.ContextFormMatchesPlainForm` | common/singbridge/logger.go:25-81 | each `*Context` method records what its plain form records, with the supplied context in place of background |
| `XrayLogger.OnlyErrorInspectsArgs` | common/singbridge/logger.go:25-67 | outside error and errorContext, changing the arguments changes only the forwarded arguments |
| `XrayLogger.DemotionOnlyLowers` | common/singbridge/logger.go:40-75 | the recorded severity never exceeds the requested one, and it is lower exactly when an error call is noisy |
| `XrayLogger.NoArgsNoDemotion` | common/singbridge/logger.go:40-75 | an error call with no arguments is recorded at error level |
| `XrayLogger.NoisyArgDemotesBothForms` | common/singbridge/logger.go:40-75 | a single noisy argument sends both error forms to the debug recorder, keeping the supplied context on errorContext |
| `XrayLogger.QuietErrorKeepsErrorLevel` | common/singbridge/logger.go:40-75 | an unrelated error is recorded at error level on both forms |

## Left out

- `NewLogger` and the `newError` field (common/singbridge/logger.go:15-23): the field is stored once and never read.
- What the `xerrors.Log*` recorders do (formatting, sinks, severity filtering): the model returns only which recorder is called, with which context and arguments.
- Context semantics such as cancellation and deadlines: a context is an opaque token, with `Background` as a distinct constant.
- `errors.Is` in full: custom `Is(target) bool` methods and multi-cause `Unwrap() []error` trees are not modelled. Only a single cause chain with equality against a sentinel is. Chains are finite by construction, because they are values of an inductive datatype. So the model cannot represent a Go error whose `Unwrap` leads back to itself. On such an error `errors.Is` at common/singbridge/logger.go:105 loops forever, and `Error`/`ErrorContext` never return.
- Error identity: two `Custom` errors with the same message and cause are equal values in the model. Distinct Go pointers might not be equal. This only affects comparisons with the two sentinels, and a `Custom` error is never equal to either.
- `Text.Lower`: models `strings.ToLower` on ASCII letters only. Full Unicode case mapping is not modelled. The matched phrases use only the ASCII letters a, c, d, e, f, g, m, o, p, s, u. Only two non-ASCII characters lower-case to an ASCII letter: U+0130 (LATIN CAPITAL LETTER I WITH DOT ABOVE) to `i`, and U+212A (KELVIN SIGN) to `k`. Neither letter is in the phrases, so the ASCII-only `Lower` gives the same verdict as `strings.ToLower`.
- Go's dynamic typing of `any`: typed-nil errors and other type-assertion subtleties are collapsed into the `Arg` union. A nil error is `NilErr` and is inert, because a nil interface value fails both type assertions.
- Concurrency: the adapter has no shared state.
