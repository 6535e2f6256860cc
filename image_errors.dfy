/** The errors of the image package: eleven sentinel errors, the wrapper
    `WrapError` adds context with, and the two classifications a caller
    retries or gives up by. An error is a sentinel, a wrapper around another
    error, or an opaque error from elsewhere that unwraps to nothing; Go's
    `nil` error is `None`. */
module ImageErrors {
  import opened Wrappers

  /** The sentinel errors. */
  datatype Kind =
    | InvalidPrompt | InvalidSize | UnsupportedSize | ContentFiltered | QuotaExceeded
    | GenerationFailed | InvalidAPIKey | ProviderUnavailable | Timeout | InvalidResponse
    | ModelNotSupported

  datatype Error =
    | Sentinel(kind: Kind)
    | Wrapped(context: string, err: Error)
    | Opaque(message: string)

  function SentinelMessage(k: Kind): string
  {
    match k
    case InvalidPrompt => "invalid prompt: prompt cannot be empty"
    case InvalidSize => "invalid image size"
    case UnsupportedSize => "unsupported image size for this provider"
    case ContentFiltered => "content filtered by safety system"
    case QuotaExceeded => "image generation quota exceeded"
    case GenerationFailed => "image generation failed"
    case InvalidAPIKey => "invalid API key"
    case ProviderUnavailable => "image provider unavailable"
    case Timeout => "request timeout"
    case InvalidResponse => "invalid response from provider"
    case ModelNotSupported => "model not supported"
  }

  /** `Error()`: a wrapper's context, ": ", then the wrapped error's text. */
  function Message(e: Error): string
  {
    match e
    case Sentinel(k) => SentinelMessage(k)
    case Wrapped(context, inner) => context + ": " + Message(inner)
    case Opaque(m) => m
  }

  /** `Unwrap()`: only a wrapper unwraps, to the error it wraps. */
  function Unwrap(e: Error): Option<Error>
  {
    match e
    case Wrapped(_, inner) => Some(inner)
    case _ => None
  }

  /** `WrapError`: nil stays nil; any other error is wrapped with `context`. */
  function WrapError(err: Option<Error>, context: string): (r: Option<Error>)
  {
    match err
    case None => None
    case Some(e) => Some(Wrapped(context, e))
  }

  /** `errors.Is(e, target)` for a sentinel target: `e` is the sentinel, or
      what it unwraps to is. */
  function Is(e: Error, k: Kind): bool
  {
    match e
    case Sentinel(j) => j == k
    case Wrapped(_, inner) => Is(inner, k)
    case Opaque(_) => false
  }

  /** The unwrap chain: the error, then what it unwraps to, and so on. */
  function Chain(e: Error): (c: seq<Error>)
    ensures |c| >= 1 && c[0] == e
  {
    match e
    case Wrapped(_, inner) => [e] + Chain(inner)
    case _ => [e]
  }

  /** The end of the unwrap chain. */
  function Root(e: Error): Error
  {
    match e
    case Wrapped(_, inner) => Root(inner)
    case _ => e
  }

  /** `errors.Is` holds exactly when the sentinel appears in the chain, and
      then it is the chain's end: a chain of wrappers holds one sentinel at
      most. */
  lemma {:induction false} IsMeaning(e: Error, k: Kind)
    ensures Is(e, k) <==> Sentinel(k) in Chain(e)
    ensures Is(e, k) <==> Root(e) == Sentinel(k)
  {
    match e
    case Wrapped(_, inner) =>
      IsMeaning(inner, k);
      assert Chain(e) == [e] + Chain(inner);
    case Sentinel(_) =>
    case Opaque(_) =>
  }

  const RetryableKinds: set<Kind> := {QuotaExceeded, Timeout, ProviderUnavailable}
  const FatalKinds: set<Kind> := {InvalidAPIKey, InvalidPrompt, ModelNotSupported}

  /** `IsRetryable`: false for nil; otherwise a quota, timeout or
      unavailable-provider sentinel in the chain. */
  function IsRetryable(err: Option<Error>): bool
  {
    err.Some? && (Is(err.value, QuotaExceeded) || Is(err.value, Timeout) || Is(err.value, ProviderUnavailable))
  }

  /** `IsFatal`: false for nil; otherwise an invalid-key, invalid-prompt or
      unsupported-model sentinel in the chain. */
  function IsFatal(err: Option<Error>): bool
  {
    err.Some? && (Is(err.value, InvalidAPIKey) || Is(err.value, InvalidPrompt) || Is(err.value, ModelNotSupported))
  }

  /** Each classification is membership of a sentinel of its kinds in the
      chain; nil is neither. */
  lemma ClassificationMeaning(err: Option<Error>)
    ensures err.None? ==> !IsRetryable(err) && !IsFatal(err)
    ensures IsRetryable(err) <==>
      err.Some? && exists k :: k in RetryableKinds && Sentinel(k) in Chain(err.value)
    ensures IsFatal(err) <==>
      err.Some? && exists k :: k in FatalKinds && Sentinel(k) in Chain(err.value)
  {
    if err.Some? {
      var e := err.value;
      IsMeaning(e, QuotaExceeded);
      IsMeaning(e, Timeout);
      IsMeaning(e, ProviderUnavailable);
      IsMeaning(e, InvalidAPIKey);
      IsMeaning(e, InvalidPrompt);
      IsMeaning(e, ModelNotSupported);
      forall k | k in RetryableKinds + FatalKinds && Sentinel(k) in Chain(e)
        ensures Is(e, k)
      {
        IsMeaning(e, k);
      }
    }
  }

  /** No error is both retryable and fatal. */
  lemma RetryableNotFatal(err: Option<Error>)
    ensures !(IsRetryable(err) && IsFatal(err))
  {
    if err.Some? {
      var e := err.value;
      IsMeaning(e, QuotaExceeded);
      IsMeaning(e, Timeout);
      IsMeaning(e, ProviderUnavailable);
      IsMeaning(e, InvalidAPIKey);
      IsMeaning(e, InvalidPrompt);
      IsMeaning(e, ModelNotSupported);
    }
  }

  /** Wrapping keeps nil nil; a wrapped error reads as the context, ": " and
      the inner text, unwraps to the inner error, and is classified as the
      inner error is. */
  lemma WrapErrorMeaning(err: Option<Error>, context: string)
    ensures err.None? <==> WrapError(err, context).None?
    ensures err.Some? ==>
      && Message(WrapError(err, context).value) == context + ": " + Message(err.value)
      && Unwrap(WrapError(err, context).value) == err
    ensures IsRetryable(WrapError(err, context)) == IsRetryable(err)
    ensures IsFatal(WrapError(err, context)) == IsFatal(err)
  {
  }

  /** An opaque error, even one whose text names a sentinel's, is neither
      retryable nor fatal: classification follows the chain, not the text. */
  lemma OpaqueUnclassified(m: string)
    ensures !IsRetryable(Some(Opaque(m))) && !IsFatal(Some(Opaque(m)))
  {
  }

  /** The sentinels of the package outside both classes: invalid or
      unsupported sizes, filtered content, failed generation and invalid
      responses are neither retried nor fatal. */
  lemma {:induction false} OtherSentinelsUnclassified(e: Error)
    requires Root(e).Sentinel? && Root(e).kind !in RetryableKinds + FatalKinds
    ensures !IsRetryable(Some(e)) && !IsFatal(Some(e))
  {
    match e
    case Wrapped(_, inner) => OtherSentinelsUnclassified(inner);
    case Sentinel(_) =>
  }
}
