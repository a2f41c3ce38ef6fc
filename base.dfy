/** Shared vocabulary: optional values, identifiers, time and string helpers. */
module Base {

  /** A value that may be absent (a nil pointer in the source). */
  datatype Option<T> = None | Some(value: T)

  /** Primary keys. The source uses random UUIDs; only equality matters here. */
  type Id = nat

  /** uuid.Nil, the all-zero UUID that uuid.Parse's ignored error leaves behind. */
  const NilUuid: Id := 0

  /** An identifier as it arrives in text: the canonical text of a UUID, or any other text. */
  datatype RawId = Uuid(id: Id) | NotUuid(text: string)

  /** uuid.Parse on an identifier given as text. */
  function ParseUuid(raw: RawId): (r: Option<Id>)
    ensures r.Some? <==> raw.Uuid?
    ensures r.Some? ==> r.value == raw.id
  {
    match raw
    case Uuid(id) => Some(id)
    case NotUuid(_) => None
  }

  /** The empty string, the value Go's == "" tests for. */
  predicate IsEmptyRaw(raw: RawId) {
    raw == NotUuid("")
  }

  /** The HTTP status codes the handlers answer with. */
  const StatusOK: int := 200
  const StatusBadRequest: int := 400
  const StatusUnauthorized: int := 401
  const StatusPaymentRequired: int := 402
  const StatusForbidden: int := 403
  const StatusNotFound: int := 404
  const StatusTooManyRequests: int := 429
  const StatusInternalServerError: int := 500

  /** Seconds in a day. */
  const Day: int := 86400

  /** The zero value of Go's time.Time (January 1, year 1, UTC) in Unix seconds. */
  const ZeroTime: int := -62135596800

  predicate HasPrefix(s: string, prefix: string) {
    |prefix| <= |s| && s[..|prefix|] == prefix
  }

  /** strings.TrimPrefix: s without the leading prefix, or s itself when it does not start with it. */
  function TrimPrefix(s: string, prefix: string): (r: string)
    ensures HasPrefix(s, prefix) ==> prefix + r == s
    ensures !HasPrefix(s, prefix) ==> r == s
  {
    if HasPrefix(s, prefix) then s[|prefix|..] else s
  }

  /** The trimmed string equals the original exactly when there was nothing to trim. */
  lemma TrimPrefixUnchanged(s: string, prefix: string)
    requires prefix != ""
    ensures TrimPrefix(s, prefix) == s <==> !HasPrefix(s, prefix)
  {
    if HasPrefix(s, prefix) {
      assert |TrimPrefix(s, prefix)| == |s| - |prefix|;
    }
  }
}
