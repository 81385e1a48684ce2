/** Types shared by every part of the model: timestamps, secret value maps,
    the IAM key metadata that several caches hold, and the usual failure
    wrappers. */
module Common {

  /** A point in time. Go's time.Time becomes a plain integer; only the order
      of two timestamps and their difference matter to the model. */
  type Time = int

  /** The zero value time.Time{}, which the source returns on failure paths. */
  const ZeroTime: Time := 0

  /** secret.Map: field name to secret value. */
  type SecretMap = map<string, string>

  datatype Option<+T> = None | Some(value: T)

  datatype Result<+T, +E> = Ok(value: T) | Err(error: E)

  /** The part of iam.AccessKeyMetadata the source looks at. `created` is
      None when the SDK reports no CreateDate. */
  datatype AccessKey = AccessKey(id: string, created: Option<Time>, active: bool)

  /** The errors a storage may report from LastSaved; KeyNotFound is
      secret.ErrKeyNotFound. */
  datatype StoreError = KeyNotFound | StoreFailed(message: string)

  /** Concatenation regroups: the step the call logs of the loops need. */
  lemma SeqAssoc<T>(a: seq<T>, b: seq<T>, c: seq<T>)
    ensures a + b + c == a + (b + c)
  {
  }
}
