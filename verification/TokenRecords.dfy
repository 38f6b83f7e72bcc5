/**
 * The decisions of the host-shared token store (src/api/host_broker_contract.py):
 * what a process does with the record and the issuance guard it reads from disk.
 * Times and durations are exact reals, a file is a value, and an unreadable,
 * undecodable or schema-violating file is the single value `Malformed` / `BadGuard`.
 */
module TokenRecords {
  import opened Common

  type Token = string

  datatype TokenRecord = TokenRecord(token: Token, issuedAt: real, expiresAt: Option<real>, generation: nat)

  datatype RecordFile = Missing | Malformed | Stored(record: TokenRecord)

  datatype GuardFile = NoGuard | BadGuard | Stamped(at: real)

  datatype ThrottlePolicy = Wait | Raise

  /** Per-process settings of one store object; the file paths are shared by all of them. */
  datatype StoreConfig = StoreConfig(margin: real, maxAge: real, policy: ThrottlePolicy, lockTimeout: real)

  /** Why a caller enters the locked section: `get_or_issue` or `replace_rejected(rejected)`. */
  datatype Purpose = Get | Replace(rejected: Token)

  datatype StoreError = LockTimeout | Throttled | ReadError | IssueFailed

  type Outcome = Result<TokenRecord, StoreError>

  predicate IsUsable(r: TokenRecord, now: real, c: StoreConfig) {
    match r.expiresAt
    case None => now - r.issuedAt < c.maxAge
    case Some(expiry) => now < expiry - c.margin
  }

  function BuildRecord(token: Token, expiresIn: Option<real>, previous: Option<TokenRecord>, now: real): TokenRecord {
    TokenRecord(
      token,
      now,
      if expiresIn.Some? then Some(now + expiresIn.value) else None,
      if previous.Some? then previous.value.generation + 1 else 1)
  }

  /**
   * Result of re-reading the record under the lock. `Clear(previous, swap)` lets the caller issue;
   * `swap` says that the record was usable and is replaced only because it carries the rejected token.
   */
  datatype CheckVerdict =
    Fail(error: StoreError) | Adopt(record: TokenRecord) | Clear(previous: Option<TokenRecord>, swap: bool)

  function LockedCheck(file: RecordFile, purpose: Purpose, now: real, c: StoreConfig): CheckVerdict {
    match file
    case Malformed => Fail(ReadError)
    case Missing => Clear(None, false)
    case Stored(r) =>
      if !IsUsable(r, now, c) then Clear(Some(r), false)
      else if purpose == Replace(r.token) then Clear(Some(r), true)
      else Adopt(r)
  }

  /** Result of consulting the issuance guard: refuse, or write the stamp no earlier than `notBefore`. */
  datatype GuardVerdict = Refuse(error: StoreError) | Proceed(notBefore: real)

  function GuardCheck(guard: GuardFile, interval: real, now: real, c: StoreConfig): GuardVerdict {
    match guard
    case BadGuard => Refuse(ReadError)
    case NoGuard => Proceed(now)
    case Stamped(last) =>
      var delay := last + interval - now;
      if delay <= 0.0 then Proceed(now)
      else if c.policy == Raise || delay > c.lockTimeout then Refuse(Throttled)
      else Proceed(now + delay)
  }
}
