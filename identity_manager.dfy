/**
 * `IdentityManager.areCredentialsExpired`, with the credentials' expiration
 * date, the clock (`System.currentTimeMillis()`) and the SDK's global time offset
 * (`SDKGlobalConfiguration.getGlobalTimeOffset()`, whole seconds) as inputs.
 * Java's `int` and `long` arithmetic wraps around; it is written out here.
 */
module IdentityManager {
  import opened Wrappers

  /** Java `int` and `long` values. */
  type Int32 = x: int | -0x8000_0000 <= x < 0x8000_0000
  type Int64 = x: int | -0x8000_0000_0000_0000 <= x < 0x8000_0000_0000_0000

  /** The result of an `int` operation whose exact value is `x`: reduced by whole periods of 2^32 into range. */
  function WrapInt32(x: int): (r: Int32)
    ensures -0x8000_0000 <= x < 0x8000_0000 ==> r == x
    decreases if x < -0x8000_0000 then -x else if x >= 0x8000_0000 then x else 0
  {
    if x < -0x8000_0000 then WrapInt32(x + 0x1_0000_0000)
    else if x >= 0x8000_0000 then WrapInt32(x - 0x1_0000_0000)
    else x
  }

  /** The result of a `long` operation whose exact value is `x`: reduced by whole periods of 2^64 into range. */
  function WrapInt64(x: int): (r: Int64)
    ensures -0x8000_0000_0000_0000 <= x < 0x8000_0000_0000_0000 ==> r == x
    decreases if x < -0x8000_0000_0000_0000 then -x else if x >= 0x8000_0000_0000_0000 then x else 0
  {
    if x < -0x8000_0000_0000_0000 then WrapInt64(x + 0x1_0000_0000_0000_0000)
    else if x >= 0x8000_0000_0000_0000 then WrapInt64(x - 0x1_0000_0000_0000_0000)
    else x
  }

  /**
   * The method as written: `(long)(getGlobalTimeOffset() * 1000)` multiplies in
   * `int` and only then widens, so the product wraps once the offset exceeds
   * 2147483 seconds (about 24.8 days) in either direction.
   */
  function AreCredentialsExpiredAsWritten(expiration: Option<Int64>, now: Int64, offset: Int32): (expired: bool)
    ensures expiration.None? ==> expired
    ensures expiration.Some? && Plausible(expiration.value) && Plausible(now) ==>
              (expired <==> expiration.value < now - WrapInt32(offset * 1000))
  {
    if expiration.None? then true
    else
      var currentTime := WrapInt64(now - WrapInt32(offset * 1000));
      WrapInt64(expiration.value - currentTime) < 0
  }

  /** A millisecond timestamp within about 73 million years of the epoch. */
  predicate Plausible(t: int) {
    -0x2000_0000_0000_0000 <= t < 0x2000_0000_0000_0000
  }

  /**
   * The method as intended, with the offset widened before the multiplication
   * (`(long) getGlobalTimeOffset() * 1000`): a missing expiration is expired;
   * otherwise the credentials are expired exactly when the expiration lies
   * strictly before the offset-corrected clock.
   */
  function AreCredentialsExpired(expiration: Option<Int64>, now: Int64, offset: Int32): (expired: bool)
    ensures expiration.None? ==> expired
    ensures expiration.Some? && Plausible(expiration.value) && Plausible(now) ==>
              (expired <==> expiration.value < now - offset * 1000)
  {
    if expiration.None? then true
    else
      var currentTime := WrapInt64(now - offset * 1000);
      WrapInt64(expiration.value - currentTime) < 0
  }

  /** The comparison is strict: an expiration equal to the corrected clock is not expired. */
  lemma NotExpiredAtBoundary(now: Int64, offset: Int32)
    requires Plausible(now)
    ensures !AreCredentialsExpired(Some(now - offset * 1000), now, offset)
  {
  }

  /** Once expired, the credentials stay expired as the clock advances. */
  lemma ExpiryMonotoneInTime(expiration: Option<Int64>, now: Int64, later: Int64, offset: Int32)
    requires expiration.Some? ==> Plausible(expiration.value)
    requires Plausible(now) && Plausible(later) && now <= later
    requires AreCredentialsExpired(expiration, now, offset)
    ensures AreCredentialsExpired(expiration, later, offset)
  {
  }

  /** A larger offset moves the corrected clock back, so what was not expired stays not expired. */
  lemma ExpiryMonotoneInOffset(expiration: Option<Int64>, now: Int64, offset: Int32, larger: Int32)
    requires expiration.Some? ==> Plausible(expiration.value)
    requires Plausible(now) && offset <= larger
    requires !AreCredentialsExpired(expiration, now, offset)
    ensures !AreCredentialsExpired(expiration, now, larger)
  {
  }

  /** While the offset times 1000 fits in an `int`, the code as written computes the intended result. */
  lemma AsWrittenAgreesWithoutIntOverflow(expiration: Option<Int64>, now: Int64, offset: Int32)
    requires -2147483 <= offset <= 2147483
    ensures AreCredentialsExpiredAsWritten(expiration, now, offset) == AreCredentialsExpired(expiration, now, offset)
  {
  }

  /**
   * The overflow: with credentials expiring right now, an offset of 2147483 s
   * leaves them valid, while the larger offset 2147484 s, whose product wraps to
   * -2147483296, reports them expired; the intended computation keeps them valid.
   */
  lemma AsWrittenOffsetOverflow()
    ensures !AreCredentialsExpiredAsWritten(Some(1_700_000_000_000), 1_700_000_000_000, 2147483)
    ensures AreCredentialsExpiredAsWritten(Some(1_700_000_000_000), 1_700_000_000_000, 2147484)
    ensures !AreCredentialsExpired(Some(1_700_000_000_000), 1_700_000_000_000, 2147484)
  {
  }

  /** `WrapInt32(x)` differs from `x` by a whole number of 2^32 periods. */
  lemma {:induction false} WrapInt32Congruent(x: int)
    ensures (x - WrapInt32(x)) % 0x1_0000_0000 == 0
    decreases if x < -0x8000_0000 then -x else if x >= 0x8000_0000 then x else 0
  {
    if x < -0x8000_0000 {
      WrapInt32Congruent(x + 0x1_0000_0000);
    } else if x >= 0x8000_0000 {
      WrapInt32Congruent(x - 0x1_0000_0000);
    }
  }

  /** `WrapInt64(x)` differs from `x` by a whole number of 2^64 periods. */
  lemma {:induction false} WrapInt64Congruent(x: int)
    ensures (x - WrapInt64(x)) % 0x1_0000_0000_0000_0000 == 0
    decreases if x < -0x8000_0000_0000_0000 then -x else if x >= 0x8000_0000_0000_0000 then x else 0
  {
    if x < -0x8000_0000_0000_0000 {
      WrapInt64Congruent(x + 0x1_0000_0000_0000_0000);
    } else if x >= 0x8000_0000_0000_0000 {
      WrapInt64Congruent(x - 0x1_0000_0000_0000_0000);
    }
  }
}
