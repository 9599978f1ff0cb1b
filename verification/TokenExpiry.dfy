/** The expiry arithmetic of `Exchange` in src/salesforce_oauth_provider.cpp. */
module TokenExpiry {
  import opened Wrappers

  const MAX_64: uint64 := 0xFFFF_FFFF_FFFF_FFFF
  const MAX_INT_64: uint64 := 0x7FFF_FFFF_FFFF_FFFF

  newtype int64 = x: int | -0x8000_0000_0000_0000 <= x < 0x8000_0000_0000_0000

  datatype Expiry = Expiry(monotonicMs: uint64, utcMicros: int64)

  /** The capability expires `ttl - skew` seconds from now on both clocks. It is refused exactly
      when it is already within the skew, or when one of the two instants cannot be represented;
      no intermediate result wraps. */
  method ExpiryOf(ttlSeconds: uint64, skewSeconds: uint64, nowMs: uint64, nowUtc: int64) returns (r: Option<Expiry>)
    ensures r.Some? <==>
            var seconds := ttlSeconds as int - skewSeconds as int;
            && seconds > 0 && nowUtc >= 0
            && nowMs as int + 1000 * seconds <= MAX_64 as int && nowUtc as int + 1000000 * seconds <= MAX_INT_64 as int
    ensures r.Some? ==>
              var seconds := ttlSeconds as int - skewSeconds as int;
              && r.value.monotonicMs as int == nowMs as int + 1000 * seconds
              && r.value.utcMicros as int == nowUtc as int + 1000000 * seconds
  {
    if ttlSeconds <= skewSeconds { return None; }
    var effective := ttlSeconds - skewSeconds;
    if effective > MAX_64 / 1000 || nowMs > MAX_64 - effective * 1000 { return None; }
    if nowUtc < 0 { return None; }
    if effective > (MAX_INT_64 - nowUtc as uint64) / 1000000 { return None; }
    return Some(Expiry(nowMs + effective * 1000, nowUtc + (effective * 1000000) as int64));
  }
}
