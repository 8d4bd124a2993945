/**
 * Per-item expiry options of the expiring cache (pkg/cache/options.go).
 * Each Go `Option` is a closure over an `*options`; here an option is a value
 * and `Run` is what calling its closure does. Closures that read the clock
 * receive it as `now`.
 */
module CacheOptions {
  import opened Clock

  /** The settings an option writes into: only the absolute deadline. */
  datatype Options = Options(validUntil: Time)

  /** `WithTTL(d)` and `WithValidUntil(t)`, the two option constructors. */
  datatype ExpiryOption = WithTTL(ttl: Duration) | WithValidUntil(validUntil: Time)

  /**
   * Calling one option's closure on `o`. In `WithTTL` the branch for a
   * non-positive duration writes the zero time, and the assignment that
   * follows it unconditionally overwrites that with `now + ttl`.
   */
  function Run(opt: ExpiryOption, o: Options, now: Time): (r: Options)
    ensures opt.WithTTL? ==> r.validUntil == now + opt.ttl
    ensures opt.WithValidUntil? ==> r.validUntil == opt.validUntil
  {
    match opt
    case WithTTL(ttl) =>
      var zeroed := if ttl <= 0 then o.(validUntil := Zero) else o;
      zeroed.(validUntil := Add(now, ttl))
    case WithValidUntil(t) =>
      o.(validUntil := t)
  }

  /** The deadline an option imposes, whatever the incoming options were. */
  function Deadline(opt: ExpiryOption, now: Time): Time {
    match opt
    case WithTTL(ttl) => now + ttl
    case WithValidUntil(t) => t
  }

  /** The options after running `opts` left to right on `o` (the specification of `apply`). */
  function Resolve(o: Options, opts: seq<ExpiryOption>, now: Time): Options
    decreases |opts|
  {
    if opts == [] then o
    else Run(opts[|opts| - 1], Resolve(o, opts[..|opts| - 1], now), now)
  }

  /** Options run in order, so the last expiry option alone decides the deadline. */
  lemma {:induction false} LastOptionWins(o: Options, opts: seq<ExpiryOption>, now: Time)
    ensures opts == [] ==> Resolve(o, opts, now) == o
    ensures opts != [] ==> Resolve(o, opts, now).validUntil == Deadline(opts[|opts| - 1], now)
  {
  }

  /** Options that end with `WithValidUntil(t)` give exactly `t`, whatever came before. */
  lemma {:induction false} ValidUntilIsExact(o: Options, opts: seq<ExpiryOption>, t: Time, now: Time)
    ensures Resolve(o, opts + [WithValidUntil(t)], now).validUntil == t
  {
    var all := opts + [WithValidUntil(t)];
    assert all[..|all| - 1] == opts;
  }

  /** `apply`: runs the option closures on `o` in order and returns it. */
  method Apply(o: Options, opts: seq<ExpiryOption>, now: Time) returns (r: Options)
    ensures opts == [] ==> r == o
    ensures opts != [] ==> r.validUntil == Deadline(opts[|opts| - 1], now)
    ensures r == Resolve(o, opts, now)
  {
    r := o;
    for i := 0 to |opts|
      invariant r == Resolve(o, opts[..i], now)
    {
      assert opts[..i + 1][..i] == opts[..i];
      r := Run(opts[i], r, now);
    }
    assert opts[..|opts|] == opts;
    LastOptionWins(o, opts, now);
  }

  /**
   * `WithTTL` as its zeroing branch evidently intends (a `return` after it):
   * a non-positive duration leaves the item without a deadline.
   */
  function RunIntended(opt: ExpiryOption, o: Options, now: Time): (r: Options)
    ensures opt.WithTTL? && opt.ttl <= 0 ==> IsZero(r.validUntil)
    ensures opt.WithTTL? && opt.ttl > 0 ==> r.validUntil == now + opt.ttl
    ensures opt.WithValidUntil? ==> r == Run(opt, o, now)
  {
    match opt
    case WithTTL(ttl) =>
      if ttl <= 0 then o.(validUntil := Zero) else o.(validUntil := Add(now, ttl))
    case WithValidUntil(t) =>
      o.(validUntil := t)
  }
}
