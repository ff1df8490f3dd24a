/**
 * Upstream next-funding times arrive in seconds or in milliseconds; values
 * below 10^12 are read as seconds. Backpack and Extended convert only
 * positive values; dYdX converts every value below the threshold.
 */
module Timestamps {
  /** 10^12: in milliseconds, 2001-09-09; in seconds, far beyond any date. */
  const Threshold: real := 1000000000000.0

  /** `if (t > 0 && t < 1e12) t *= 1000`. */
  function FromPositiveSeconds(t: real): (r: real)
    ensures 0.0 < t < Threshold ==> r == t * 1000.0
    ensures t <= 0.0 || t >= Threshold ==> r == t
  {
    if t > 0.0 && t < Threshold then t * 1000.0 else t
  }

  /** `t < 1e12 ? t * 1000 : t`. */
  function FromSeconds(t: real): (r: real)
    ensures t < Threshold ==> r == t * 1000.0
    ensures t >= Threshold ==> r == t
  {
    if t < Threshold then t * 1000.0 else t
  }

  /** A time given in milliseconds, or the same time in seconds, converts to the same milliseconds. */
  lemma SecondsAndMillisAgree(ms: real)
    requires Threshold <= ms < Threshold * 1000.0
    ensures FromPositiveSeconds(ms) == ms && FromPositiveSeconds(ms / 1000.0) == ms
    ensures FromSeconds(ms) == ms && FromSeconds(ms / 1000.0) == ms
  {
  }

  /** Converting again changes nothing once the value is a millisecond time. */
  lemma ConversionSettles(t: real)
    requires t >= Threshold / 1000.0
    ensures FromPositiveSeconds(FromPositiveSeconds(t)) == FromPositiveSeconds(t)
    ensures FromSeconds(FromSeconds(t)) == FromSeconds(t)
  {
  }

  /** The two conversions disagree exactly on negative inputs. */
  lemma ConversionsDisagreeOnNegatives(t: real)
    ensures FromSeconds(t) != FromPositiveSeconds(t) <==> t < 0.0
  {
  }
}
