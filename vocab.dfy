/** Vocabulary sizes of the duration and pitch streams, and the +1 shift
    that keeps class 0 free for padding (SupervoiceGPT.__init__). */
module Vocab {

  /** A raw duration or pitch value as it is stored in the output history:
      a non-negative value never lands on the padding class 0. */
  function Shift(v: int): (c: int)
    ensures c >= 1 <==> v >= 0
  {
    v + 1
  }

  /** A sampled duration or pitch class as it is reported in the output. */
  function Unshift(c: int): (v: int)
    ensures Shift(v) == c
  {
    c - 1
  }

  /** Number of duration classes: durations 0..maxDuration, shifted by one,
      plus the padding class 0. Every shifted duration is a class other than
      padding, and every non-padding class is a shifted duration. */
  function NumDurations(maxDuration: nat): (n: nat)
    ensures forall d :: 0 <= d <= maxDuration <==> 0 < Shift(d) < n
    ensures forall c :: 0 < c < n <==> 0 <= Unshift(c) <= maxDuration
  {
    (maxDuration + 1) + 1
  }

  /** Number of pitch classes: style tokens 0..styleTokens-1, shifted by
      one, plus the padding class 0. */
  function NumPitches(styleTokens: nat): (n: nat)
    ensures n >= 1
    ensures forall p :: 0 <= p < styleTokens <==> 0 < Shift(p) < n
    ensures forall c :: 0 < c < n <==> 0 <= Unshift(c) < styleTokens
  {
    styleTokens + 1
  }
}
