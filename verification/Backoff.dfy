/** Retry delays between rounds, in nanoseconds as `time.Duration` counts them. */
module Backoff {
  import opened Payload

  const MAX_INT64 := 0x7FFF_FFFF_FFFF_FFFF

  function Min(a: int, b: int): int { if a <= b then a else b }

  function Doubling(k: nat): nat { if k == 0 then 1 else 2 * Doubling(k - 1) }

  /** The delay before jitter: one minute doubled per round, at most an hour. */
  function Base(rounds: int): int
    requires rounds >= 1
  {
    Min(MINUTE * Doubling(Min(rounds - 1, 6)), HOUR)
  }

  function Jitter(word: Word, base: int): int { word as int % 1001 * base / 10000 }

  function SpoolDelay(word: Word, rounds: int): int
    requires rounds >= 1
  {
    Min(Base(rounds) + Jitter(word, Base(rounds)), HOUR)
  }

  lemma DoublingValues()
    ensures Doubling(0) == 1 && Doubling(1) == 2 && Doubling(2) == 4 && Doubling(3) == 8
    ensures Doubling(4) == 16 && Doubling(5) == 32 && Doubling(6) == 64
  {
    assert Doubling(3) == 2 * Doubling(2);
    assert Doubling(5) == 2 * Doubling(4);
  }

  lemma BaseValues(rounds: int)
    requires rounds >= 1
    ensures Base(rounds) == (if rounds == 1 then 1 else if rounds == 2 then 2 else if rounds == 3 then 4
                             else if rounds == 4 then 8 else if rounds == 5 then 16 else if rounds == 6 then 32 else 60) * MINUTE
  {
    DoublingValues();
    if rounds >= 7 { assert Min(rounds - 1, 6) == 6; }
  }

  lemma Scaled(w: int, base: int)
    requires 0 <= w <= 1000 && 0 <= base
    ensures 0 <= w * base <= 1000 * base
  {
  }

  lemma TenThousandth(x: int, base: int)
    requires 0 <= x <= 1000 * base
    ensures 0 <= x / 10000 && 10 * (x / 10000) <= base
  {
  }

  lemma JitterBounds(word: Word, base: int)
    requires 0 <= base <= HOUR
    ensures 0 <= Jitter(word, base) && 10 * Jitter(word, base) <= base
    ensures word as int % 1001 * base <= MAX_INT64
  {
    var w := word as int % 1001;
    Scaled(w, base);
    TenThousandth(w * base, base);
  }

  /** The delay stays between one minute and one hour, the jitter within a tenth, all inside int64. */
  lemma DelayBounds(word: Word, rounds: int)
    requires rounds >= 1
    ensures MINUTE <= SpoolDelay(word, rounds) <= HOUR
    ensures Base(rounds) <= SpoolDelay(word, rounds) && 10 * (SpoolDelay(word, rounds) - Base(rounds)) <= Base(rounds)
    ensures MINUTE * Doubling(Min(rounds - 1, 6)) <= MAX_INT64 && word as int % 1001 * Base(rounds) <= MAX_INT64
  {
    BaseValues(rounds);
    DoublingValues();
    JitterBounds(word, Base(rounds));
    if rounds >= 7 { assert Min(rounds - 1, 6) == 6; }
  }

  /** Whatever jitter two rounds draw, a later round never waits less. */
  lemma DelaysNeverDecrease(earlier: Word, later: Word, a: int, b: int)
    requires 1 <= a < b
    ensures SpoolDelay(earlier, a) <= SpoolDelay(later, b)
  {
    BaseValues(a);
    BaseValues(b);
    DelayBounds(earlier, a);
    DelayBounds(later, b);
  }

  /** Total wait after rounds 1..rounds when round i draws words[i - 1]. */
  function TotalWait(words: seq<Word>, rounds: nat): int
    requires rounds <= |words|
  {
    if rounds == 0 then 0 else TotalWait(words, rounds - 1) + SpoolDelay(words[rounds - 1], rounds)
  }

  function TotalBase(rounds: nat): int {
    if rounds == 0 then 0 else TotalBase(rounds - 1) + Base(rounds)
  }

  lemma {:induction false} TotalWaitBounds(words: seq<Word>, rounds: nat)
    requires rounds <= |words|
    ensures TotalBase(rounds) <= TotalWait(words, rounds)
    ensures 10 * TotalWait(words, rounds) <= 11 * TotalBase(Min(rounds, 6)) + 10 * (TotalBase(rounds) - TotalBase(Min(rounds, 6)))
  {
    if rounds > 0 {
      TotalWaitBounds(words, rounds - 1);
      DelayBounds(words[rounds - 1], rounds);
      BaseValues(rounds);
      if rounds > 6 { assert Min(rounds, 6) == Min(rounds - 1, 6) == 6; }
    }
  }

  /** The eleven waits of a full twelve-round budget add up to 363 to 370 minutes, well inside the one-day window. */
  lemma BudgetWindow(words: seq<Word>)
    requires |words| == 11
    ensures 363 * MINUTE <= TotalWait(words, 11) <= 370 * MINUTE < DAY
  {
    TotalWaitBounds(words, 11);
    BaseSums();
  }

  lemma BaseSums()
    ensures TotalBase(6) == 63 * MINUTE && TotalBase(11) == 363 * MINUTE
  {
    BaseValues(1); BaseValues(2); BaseValues(3); BaseValues(4); BaseValues(5); BaseValues(6);
    assert TotalBase(2) == TotalBase(1) + Base(2);
    assert TotalBase(4) == TotalBase(3) + Base(4);
    assert TotalBase(6) == TotalBase(5) + Base(6);
    BaseValues(7); BaseValues(8); BaseValues(9); BaseValues(10); BaseValues(11);
    assert TotalBase(8) == TotalBase(7) + Base(8);
    assert TotalBase(10) == TotalBase(9) + Base(10);
  }
}
