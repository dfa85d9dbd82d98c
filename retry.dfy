/** The schedule of CreateBranch's retry loop.

    `for retry := 10 * time.Millisecond; retry <= 100*time.Millisecond; retry += 10`
    counts a time.Duration, whose unit is the nanosecond: the step `10` is
    10 ns, not 10 ms.  Durations here are integers of nanoseconds. */
module Retry {
  import opened HttpStatus

  const Millisecond: int := 1_000_000
  const FirstDelay: int := 10 * Millisecond
  const LastDelay: int := 100 * Millisecond
  const Step: int := 10

  /** The number of passes the loop header allows. */
  const MaxAttempts: nat := (LastDelay - FirstDelay) / Step + 1

  /** The value of `retry` on attempt k (counting from 0): the time slept
      after that attempt if the service answers Locked. */
  function Delay(k: nat): int {
    FirstDelay + k * Step
  }

  /** The loop runs attempt k exactly when k < MaxAttempts, which is
      9,000,001 attempts, the last one sleeping 100 ms. */
  lemma LoopBound(k: nat)
    ensures Delay(k) <= LastDelay <==> k < MaxAttempts
    ensures MaxAttempts == 9_000_001
    ensures Delay(MaxAttempts - 1) == LastDelay
  {
  }

  /** The first attempt, from attempt k on, that the service does not
      answer with Locked; MaxAttempts if every remaining attempt is Locked. */
  function FirstUnlocked(answer: nat -> int, k: nat): (r: nat)
    requires k <= MaxAttempts
    ensures k <= r <= MaxAttempts
    ensures forall j :: k <= j < r ==> answer(j) == Locked
    ensures r < MaxAttempts ==> answer(r) != Locked
    decreases MaxAttempts - k
  {
    if k == MaxAttempts || answer(k) != Locked then k else FirstUnlocked(answer, k + 1)
  }

  /** If the locks clear at attempt m inside the budget, m is the attempt
      that decides. */
  lemma LockClears(answer: nat -> int, m: nat)
    requires m < MaxAttempts
    requires forall j :: 0 <= j < m ==> answer(j) == Locked
    requires answer(m) != Locked
    ensures FirstUnlocked(answer, 0) == m
  {
  }

  /** The sleeps of the first k attempts, in order. */
  function Delays(k: nat): (r: seq<int>)
    ensures |r| == k
    ensures forall i :: 0 <= i < k ==> r[i] == Delay(i)
  {
    if k == 0 then [] else Delays(k - 1) + [Delay(k - 1)]
  }

  /** Sleeps start at 10 ms, grow by 10 ns each, and never exceed 100 ms. */
  lemma DelaysIncrease(k: nat)
    requires k <= MaxAttempts
    ensures k > 0 ==> Delays(k)[0] == FirstDelay
    ensures forall i :: 0 < i < k ==> Delays(k)[i] == Delays(k)[i - 1] + Step
    ensures forall i :: 0 <= i < k ==> FirstDelay <= Delays(k)[i] <= LastDelay
  {
  }
}
