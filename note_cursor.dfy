/** The cyclic note-number cursor advanced by every trigger. */
module NoteCursor {

  /** Note number the cursor starts at and wraps back to. */
  const LOWEST: int := 21

  /** Highest note number the cursor reaches. */
  const HIGHEST: int := 108

  /** Number of distinct notes the cursor visits. */
  const PERIOD: nat := 88

  predicate InRange(n: int) {
    LOWEST <= n <= HIGHEST
  }

  /** The cursor after one trigger: incremented, and reset to LOWEST once it
      exceeds HIGHEST. */
  function NextNote(n: int): (m: int)
    ensures InRange(n) ==> InRange(m)
  {
    if n + 1 > HIGHEST then LOWEST else n + 1
  }

  /** The cursor after `k` triggers starting from `n`. */
  function Advance(n: int, k: nat): (m: int)
    ensures InRange(n) ==> InRange(m)
  {
    if k == 0 then n else NextNote(Advance(n, k - 1))
  }

  /** Inside the range, one step moves to the next note, except that
      HIGHEST is followed by LOWEST. */
  lemma NextNoteSteps(n: int)
    requires InRange(n)
    ensures n < HIGHEST ==> NextNote(n) == n + 1
    ensures NextNote(HIGHEST) == LOWEST
    ensures NextNote(n) - LOWEST == (n - LOWEST + 1) % PERIOD
  {
  }

  /** From a note in range, `k` triggers land on note
      LOWEST + (n - LOWEST + k) mod PERIOD. */
  lemma {:induction false} AdvanceClosedForm(n: int, k: nat)
    requires InRange(n)
    ensures Advance(n, k) == LOWEST + (n - LOWEST + k) % PERIOD
  {
    if k > 0 {
      AdvanceClosedForm(n, k - 1);
      var d := (n - LOWEST + k - 1) % PERIOD;
      NextNoteSteps(LOWEST + d);
      ModSucc(n - LOWEST + k - 1);
    }
  }

  lemma ModSucc(a: int)
    ensures (a + 1) % PERIOD == ((a % PERIOD) + 1) % PERIOD
  {
    var q := a / PERIOD;
    assert a == q * PERIOD + a % PERIOD;
    assert a + 1 == q * PERIOD + (a % PERIOD + 1);
    ModShift(q, a % PERIOD + 1);
  }

  lemma ModShift(q: int, r: int)
    ensures (q * PERIOD + r) % PERIOD == r % PERIOD
  {
  }

  /** The cursor is back where it started after `k` triggers exactly when
      `k` is a multiple of PERIOD; in particular after 88. */
  lemma AdvanceReturnsIff(n: int, k: nat)
    requires InRange(n)
    ensures Advance(n, k) == n <==> k % PERIOD == 0
  {
    AdvanceClosedForm(n, k);
    var d := n - LOWEST;
    assert 0 <= d < PERIOD;
    ModShift(k / PERIOD, d + k % PERIOD);
    assert d + k == (k / PERIOD) * PERIOD + (d + k % PERIOD);
    if k % PERIOD == 0 {
      assert (d + k) % PERIOD == d % PERIOD;
    } else {
      var r := k % PERIOD;
      assert 0 < r < PERIOD;
      if d + r < PERIOD {
        assert (d + r) % PERIOD == d + r;
      } else {
        ModShift(1, d + r - PERIOD);
        assert (d + r) % PERIOD == d + r - PERIOD;
      }
    }
  }
}
