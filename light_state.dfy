/** The four-state Mealy machine of the LED controller task. */
module LightState {
  import opened Types

  const S0: u8 := 0
  const S1: u8 := 1
  const S2: u8 := 2
  const S3: u8 := 3

  predicate IsState(s: u8)
  {
    s <= S3
  }

  /** The transition of the state machine: S0 -> S1 -> S2 -> S3 -> S0; any other value resets to S0. */
  function NextState(s: u8): (r: u8)
    ensures IsState(r)
    ensures IsState(s) ==> r as int == (s as int + 1) % 4
    ensures !IsState(s) ==> r == S0
  {
    if s == S0 then S1
    else if s == S1 then S2
    else if s == S2 then S3
    else if s == S3 then S0
    else S0
  }

  /** The state after `n` transitions from `s`. */
  function Advance(s: u8, n: nat): u8
  {
    if n == 0 then s else NextState(Advance(s, n - 1))
  }

  /** From a valid state the machine counts modulo 4. */
  lemma {:induction false} AdvanceValid(s: u8, n: nat)
    requires IsState(s)
    ensures Advance(s, n) as int == (s as int + n) % 4
  {
    if n > 0 {
      AdvanceValid(s, n - 1);
    }
  }

  /** From an out-of-range value the first transition gives S0, and counting starts from there. */
  lemma {:induction false} AdvanceInvalid(s: u8, n: nat)
    requires !IsState(s) && n > 0
    ensures Advance(s, n) as int == (n - 1) % 4
  {
    if n > 1 {
      AdvanceInvalid(s, n - 1);
    }
  }

  /** Four transitions bring a valid state back to itself. */
  lemma {:induction false} FourStepsRestore(s: u8, k: nat)
    requires IsState(s)
    ensures Advance(s, 4 * k) == s
  {
    AdvanceValid(s, 4 * k);
  }
}
