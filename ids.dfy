/**
 * Record identifiers: a type prefix followed by the clock reading in
 * milliseconds written in base 36 and upper-cased
 * (`'SOL-' + Date.now().toString(36).toUpperCase()`). The clock reading is an
 * input of every operation that creates a record.
 */
module Ids {

  /** The upper-case base-36 digit for `d`. */
  function Digit36(d: nat): (c: char)
    requires d < 36
    ensures '0' <= c <= '9' || 'A' <= c <= 'Z'
  {
    if d < 10 then ('0' as int + d) as char else ('A' as int + d - 10) as char
  }

  lemma Digit36Injective(a: nat, b: nat)
    requires a < 36 && b < 36
    requires Digit36(a) == Digit36(b)
    ensures a == b
  {
  }

  /** `n.toString(36).toUpperCase()`. */
  function Base36(n: nat): (s: string)
    ensures |s| >= 1
    ensures n >= 36 <==> |s| >= 2
    ensures forall i :: 0 <= i < |s| ==> '0' <= s[i] <= '9' || 'A' <= s[i] <= 'Z'
    decreases n
  {
    if n < 36 then [Digit36(n)] else Base36(n / 36) + [Digit36(n % 36)]
  }

  /** Distinct clock readings give distinct base-36 numerals. */
  lemma {:induction false} Base36Injective(a: nat, b: nat)
    requires Base36(a) == Base36(b)
    ensures a == b
    decreases a
  {
    var s := Base36(a);
    if a < 36 {
      Digit36Injective(a, b);
    } else {
      assert b >= 36;
      assert s[|s| - 1] == Digit36(a % 36) && Base36(b)[|s| - 1] == Digit36(b % 36);
      Digit36Injective(a % 36, b % 36);
      assert Base36(a / 36) == s[..|s| - 1] == Base36(b / 36);
      Base36Injective(a / 36, b / 36);
    }
  }

  /** The identifier the store generates for a record made at clock reading `now`. */
  function NewId(prefix: string, now: nat): (r: string)
    ensures |r| > |prefix| && r[..|prefix|] == prefix
    ensures forall i :: |prefix| <= i < |r| ==> '0' <= r[i] <= '9' || 'A' <= r[i] <= 'Z'
  {
    prefix + Base36(now)
  }

  /** Two records of one type get the same identifier exactly when made in the same millisecond. */
  lemma NewIdInjective(prefix: string, a: nat, b: nat)
    ensures NewId(prefix, a) == NewId(prefix, b) <==> a == b
  {
    if NewId(prefix, a) == NewId(prefix, b) {
      assert Base36(a) == NewId(prefix, a)[|prefix|..];
      assert Base36(b) == NewId(prefix, b)[|prefix|..];
      Base36Injective(a, b);
    }
  }
}
