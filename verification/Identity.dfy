/**
 The deterministic record identities of the auto-iteration loop. The source names a
 record by a digest of `loop NUL iteration NUL kind`; here SHA-256 is symbolic, so two
 digests agree exactly when their preimages do, and an `Id` keeps the three parts apart.
 `NamesAreFaithful` is what allows the other modules to work with the parts.
 */
module Identity {
  datatype Digest = Sha256(preimage: string)

  datatype Id =
    | External(name: string)
    | Stable(kind: string, loop: string, iteration: nat)

  const NUL: char := '\0'

  function Digit(d: nat): (c: char)
    requires d < 10
    ensures c != NUL
  {
    "0123456789"[d]
  }

  function Decimal(n: nat): (s: string)
    ensures |s| > 0 && NUL !in s
  {
    if n < 10 then [Digit(n)] else Decimal(n / 10) + [Digit(n % 10)]
  }

  lemma DigitInjective(d: nat, e: nat)
    requires d < 10 && e < 10 && Digit(d) == Digit(e)
    ensures d == e
  {
    assert forall a: nat, b: nat | a < b < 10 :: "0123456789"[a] != "0123456789"[b];
  }

  lemma {:induction false} DecimalInjective(m: nat, n: nat)
    requires Decimal(m) == Decimal(n)
    ensures m == n
  {
    var s, t := Decimal(m), Decimal(n);
    assert s[|s| - 1] == Digit(m % 10) && t[|t| - 1] == Digit(n % 10);
    DigitInjective(m % 10, n % 10);
    if m >= 10 && n >= 10 {
      assert s[..|s| - 1] == Decimal(m / 10) && t[..|t| - 1] == Decimal(n / 10);
      DecimalInjective(m / 10, n / 10);
    }
    assert (m >= 10 <==> |s| >= 2) && (n >= 10 <==> |t| >= 2);
  }

  /** A NUL-free head is recovered from `head NUL tail`. */
  lemma {:induction false} SplitAtNul(a: string, x: string, b: string, y: string)
    requires NUL !in a && NUL !in b
    requires a + [NUL] + x == b + [NUL] + y
    ensures a == b && x == y
  {
    var s, t := a + [NUL] + x, b + [NUL] + y;
    assert s[|a|] == NUL && t[|b|] == NUL;
    assert a <= s && b <= t;
    assert |a| == |b|;
    assert a == s[..|a|] && b == t[..|b|];
    assert x == s[|a| + 1..] && y == t[|b| + 1..];
  }

  function Preimage(loop: string, iteration: nat, kind: string): string {
    loop + [NUL] + (Decimal(iteration) + [NUL] + kind)
  }

  /** The name the source gives to a derived record: `auto-kind-digest`. */
  function Name(id: Id): (string, Digest)
    requires id.Stable?
  {
    ("auto-" + id.kind, Sha256(Preimage(id.loop, id.iteration, id.kind)))
  }

  /** Loop ids contain no NUL (their pattern excludes it), so equal names mean equal parts. */
  lemma NamesAreFaithful(a: Id, b: Id)
    requires a.Stable? && b.Stable? && NUL !in a.loop && NUL !in b.loop
    ensures Name(a) == Name(b) <==> a == b
  {
    if Name(a) == Name(b) {
      SplitAtNul(a.loop, Decimal(a.iteration) + [NUL] + a.kind, b.loop, Decimal(b.iteration) + [NUL] + b.kind);
      SplitAtNul(Decimal(a.iteration), a.kind, Decimal(b.iteration), b.kind);
      DecimalInjective(a.iteration, b.iteration);
    }
  }

  /**
   The separator is what carries this: joined without it, loop `a` at iteration 11 and
   loop `a1` at iteration 1 would share every record.
   */
  lemma WithoutSeparatorCollides()
    ensures "a" + Decimal(11) == "a1" + Decimal(1)
    ensures Name(Stable("review", "a", 11)) != Name(Stable("review", "a1", 1))
  {
    assert Decimal(11) == Decimal(1) + Decimal(1);
    assert Decimal(1) == "1";
    NamesAreFaithful(Stable("review", "a", 11), Stable("review", "a1", 1));
  }
}
