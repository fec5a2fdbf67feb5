/** Bundle versions: dotted numeric version strings ("3.0.12") as sequences of
    their numeric parts, ordered the way PHP's version_compare orders them
    when no part carries a pre-release tag. */
module Versions {

  type Version = seq<nat>

  /** a comes strictly before b: the first differing part decides; when one
      version is a proper prefix of the other, the shorter one is older
      ("1.0" comes before "1.0.0"). */
  predicate Older(a: Version, b: Version)
  {
    if a == [] then b != []
    else if b == [] then false
    else a[0] < b[0] || (a[0] == b[0] && Older(a[1..], b[1..]))
  }

  /** version_compare(a, b, '>') */
  predicate Newer(a: Version, b: Version)
  {
    Older(b, a)
  }

  lemma {:induction false} OlderIrreflexive(a: Version)
    ensures !Older(a, a)
  {
    if a != [] {
      OlderIrreflexive(a[1..]);
    }
  }

  lemma {:induction false} OlderAsymmetric(a: Version, b: Version)
    requires Older(a, b)
    ensures !Older(b, a)
  {
    if a != [] && b != [] && a[0] == b[0] {
      OlderAsymmetric(a[1..], b[1..]);
    }
  }

  lemma {:induction false} OlderTransitive(a: Version, b: Version, c: Version)
    requires Older(a, b) && Older(b, c)
    ensures Older(a, c)
  {
    if a != [] && a[0] == b[0] && b[0] == c[0] {
      OlderTransitive(a[1..], b[1..], c[1..]);
    }
  }

  /** Any two distinct versions are ordered one way or the other. */
  lemma {:induction false} OlderTotal(a: Version, b: Version)
    requires a != b
    ensures Older(a, b) || Older(b, a)
  {
    if a != [] && b != [] && a[0] == b[0] {
      assert a == [a[0]] + a[1..] && b == [b[0]] + b[1..];
      OlderTotal(a[1..], b[1..]);
    }
  }

  /** The gate of the config sync is exactly "strictly newer": an equal or
      older config version never triggers it, a distinct non-older one does. */
  lemma NewerGate(config: Version, stored: Version)
    ensures Newer(config, stored) <==> (config != stored && !Older(config, stored))
  {
    if config == stored {
      OlderIrreflexive(config);
    } else if Newer(config, stored) {
      OlderAsymmetric(stored, config);
    } else {
      OlderTotal(config, stored);
    }
  }
}
