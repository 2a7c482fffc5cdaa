/** Container names: fmt.Sprintf("talos-%s-%d", app, deployID) for a staging container and
    fmt.Sprintf("talos-%s", app) for an app whose live container was never recorded. */
module Names {
  import opened Text

  function StagingName(app: string, id: nat): string
  {
    "talos-" + app + "-" + Decimal(id)
  }

  function DefaultName(app: string): string
  {
    "talos-" + app
  }

  /** A staging name is the default name, a dash and the id of the deploy in decimal. */
  lemma StagingExtendsDefault(app: string, id: nat)
    ensures DefaultName(app) == "talos-" + app
    ensures exists digits :: StagingName(app, id) == DefaultName(app) + "-" + digits && Numeral(digits) == id
  {
    DecimalDenotes(id);
    assert StagingName(app, id) == DefaultName(app) + "-" + Decimal(id);
  }

  lemma {:induction false} LastDash(a: string, b: string, x: string, y: string)
    requires a + "-" + x == b + "-" + y
    requires '-' !in x && '-' !in y
    ensures a == b && x == y
  {
    var s := a + "-" + x;
    assert s[|a|] == '-' && s[|b|] == '-';
    assert forall k :: |a| < k < |s| ==> s[k] == x[k - |a| - 1];
    assert forall k :: |b| < k < |s| ==> s[k] == y[k - |b| - 1];
    assert |a| == |b|;
    assert a == s[..|a|] == b;
    assert x == s[|a| + 1..] == y;
  }

  /** Distinct deploys never share a staging container, whatever dashes and digits the
      app names contain. */
  lemma StagingNameInjective(a: string, i: nat, b: string, j: nat)
    requires StagingName(a, i) == StagingName(b, j)
    ensures a == b && i == j
  {
    var p, q := "talos-" + a, "talos-" + b;
    LastDash(p, q, Decimal(i), Decimal(j));
    assert a == p[6..] && b == q[6..];
    DecimalInjective(i, j);
  }

  /** The fallback live name of one app is the staging name of another exactly when the
      first app is called after the second with a dash and a deploy number. */
  lemma DefaultNameCollision(a: string, b: string, j: nat)
    ensures DefaultName(a) == StagingName(b, j) <==> a == b + "-" + Decimal(j)
  {
    var tail := b + "-" + Decimal(j);
    assert StagingName(b, j) == "talos-" + tail;
    assert ("talos-" + a)[6..] == a && ("talos-" + tail)[6..] == tail;
  }

  /** Within one app the two never meet. */
  lemma DefaultIsNotStaged(a: string, j: nat)
    ensures DefaultName(a) != StagingName(a, j)
  {
    DefaultNameCollision(a, a, j);
    assert |a + "-" + Decimal(j)| > |a|;
  }

  lemma DefaultNameInjective(a: string, b: string)
    requires DefaultName(a) == DefaultName(b)
    ensures a == b
  {
    assert DefaultName(a)[6..] == a && DefaultName(b)[6..] == b;
  }
}
