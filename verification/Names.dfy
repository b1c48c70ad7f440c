/** The strings the operator derives object names from, and when two derivations can meet. */
module Names {

  const FINALIZER_PLATFORM := "ai.splunk.com/aiplatform-protect"
  const FINALIZER_SERVICE := "ai.splunk.com/aiservice-protect"
  const LAST_APPLIED := "kubectl.kubernetes.io/last-applied-configuration"
  const RESTARTED_AT := "kubectl.kubernetes.io/restartedAt"

  function ChildName(platform: string, feature: string): string {
    platform + "-" + feature
  }

  function JobName(service: string): string {
    service + "-vector-db-setup-posthook"
  }

  function DeploymentName(service: string): string {
    service + "-saia-deployment"
  }

  function CertificateName(service: string): string {
    service + "-tls"
  }

  function WeaviateName(platform: string): string {
    platform + "-weaviate"
  }

  predicate HasSuffix(s: string, suffix: string) {
    |suffix| <= |s| && s[|s| - |suffix|..] == suffix
  }

  /** A fixed suffix can be cancelled: names built with it are injective in what precedes it. */
  lemma SuffixInjective(a: string, b: string, suffix: string)
    requires a + suffix == b + suffix
    ensures a == b
  {
    assert |a| == |b|;
    assert (a + suffix)[..|a|] == a && (b + suffix)[..|b|] == b;
  }

  lemma DeploymentNameInjective(a: string, b: string)
    requires DeploymentName(a) == DeploymentName(b)
    ensures a == b
  {
    SuffixInjective(a, b, "-saia-deployment");
  }

  lemma WeaviateNameInjective(a: string, b: string)
    requires WeaviateName(a) == WeaviateName(b)
    ensures a == b
  {
    SuffixInjective(a, b, "-weaviate");
  }

  /** Child names of equally long features determine both parts. */
  lemma ChildNameSameLength(p1: string, f1: string, p2: string, f2: string)
    requires ChildName(p1, f1) == ChildName(p2, f2) && |f1| == |f2|
    ensures p1 == p2 && f1 == f2
  {
    var n := ChildName(p1, f1);
    assert n == p1 + ("-" + f1) && n == p2 + ("-" + f2);
    assert n[|n| - |f1|..] == f1 && n[|n| - |f2|..] == f2;
    assert n[..|p1|] == p1 && n[..|p2|] == p2;
  }

  /** When child names meet, the longer feature ends with a hyphen and the shorter one. */
  lemma LongerFeatureEndsWithShorter(p1: string, f1: string, p2: string, f2: string)
    requires ChildName(p1, f1) == ChildName(p2, f2) && |f1| > |f2|
    ensures HasSuffix(f1, "-" + f2) && '-' in f1
  {
    var n := ChildName(p1, f1);
    assert n == p1 + "-" + f1;
    assert n[|n| - |f1|..] == f1;
    assert n == p2 + ("-" + f2);
    assert n[|n| - |f2| - 1..] == "-" + f2;
    assert f1[|f1| - |f2| - 1..] == n[|n| - |f2| - 1..];
    assert f1[|f1| - |f2| - 1] == ("-" + f2)[0];
  }

  /**
   * Two different platforms can want one child name exactly when one feature name is a
   * hyphenated extension of the other.
   */
  lemma ChildNamesCollideIff(f1: string, f2: string)
    ensures (exists p1: string, p2: string ::
               p1 != p2 && ChildName(p1, f1) == ChildName(p2, f2))
       <==> HasSuffix(f1, "-" + f2) || HasSuffix(f2, "-" + f1)
  {
    if p1: string, p2: string :| p1 != p2 && ChildName(p1, f1) == ChildName(p2, f2) {
      if |f1| == |f2| {
        ChildNameSameLength(p1, f1, p2, f2);
      } else if |f1| > |f2| {
        LongerFeatureEndsWithShorter(p1, f1, p2, f2);
      } else {
        LongerFeatureEndsWithShorter(p2, f2, p1, f1);
      }
    }
    if HasSuffix(f1, "-" + f2) {
      CollisionWitness(f1, f2);
    }
    if HasSuffix(f2, "-" + f1) {
      CollisionWitness(f2, f1);
      var p2 :| p2 != "p" && ChildName("p", f2) == ChildName(p2, f1);
      assert ChildName(p2, f1) == ChildName("p", f2);
    }
  }

  lemma CollisionWitness(longer: string, shorter: string)
    requires HasSuffix(longer, "-" + shorter)
    ensures exists p2: string :: p2 != "p" && ChildName("p", longer) == ChildName(p2, shorter)
  {
    var head := longer[..|longer| - |shorter| - 1];
    assert longer == head + ("-" + shorter);
    var p2 := "p-" + head;
    assert ChildName("p", longer) == ChildName(p2, shorter);
  }

  /** Feature names without a hyphen (the CRD enum allows saia and seca) never collide. */
  lemma HyphenFreeChildNamesInjective(p1: string, f1: string, p2: string, f2: string)
    requires '-' !in f1 && '-' !in f2
    requires ChildName(p1, f1) == ChildName(p2, f2)
    ensures p1 == p2 && f1 == f2
  {
    if |f1| == |f2| {
      ChildNameSameLength(p1, f1, p2, f2);
    } else if |f1| > |f2| {
      LongerFeatureEndsWithShorter(p1, f1, p2, f2);
    } else {
      LongerFeatureEndsWithShorter(p2, f2, p1, f1);
    }
  }
}
