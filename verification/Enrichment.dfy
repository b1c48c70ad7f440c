/** ValidateAndEnrichSplunkConfig as it runs: endpoint and token are assigned by reference. */
module Enrichment {
  import opened Api
  import opened Admission

  /** The configuration both reconcilers pass by reference. */
  class SplunkObject {
    var cfg: Splunk

    constructor (c: Splunk)
      ensures cfg == c
    {
      cfg := c;
    }

    method EnsureToken(w: SplunkWorld) returns (o: Outcome)
      modifies this
      ensures o == if HecToken(old(cfg), w).Some? then Ok else Fail("failed to get HEC token")
      ensures cfg == if o.Ok? then old(cfg).(token := HecToken(old(cfg), w).value) else old(cfg)
    {
      var token := HecToken(cfg, w);
      if token.None? {
        return Fail("failed to get HEC token");
      }
      cfg := cfg.(token := token.value);
      return Ok;
    }

    /** A failing token lookup leaves the resolved endpoint behind. */
    method ValidateAndEnrich(ns: string, clusterDomain: string, w: SplunkWorld) returns (o: Outcome)
      modifies this
      ensures (cfg, o) == Enrich(old(cfg), ns, clusterDomain, w)
    {
      if cfg.endpoint != "" {
        o := EnsureToken(w);
        return;
      }
      if cfg.crRef.name != "" {
        var endpoint := SplunkEndpoint(cfg, ns, clusterDomain, w);
        if endpoint.None? {
          return Fail("failed to resolve Splunk endpoint");
        }
        cfg := cfg.(endpoint := endpoint.value);
        o := EnsureToken(w);
        return;
      }
      return Fail("endpoint or custom resource required");
    }
  }

  /**
   * Enriching again, anywhere and whether or not the custom resource still exists, changes
   * nothing: the child enriches what the platform enriched before it and gets the same result.
   */
  lemma EnrichStable(c: Splunk, ns: string, domain: string, w: SplunkWorld, ns2: string, domain2: string, crExists: bool)
    requires Enrich(c, ns, domain, w).1.Ok?
    ensures var d := Enrich(c, ns, domain, w).0;
            Enrich(d, ns2, domain2, w.(crExists := crExists)) == (d, Ok)
  {
    hide SplunkEndpoint;
  }
}
