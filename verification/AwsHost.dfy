/** Building and reading back AWS host names
    (packages/nodes-base/credentials/Aws.credentials.ts). */
module AwsHost {
  import opened DotSplit
  import opened Options
  import opened Sequences

  const GLOBAL_DOMAIN := "amazonaws.com"
  const CHINA_DOMAIN := "amazonaws.com.cn"
  const SUFFIX := ".amazonaws.com"

  /** The regions table gives a domain to the two Chinese regions only. */
  function Domain(region: string): string {
    if region == "cn-north-1" || region == "cn-northwest-1" then CHINA_DOMAIN else GLOBAL_DOMAIN
  }

  function HostIn(service: string, region: string, domain: string): string { service + "." + region + "." + domain }

  function DefaultHost(service: string, region: string): string { HostIn(service, region, Domain(region)) }

  predicate AwsDomain(domain: string) { domain == GLOBAL_DOMAIN || domain == CHINA_DOMAIN }

  /** Where the suffix pattern first matches; the length when it does not. */
  function FirstMatch(host: string): (i: nat)
    ensures i <= |host|
    ensures i < |host| ==> SUFFIX <= host[i..]
    ensures forall j :: 0 <= j < i ==> !(SUFFIX <= host[j..])
  {
    if host == "" || SUFFIX <= host then (assert host[0..] == host; 0) else
    var i := 1 + FirstMatch(host[1..]);
    assert forall j :: 0 < j <= i ==> host[j..] == host[1..][j - 1..];
    assert host[0..] == host;
    i
  }

  function ParseHost(host: string): (string, Option<string>) {
    var parts := Split(host[..FirstMatch(host)]);
    (parts[0], if |parts| > 1 then Some(parts[1]) else None)
  }

  /** The hosts that are built, in full. */
  lemma DefaultHostMeans(service: string, region: string)
    ensures DefaultHost(service, region)
         == service + "." + region
            + if region == "cn-north-1" || region == "cn-northwest-1" then ".amazonaws.com.cn" else ".amazonaws.com"
  {
    var domain := Domain(region);
    DottedDomains();
    hide FirstMatch;
    Associative(service + "." + region, ".", domain);
  }

  lemma DottedDomains()
    ensures "." + CHINA_DOMAIN == ".amazonaws.com.cn" && "." + GLOBAL_DOMAIN == ".amazonaws.com"
  {
  }

  // ---------- Reading back ----------

  lemma MatchAt(host: string, i: nat)
    requires i < |host| && SUFFIX <= host[i..]
    requires forall j :: 0 <= j < i ==> !(SUFFIX <= host[j..])
    ensures FirstMatch(host) == i
  {
  }

  lemma DiffersAt(host: string, j: nat, k: nat)
    requires k < |SUFFIX| && j + k < |host| && host[j + k] != SUFFIX[k]
    ensures !(SUFFIX <= host[j..])
  {
    assert host[j..][k] == host[j + k];
  }

  /** The suffix starts with a dot, so it matches nowhere inside a dot-free label. */
  lemma NoMatchInLabel(prefix: string, word: string, rest: string, j: nat)
    requires '.' !in word && |prefix| <= j < |prefix| + |word|
    ensures !(SUFFIX <= (prefix + word + rest)[j..])
  {
    assert (prefix + word + rest)[j] == word[j - |prefix|];
    DiffersAt(prefix + word + rest, j, 0);
  }

  /** Nor at the dot in front of the region, whatever the region is called. */
  lemma NoMatchAtRegion(service: string, region: string, tail: string)
    requires '.' !in region
    ensures !(SUFFIX <= (service + "." + region + SUFFIX + tail)[|service|..])
  {
    var host, at := service + "." + region + SUFFIX + tail, |service|;
    assert forall k :: 0 <= k < |region| ==> host[at + 1 + k] == region[k];
    assert forall k :: 0 <= k < |SUFFIX| ==> host[at + 1 + |region| + k] == SUFFIX[k];
    if |region| < 9 {
      assert host[at + 1 + |region|] == SUFFIX[0];
      DiffersAt(host, at, |region| + 1);
    } else if |region| == 9 {
      assert host[at + 1 + |region| + 1] == SUFFIX[1];
      DiffersAt(host, at, 11);
    } else {
      assert host[at + 1 + 9] == region[9];
      DiffersAt(host, at, 10);
    }
  }

  lemma DomainIsSuffix(domain: string) returns (tail: string)
    requires AwsDomain(domain)
    ensures "." + domain == SUFFIX + tail
  {
    tail := if domain == CHINA_DOMAIN then ".cn" else "";
  }

  lemma RegionalMatch(service: string, region: string, domain: string)
    requires '.' !in service && '.' !in region && AwsDomain(domain)
    ensures FirstMatch(HostIn(service, region, domain)) == |service| + 1 + |region|
  {
    var tail := DomainIsSuffix(domain);
    var host, front := HostIn(service, region, domain), service + "." + region;
    Associative(front, ".", domain);
    Associative(front, SUFFIX, tail);
    hide *;
    assert host == front + SUFFIX + tail;
    forall j | 0 <= j < |front| ensures !(SUFFIX <= host[j..]) {
      if j < |service| {
        NoMatchInLabel("", service, "." + region + SUFFIX + tail, j);
        assert host == "" + service + ("." + region + SUFFIX + tail);
      } else if j == |service| {
        NoMatchAtRegion(service, region, tail);
      } else {
        NoMatchInLabel(service + ".", region, SUFFIX + tail, j);
        Associative(front, SUFFIX, tail);
      }
    }
    assert host[|front|..] == SUFFIX + tail;
    MatchAt(host, |front|);
  }

  /** A regional host reads back as its service and region, in either domain, if and only
      if neither contains a dot. */
  lemma RegionalRoundTrip(service: string, region: string, domain: string)
    requires AwsDomain(domain)
    ensures ParseHost(HostIn(service, region, domain)) == (service, Some(region)) <==> '.' !in service && '.' !in region
  {
    hide FirstMatch;
    if '.' !in service && '.' !in region {
      RegionalMatch(service, region, domain);
      var host := HostIn(service, region, domain);
      assert host[..|service| + 1 + |region|] == service + "." + region;
      SplitAtDot(service, region);
      SplitPlain(region);
      hide HostIn, Split;
    } else {
      var parts := Split(HostIn(service, region, domain)[..FirstMatch(HostIn(service, region, domain))]);
      assert parts[0] in parts && (|parts| > 1 ==> parts[1] in parts);
    }
  }

  /** The host of a global service reads back as the service without a region, if and only
      if the service has no dot. */
  lemma GlobalRoundTrip(service: string)
    ensures ParseHost(service + SUFFIX) == (service, None) <==> '.' !in service
  {
    var host := service + SUFFIX;
    if '.' !in service {
      forall j | 0 <= j < |service| ensures !(SUFFIX <= host[j..]) {
        NoMatchInLabel("", service, SUFFIX, j);
        assert host == "" + service + SUFFIX;
      }
      assert host[|service|..] == SUFFIX;
      MatchAt(host, |service|);
      assert host[..|service|] == service;
      SplitPlain(service);
    } else {
      var parts := Split(host[..FirstMatch(host)]);
      assert parts[0] in parts;
    }
  }

  // ---------- What a request is signed for ----------

  /** An empty region in the host counts as no region. */
  function SignedFor(host: string, credentialRegion: string): (string, string) {
    var (service, region) := ParseHost(host);
    (service, if region.Some? && region.value != "" then region.value else credentialRegion)
  }

  /** A request to the default host given as a full URL is signed for the service and
      region it was built from, exactly when the labels are dot-free and the region is
      not empty (or the credential's is empty too). */
  lemma SignedForDefaultHost(service: string, region: string, credentialRegion: string)
    requires '.' !in service && '.' !in region
    ensures SignedFor(DefaultHost(service, region), credentialRegion) == (service, region)
       <==> region != "" || credentialRegion == ""
  {
    RegionalRoundTrip(service, region, Domain(region));
  }
}
