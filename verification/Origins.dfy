/**
 Three differently written scanners for DNS host names: `ValidMyDomainHost` (src/oauth_pkce.cpp)
 walks the characters once, `ValidDnsOrigin` (src/salesforce_oauth_provider.cpp) and
 `IsTrustedTenantUrl` (src/query_api.cpp) split on dots. All are proved against one grammar.
 */
module Origins {
  import opened Wrappers
  import opened Text

  const SCHEME: string := "https://"
  const MY_DOMAIN: string := ".my.salesforce.com"
  const TENANT: string := ".c360a.salesforce.com"
  const FORBIDDEN: string := "/?#@:\\%"

  // ---------------------------------------------------------------- the grammar

  predicate LabelChar(c: char) { IsLower(c) || IsDigit(c) || c == '-' }

  predicate ValidLabel(l: string) {
    && 0 < |l| <= 63 && l[0] != '-' && l[|l| - 1] != '-'
    && forall i :: 0 <= i < |l| ==> LabelChar(l[i])
  }

  function Join(labels: seq<string>): string
    requires labels != []
  {
    if |labels| == 1 then labels[0] else labels[0] + "." + Join(labels[1..])
  }

  /** Dot-separated valid labels. */
  ghost predicate HostName(s: string) {
    exists labels: seq<string> :: labels != [] && (forall i :: 0 <= i < |labels| ==> ValidLabel(labels[i])) && s == Join(labels)
  }

  /** Index of the first dot, or the length. */
  function Dot(s: string): (d: nat)
    ensures d <= |s| && (d < |s| ==> s[d] == '.')
    ensures forall i :: 0 <= i < d ==> s[i] != '.'
  {
    if s == "" || s[0] == '.' then 0 else 1 + Dot(s[1..])
  }

  lemma DotIs(s: string, d: nat)
    requires d <= |s| && (d < |s| ==> s[d] == '.') && forall i :: 0 <= i < d ==> s[i] != '.'
    ensures Dot(s) == d
  {}

  /** `HostName`, read label by label. */
  predicate Labels(s: string)
    decreases |s|
  {
    var d := Dot(s);
    ValidLabel(s[..d]) && (d == |s| || Labels(s[d + 1..]))
  }

  lemma {:induction false} LabelsJoin(labels: seq<string>)
    requires labels != [] && forall i :: 0 <= i < |labels| ==> ValidLabel(labels[i])
    ensures Labels(Join(labels))
    decreases |labels|
  {
    var s, d := Join(labels), |labels[0]|;
    DotIs(s, d);
    assert s[..d] == labels[0];
    if |labels| > 1 {
      assert s[d + 1..] == Join(labels[1..]);
      LabelsJoin(labels[1..]);
    }
  }

  lemma {:induction false} LabelsSplit(s: string) returns (labels: seq<string>)
    requires Labels(s)
    ensures labels != [] && (forall i :: 0 <= i < |labels| ==> ValidLabel(labels[i])) && s == Join(labels)
    decreases |s|
  {
    var d := Dot(s);
    if d == |s| {
      assert s[..d] == s;
      labels := [s];
    } else {
      var rest := LabelsSplit(s[d + 1..]);
      labels := [s[..d]] + rest;
      assert labels[1..] == rest;
      assert s == s[..d] + "." + s[d + 1..];
    }
  }

  /** Reading label by label recognizes exactly the host names. */
  lemma HostNameByLabels(s: string)
    ensures HostName(s) <==> Labels(s)
  {
    if HostName(s) {
      var labels: seq<string> :| labels != [] && (forall i :: 0 <= i < |labels| ==> ValidLabel(labels[i])) && s == Join(labels);
      LabelsJoin(labels);
    }
    if Labels(s) { var _ := LabelsSplit(s); }
  }

  lemma {:induction false} LabelsConcat(p: string, q: string)
    ensures Labels(p + "." + q) <==> Labels(p) && Labels(q)
    decreases |p|
  {
    var s, d := p + "." + q, Dot(p);
    DotIs(s, d);
    assert s[..d] == p[..d];
    if d == |p| {
      assert s[d + 1..] == q;
    } else {
      assert s[d + 1..] == p[d + 1..] + "." + q;
      LabelsConcat(p[d + 1..], q);
    }
  }

  lemma {:induction false} LabelsChars(s: string, i: nat)
    requires Labels(s) && i < |s|
    ensures LabelChar(s[i]) || s[i] == '.'
    decreases |s|
  {
    var d := Dot(s);
    if i < d { assert s[i] == s[..d][i]; }
    else if i > d { LabelsChars(s[d + 1..], i - d - 1); }
  }

  // ---------------------------------------------------------------- the one-pass scanner

  /** What has been read of the current label of `s`, which begins at `start`. */
  ghost predicate Reading(s: string, start: nat, i: nat) {
    start <= i <= |s| && (i > start ==> s[start] != '-') && forall j :: start <= j < i ==> LabelChar(s[j])
  }

  ghost predicate From(s: string, start: nat) { start <= |s| && Labels(s[start..]) }

  /** The current label ends at position `i`: at a dot, or at the end. */
  lemma {:induction false} LabelEnds(s: string, start: nat, i: nat)
    requires Reading(s, start, i) && (i < |s| ==> s[i] == '.')
    ensures From(s, start) <==>
            && start < i <= start + 63 && s[i - 1] != '-'
            && (i == |s| || From(s, i + 1))
  {
    var rest, d := s[start..], i - start;
    assert forall j :: 0 <= j < d ==> rest[j] == s[start + j];
    DotIs(rest, d);
    if d > 0 { assert rest[..d][d - 1] == s[i - 1] && rest[..d][0] == s[start]; }
    if i < |s| { assert rest[d + 1..] == s[i + 1..]; }
  }

  /** A character that cannot continue the current label. */
  lemma {:induction false} LabelBreaks(s: string, start: nat, i: nat)
    requires Reading(s, start, i) && i < |s| && s[i] != '.'
    requires !LabelChar(s[i]) || (i == start && s[i] == '-')
    ensures !From(s, start)
  {
    var rest, d := s[start..], i - start;
    assert forall j :: 0 <= j <= d ==> rest[j] == s[start + j];
    assert rest[..Dot(rest)][d] == s[i];
  }

  method ScanPrefix(prefix: string) returns (valid: bool)
    requires prefix != ""
    ensures valid <==> Labels(prefix)
  {
    var labelStart, labelLength := true, 0;
    var previous := '\0';
    ghost var start := 0;  // where the current label begins
    assert prefix[0..] == prefix;
    for i := 0 to |prefix|
      invariant Reading(prefix, start, i) && labelLength == i - start && (labelStart <==> i == start)
      invariant i > start ==> previous == prefix[i - 1]
      invariant Labels(prefix) <==> From(prefix, start)
    {
      var c := prefix[i];
      if c == '.' {
        LabelEnds(prefix, start, i);
        if labelStart || labelLength > 63 || previous == '-' { return false; }
        start := i + 1;
        labelStart := true;
        labelLength := 0;
        previous := c;
        continue;
      }
      if !LabelChar(c) || (labelStart && c == '-') {
        LabelBreaks(prefix, start, i);
        return false;
      }
      labelStart := false;
      labelLength := labelLength + 1;
      previous := c;
    }
    LabelEnds(prefix, start, |prefix|);
    return !labelStart && labelLength <= 63 && prefix[|prefix| - 1] != '-';
  }

  predicate Suffixed(host: string, suffix: string) { |host| > |suffix| && EndsWith(host, suffix) }

  method ValidMyDomainHost(host: string) returns (valid: bool)
    ensures valid <==> MyDomainHost(host)
  {
    HostNameByLabels(host);
    if |host| > 253 || |host| <= |MY_DOMAIN| || !EndsWith(host, MY_DOMAIN) { return false; }
    var prefix := host[..|host| - |MY_DOMAIN|];
    MyDomainSuffix(host, prefix);
    valid := ScanPrefix(prefix);
  }

  lemma {:induction false} OneLabel(l: string)
    requires ValidLabel(l)
    ensures Labels(l)
  {
    DotIs(l, |l|);
    assert l[..|l|] == l;
  }

  lemma {:induction false} ThreeLabels(a: string, b: string, c: string)
    requires ValidLabel(a) && ValidLabel(b) && ValidLabel(c)
    ensures Labels(a + "." + (b + "." + c))
  {
    OneLabel(a);
    OneLabel(b);
    OneLabel(c);
    LabelsConcat(b, c);
    LabelsConcat(a, b + "." + c);
  }

  lemma {:induction false} MyDomainSuffix(host: string, prefix: string)
    requires Suffixed(host, MY_DOMAIN) && prefix == host[..|host| - |MY_DOMAIN|]
    ensures Labels(host) <==> Labels(prefix)
  {
    var fixed := "my" + "." + ("salesforce" + "." + "com");
    assert host == prefix + "." + fixed;
    ThreeLabels("my", "salesforce", "com");
    LabelsConcat(prefix, fixed);
  }

  // ---------------------------------------------------------------- the splitting scanners

  /** One turn of the loop of the tenant scanner. It would overlook a single trailing dot, which
      its fixed suffix excludes. */
  lemma {:induction false} SplitStep(host: string, start: nat)
    requires start < |host| && host[|host| - 1] != '.'
    ensures var d := Dot(host[start..]);
            && (start + d < |host| ==> start + d + 1 < |host|)
            && (From(host, start) <==>
                  ValidLabel(host[start..start + d]) && (start + d == |host| || From(host, start + d + 1)))
  {
    var rest := host[start..];
    var d := Dot(rest);
    assert rest[..d] == host[start..start + d];
    if d < |rest| { assert rest[d] == host[start + d] && rest[d + 1..] == host[start + d + 1..]; }
  }

  predicate NoUpper(s: string) { forall j :: 0 <= j < |s| ==> !IsUpper(s[j]) }

  method CheckDnsLabel(host: string, start: nat, length: nat) returns (ok: bool)
    requires start + length <= |host|
    ensures ok <==> ValidLabel(host[start..start + length])
  {
    ghost var part := host[start..start + length];
    assert forall j :: 0 <= j < length ==> part[j] == host[start + j];
    if length == 0 || length > 63 || host[start] == '-' || host[start + length - 1] == '-' { return false; }
    for index := start to start + length
      invariant forall j :: start <= j < index ==> LabelChar(host[j])
    {
      if !(IsLower(host[index]) || IsDigit(host[index]) || host[index] == '-') {
        assert part[index - start] == host[index];
        return false;
      }
    }
    return true;
  }

  method CheckTenantLabel(host: string, start: nat, length: nat) returns (ok: bool)
    requires start + length <= |host| && NoUpper(host)
    ensures ok <==> ValidLabel(host[start..start + length])
  {
    ghost var part := host[start..start + length];
    assert forall j :: 0 <= j < length ==> part[j] == host[start + j];
    if length == 0 || length > 63 || !IsAlnum(host[start]) || !IsAlnum(host[start + length - 1]) {
      assert length > 0 ==> part[0] == host[start] && part[length - 1] == host[start + length - 1];
      return false;
    }
    for index := start to start + length
      invariant forall j :: start <= j < index ==> LabelChar(host[j])
    {
      if !IsAlnum(host[index]) && host[index] != '-' {
        assert part[index - start] == host[index];
        return false;
      }
    }
    return true;
  }

  /** Without a single trailing dot, which the scanner of origins overlooks. */
  function Undotted(host: string): string {
    if host != "" && host[|host| - 1] == '.' then host[..|host| - 1] else host
  }

  lemma {:induction false} OverlookingStep(host: string, start: nat)
    requires start < |host| && start <= |Undotted(host)|
    ensures var u, d := Undotted(host), Dot(host[start..]);
            && start + d <= |u|
            && (From(u, start) <==> ValidLabel(host[start..start + d]) && (start + d == |u| || From(u, start + d + 1)))
  {
    var u, rest := Undotted(host), host[start..];
    var d := Dot(rest);
    assert rest[..d] == host[start..start + d];
    if start + d < |u| {
      assert u[start..][d] == '.' && u[start..][..d] == rest[..d] && u[start..][d + 1..] == u[start + d + 1..];
      DotIs(u[start..], d);
    } else {
      assert u[start..] == rest[..d];
    }
  }

  /** The labels from `start` on decide. */
  ghost predicate Undecided(host: string, start: nat) {
    var u := Undotted(host);
    if start < |host| then start <= |u| && (Labels(u) <==> From(u, start)) else start == |host| && Labels(u)
  }

  lemma {:induction false} OverlookingTurn(host: string, start: nat)
    requires start < |host| && Undecided(host, start)
    ensures var d := Dot(host[start..]);
            if !ValidLabel(host[start..start + d]) then !Labels(Undotted(host))
            else if start + d == |host| then Labels(Undotted(host)) else Undecided(host, start + d + 1)
  {
    OverlookingStep(host, start);
  }

  lemma AllUndecided(host: string)
    requires host != ""
    ensures Undecided(host, 0)
  {
    assert Undotted(host)[0..] == Undotted(host);
  }

  method SplitDnsLabels(host: string) returns (ok: bool)
    requires host != ""
    ensures ok <==> Labels(Undotted(host))
  {
    var start := 0;
    AllUndecided(host);
    while start < |host|
      invariant Undecided(host, start)
      decreases |host| - start
    {
      var next := SplitDnsLabel(host, start);
      if next.None? { return false; }
      start := next.value;
    }
    return true;
  }

  /** Where the next label begins, or the end of the host. */
  method SplitDnsLabel(host: string, start: nat) returns (next: Option<nat>)
    requires start < |host| && Undecided(host, start)
    ensures if next.None? then !Labels(Undotted(host)) else start < next.value && Undecided(host, next.value)
  {
    OverlookingTurn(host, start);
    var length := Dot(host[start..]);
    var ok := CheckDnsLabel(host, start, length);
    if !ok { return None; }
    return Some(if start + length == |host| then |host| else start + length + 1);
  }

  method SplitTenantLabels(host: string) returns (ok: bool)
    requires host != "" && host[|host| - 1] != '.' && NoUpper(host)
    ensures ok <==> Labels(host)
  {
    var start := 0;
    assert host[0..] == host;
    while start < |host|
      invariant start < |host| && (Labels(host) <==> From(host, start))
      decreases |host| - start
    {
      SplitStep(host, start);
      var length := Dot(host[start..]);
      ok := CheckTenantLabel(host, start, length);
      if !ok || start + length == |host| { return; }
      start := start + length + 1;
    }
  }

  lemma LastOfSuffix(s: string, suffix: string)
    requires suffix != "" && EndsWith(s, suffix)
    ensures s != "" && s[|s| - 1] == suffix[|suffix| - 1]
  {
    assert s[|s| - |suffix|..][|suffix| - 1] == s[|s| - 1];
  }

  predicate Plain(c: char) { c as int <= 0x7f && !IsControl(c) && !IsUpper(c) }

  /** A host name passes the screens on single characters. */
  lemma {:induction false} LabelsPassScreens(host: string)
    requires Labels(host)
    ensures host != "" && !ContainsAnyOf(host, FORBIDDEN)
    ensures forall i :: 0 <= i < |host| ==> Plain(host[i])
  {
    forall i | 0 <= i < |host| ensures Plain(host[i]) && host[i] !in FORBIDDEN { LabelsChars(host, i); }
  }

  lemma UndottedPassesScreens(host: string)
    requires Labels(Undotted(host))
    ensures host != "" && !ContainsAnyOf(host, FORBIDDEN)
  {
    var u := Undotted(host);
    LabelsPassScreens(u);
    forall i | 0 <= i < |host| ensures host[i] !in FORBIDDEN {
      if i < |u| { assert host[i] == u[i]; }
    }
  }

  method CheckDnsHost(host: string, suffix: string) returns (ok: bool)
    ensures ok <==> |host| <= 253 && Suffixed(host, suffix) && Labels(Undotted(host))
  {
    if Labels(Undotted(host)) { UndottedPassesScreens(host); }
    if |host| == 0 || |host| > 253 || ContainsAnyOf(host, FORBIDDEN) ||
       |host| <= |suffix| || !EndsWith(host, suffix) { return false; }
    ok := SplitDnsLabels(host);
  }

  method ValidDnsOrigin(value: string, suffix: string) returns (valid: bool)
    ensures valid <==> DnsOrigin(value, suffix)
  {
    if !StartsWith(value, SCHEME) || |value| > 2048 { return false; }
    HostNameByLabels(Undotted(value[8..]));
    valid := CheckDnsHost(value[8..], suffix);
  }

  method AllPlain(host: string) returns (ok: bool)
    ensures ok <==> forall i :: 0 <= i < |host| ==> Plain(host[i])
  {
    for k := 0 to |host|
      invariant forall j :: 0 <= j < k ==> Plain(host[j])
    {
      if host[k] as int > 0x7f || IsControl(host[k]) || IsUpper(host[k]) { return false; }
    }
    return true;
  }

  method CheckTenantHost(host: string) returns (ok: bool)
    ensures ok <==> Suffixed(host, TENANT) && Labels(host)
  {
    if Labels(host) { LabelsPassScreens(host); }
    if host == "" || ContainsAnyOf(host, FORBIDDEN) { return false; }
    ok := AllPlain(host);
    if !ok || |host| <= |TENANT| || !EndsWith(host, TENANT) { return false; }
    LastOfSuffix(host, TENANT);
    ok := SplitTenantLabels(host);
  }

  /** The host of a tenant URL: one trailing slash is tolerated. */
  function HostPart(value: string): string
    requires |value| >= 8
  {
    var host := value[8..];
    if host != "" && host[|host| - 1] == '/' then host[..|host| - 1] else host
  }

  method IsTrustedTenantUrl(value: string) returns (trusted: bool)
    ensures trusted <==> TrustedTenantUrl(value)
  {
    if !StartsWith(value, SCHEME) { return false; }
    var host := value[8..];
    if host != "" && host[|host| - 1] == '/' { host := host[..|host| - 1]; }
    assert host == HostPart(value);
    HostNameByLabels(host);
    trusted := CheckTenantHost(host);
  }

  // ---------------------------------------------------------------- agreement

  // What the three scanners are proved to accept.
  ghost predicate MyDomainHost(h: string) { |h| <= 253 && Suffixed(h, MY_DOMAIN) && HostName(h) }

  ghost predicate DnsOrigin(v: string, suffix: string) {
    StartsWith(v, SCHEME) && |v[8..]| <= 253 && Suffixed(v[8..], suffix) && HostName(Undotted(v[8..]))
  }

  /** Under a suffix that does not end in a dot, as both suffixes of the program, no dot is overlooked. */
  lemma NothingOverlooked(host: string, suffix: string)
    requires suffix != "" && suffix[|suffix| - 1] != '.' && Suffixed(host, suffix)
    ensures Undotted(host) == host
  {
    LastOfSuffix(host, suffix);
  }

  ghost predicate TrustedTenantUrl(v: string) {
    StartsWith(v, SCHEME) && Suffixed(HostPart(v), TENANT) && HostName(HostPart(v))
  }

  /** The one-pass scanner accepts a host if and only if the splitting one accepts its origin. */
  lemma MyDomainAgrees(h: string)
    ensures MyDomainHost(h) <==> DnsOrigin(SCHEME + h, MY_DOMAIN)
  {
    assert (SCHEME + h)[8..] == h && (SCHEME + h)[..8] == SCHEME;
    if Suffixed(h, MY_DOMAIN) { NothingOverlooked(h, MY_DOMAIN); }
  }

  /** The scanners themselves, on every host. */
  method ScannersAgree(h: string) returns (onePass: bool, splitting: bool)
    ensures onePass == splitting && (onePass <==> MyDomainHost(h))
  {
    onePass := ValidMyDomainHost(h);
    splitting := ValidDnsOrigin(SCHEME + h, MY_DOMAIN);
    MyDomainAgrees(h);
  }

  lemma NoTrailingSlash(s: string)
    requires HostName(s)
    ensures s != "" && s[|s| - 1] != '/'
  {
    HostNameByLabels(s);
    LabelsChars(s, |s| - 1);
  }

  /** The exchange accepts a tenant origin if and only if the query client trusts it, it has no
      trailing slash and its host is at most 253 bytes. */
  lemma TenantOriginExactly(v: string)
    ensures DnsOrigin(v, TENANT) <==>
            TrustedTenantUrl(v) && v[|v| - 1] != '/' && |v| <= 261
  {
    if StartsWith(v, SCHEME) && |v| > 8 {
      var host := v[8..];
      assert host[|host| - 1] == v[|v| - 1];
      if Suffixed(host, TENANT) { NothingOverlooked(host, TENANT); }
      if HostName(host) { NoTrailingSlash(host); }
    }
  }

  /** The tenant URL `Exchange` hands out: the scheme is supplied when it is missing. */
  function Supplied(url: string): string { if StartsWith(url, SCHEME) then url else SCHEME + url }

  method ExchangedTenantUrl(url: string) returns (tenant: Option<string>)
    ensures tenant == if DnsOrigin(Supplied(url), TENANT) then Some(Supplied(url)) else None
    ensures tenant.Some? ==> TrustedTenantUrl(tenant.value)
  {
    var candidate := url;
    if !StartsWith(url, SCHEME) {
      candidate := SCHEME + url;
      var ok := ValidDnsOrigin(candidate, TENANT);
      if !ok { return None; }
    }
    var valid := ValidDnsOrigin(candidate, TENANT);
    if !valid { return None; }
    TenantOriginExactly(candidate);
    return Some(candidate);
  }
}
