/** The classifier (scripts/dns_classify.py): ordered, first-match-wins rule
    chains that turn the raw mail-exchange (MX), sender-policy (SPF),
    nameserver and address lookups of one domain into a provider label, and
    the label for the relation between a domain and its redirect target.
    Inputs are the already-normalised strings (a missing value is ""). */
module Classify {
  import opened Text
  import opened Categories

  // ---------------------------------------------------------------------
  // Email
  // ---------------------------------------------------------------------

  /** SPF names Microsoft's sending domain, or the SPF host belongs to Microsoft. */
  predicate SpfMicrosoft(spf: string, spfOrg: string) {
    Contains(Lower(spf), "spf.protection.outlook.com") || Contains(Lower(spfOrg), "microsoft")
  }

  /** SPF names Google's sending domain, or the SPF host belongs to Google. */
  predicate SpfGoogle(spf: string, spfOrg: string) {
    Contains(Lower(spf), "spf.google.com") || Contains(Lower(spfOrg), "google")
  }

  /** The MX hosts are Outlook/Office 365 hosts, or belong to Microsoft. */
  predicate MxMicrosoft(mx: string, mxOrg: string) {
    Contains(Lower(mx), "outlook.com") || Contains(Lower(mx), "office365") || Contains(Lower(mxOrg), "microsoft")
  }

  /** The MX hosts mention Google, or belong to Google. */
  predicate MxGoogle(mx: string, mxOrg: string) {
    Contains(Lower(mx), "google") || Contains(Lower(mxOrg), "google")
  }

  predicate EmailVendorMarker(mx: string, spf: string, mxOrg: string, spfOrg: string) {
    SpfMicrosoft(spf, spfOrg) || SpfGoogle(spf, spfOrg) || MxMicrosoft(mx, mxOrg) || MxGoogle(mx, mxOrg)
  }

  /** The country the email rules look at: the SPF host's when known, else the MX host's. */
  function EmailCountry(mxCountry: string, spfCountry: string): string {
    Lower(if spfCountry != "" then spfCountry else mxCountry)
  }

  /** No MX host, and either no SPF record or one that rejects every sender. */
  predicate NoMailConfig(mx: string, spf: string) {
    mx == "" && (spf == "" || Contains(Lower(spf), "v=spf1 -all"))
  }

  /** `classify_email_provider`. SPF markers are checked before MX markers,
      vendor markers before country, and "Unknown" is the last resort
      before "Other". */
  function ClassifyEmail(mx: string, spf: string, mxOrg: string, mxCountry: string,
                         spfOrg: string, spfCountry: string): (r: Category)
    ensures IsEmailCategory(r)
    // an SPF Microsoft marker wins whatever the MX says, e.g. over a Google MX
    ensures SpfMicrosoft(spf, spfOrg) ==> r == Microsoft365
    ensures r == Microsoft365 <==>
              SpfMicrosoft(spf, spfOrg) || (!SpfGoogle(spf, spfOrg) && MxMicrosoft(mx, mxOrg))
    ensures r == GoogleWorkspace <==>
              !SpfMicrosoft(spf, spfOrg) && (SpfGoogle(spf, spfOrg) || (!MxMicrosoft(mx, mxOrg) && MxGoogle(mx, mxOrg)))
    // without a vendor marker the country (SPF's first) or an MX ".is" host decides
    ensures !EmailVendorMarker(mx, spf, mxOrg, spfOrg) ==>
              (r == LocalIs <==> EmailCountry(mxCountry, spfCountry) == "is" || Contains(Lower(mx), ".is"))
    ensures r == OtherUS <==>
              !EmailVendorMarker(mx, spf, mxOrg, spfOrg) && !Contains(Lower(mx), ".is")
              && EmailCountry(mxCountry, spfCountry) == "us"
    ensures r == Unknown <==>
              !EmailVendorMarker(mx, spf, mxOrg, spfOrg)
              && EmailCountry(mxCountry, spfCountry) != "is" && EmailCountry(mxCountry, spfCountry) != "us"
              && NoMailConfig(mx, spf)
    ensures r == Other <==>
              !EmailVendorMarker(mx, spf, mxOrg, spfOrg) && !Contains(Lower(mx), ".is")
              && EmailCountry(mxCountry, spfCountry) != "is" && EmailCountry(mxCountry, spfCountry) != "us"
              && !NoMailConfig(mx, spf)
  {
    var country := EmailCountry(mxCountry, spfCountry);
    if SpfMicrosoft(spf, spfOrg) then Microsoft365
    else if SpfGoogle(spf, spfOrg) then GoogleWorkspace
    else if MxMicrosoft(mx, mxOrg) then Microsoft365
    else if MxGoogle(mx, mxOrg) then GoogleWorkspace
    else if country == "is" || Contains(Lower(mx), ".is") then LocalIs
    else if country == "us" then OtherUS
    else if NoMailConfig(mx, spf) then Unknown
    else Other
  }

  // ---------------------------------------------------------------------
  // DNS
  // ---------------------------------------------------------------------

  predicate CloudflareDns(ns: string, org: string) {
    Contains(Lower(org), "cloudflare") || Contains(Lower(ns), "cloudflare.com")
  }

  predicate AwsDns(ns: string, org: string) {
    Contains(Lower(org), "amazon") || Contains(Lower(org), "aws") || Contains(Lower(ns), "awsdns")
  }

  predicate AzureDns(ns: string, org: string) {
    Contains(Lower(org), "microsoft") || Contains(Lower(ns), "azure-dns") || Contains(Lower(org), "azure")
  }

  predicate GoogleDns(org: string) {
    Contains(Lower(org), "google")
  }

  predicate DnsVendorMarker(ns: string, org: string) {
    CloudflareDns(ns, org) || AwsDns(ns, org) || AzureDns(ns, org) || GoogleDns(org)
  }

  /** Some `;`-separated nameserver entry, stripped, ends in ".is". */
  predicate NsEndsInIs(ns: string) {
    var parts := SplitOn(Lower(ns), ';');
    exists k :: 0 <= k < |parts| && EndsWith(Trim(parts[k]), ".is")
  }

  /** `classify_dns_category`. */
  function ClassifyDns(ns: string, org: string, country: string): (r: Category)
    ensures IsDnsCategory(r)
    ensures r == Unknown <==> ns == "" && org == "" && country == ""
    // country "is" takes precedence over every vendor marker
    ensures Lower(country) == "is" ==> r == LocalIs
    // the nameserver-suffix rule is reached only without a vendor marker and outside "us"
    ensures r == LocalIs <==>
              Lower(country) == "is"
              || (!DnsVendorMarker(ns, org) && Lower(country) != "us" && NsEndsInIs(ns))
    ensures r == Cloudflare <==> Lower(country) != "is" && CloudflareDns(ns, org)
    ensures r == AWS <==> Lower(country) != "is" && !CloudflareDns(ns, org) && AwsDns(ns, org)
    ensures r == Azure <==>
              Lower(country) != "is" && !CloudflareDns(ns, org) && !AwsDns(ns, org) && AzureDns(ns, org)
    ensures r == Google <==>
              Lower(country) != "is" && !CloudflareDns(ns, org) && !AwsDns(ns, org) && !AzureDns(ns, org)
              && GoogleDns(org)
    ensures r == OtherUS <==> Lower(country) == "us" && !DnsVendorMarker(ns, org)
    ensures r == Other <==>
              (ns != "" || org != "" || country != "") && Lower(country) != "is" && Lower(country) != "us"
              && !DnsVendorMarker(ns, org) && !NsEndsInIs(ns)
  {
    var countryL := Lower(country);
    if ns == "" && org == "" && country == "" then
      NsEndsInIsEmpty();
      Unknown
    else if countryL == "is" then LocalIs
    else if CloudflareDns(ns, org) then Cloudflare
    else if AwsDns(ns, org) then AWS
    else if AzureDns(ns, org) then Azure
    else if GoogleDns(org) then Google
    else if countryL == "us" then OtherUS
    else if NsEndsInIs(ns) then LocalIs
    else Other
  }

  lemma NsEndsInIsEmpty()
    ensures !NsEndsInIs("")
  {
    assert Lower("") == "";
    assert SplitOn("", ';') == [""];
    TrimEmpty();
  }

  /** When the nameserver-suffix rule fires, the nameserver text itself
      mentions ".is" (in any letter case). */
  lemma NsEndsInIsMentionsIs(ns: string)
    requires NsEndsInIs(ns)
    ensures Contains(Lower(ns), ".is")
  {
    var parts := SplitOn(Lower(ns), ';');
    var k :| 0 <= k < |parts| && EndsWith(Trim(parts[k]), ".is");
    EndsWithContains(Trim(parts[k]), ".is");
    ContainsTrim(parts[k], ".is");
    SplitPartContained(Lower(ns), ';', k);
    ContainsTransitive(Lower(ns), parts[k], ".is");
  }

  // ---------------------------------------------------------------------
  // Hosting
  // ---------------------------------------------------------------------

  predicate AwsOrg(org: string) {
    Contains(Lower(org), "amazon") || Contains(Lower(org), "aws")
  }

  predicate AzureOrg(org: string) {
    Contains(Lower(org), "microsoft") || Contains(Lower(org), "azure")
  }

  predicate GoogleOrg(org: string) { Contains(Lower(org), "google") }

  predicate CloudflareOrg(org: string) { Contains(Lower(org), "cloudflare") }

  predicate DigitalOceanOrg(org: string) { Contains(Lower(org), "digitalocean") }

  predicate HostingVendorMarker(org: string) {
    AwsOrg(org) || AzureOrg(org) || GoogleOrg(org) || CloudflareOrg(org) || DigitalOceanOrg(org)
  }

  /** `classify_hosting_category`: vendors in the fixed priority
      AWS > Azure > Google > Cloudflare > DigitalOcean. */
  function ClassifyHosting(asn: string, org: string, country: string): (r: Category)
    ensures IsHostingCategory(r)
    ensures r == Unknown <==> asn == "" && org == "" && country == ""
    ensures r == LocalIs <==> Lower(country) == "is"
    ensures r == AWS <==> Lower(country) != "is" && AwsOrg(org)
    ensures r == Azure <==> Lower(country) != "is" && !AwsOrg(org) && AzureOrg(org)
    ensures r == Google <==> Lower(country) != "is" && !AwsOrg(org) && !AzureOrg(org) && GoogleOrg(org)
    ensures r == Cloudflare <==>
              Lower(country) != "is" && !AwsOrg(org) && !AzureOrg(org) && !GoogleOrg(org) && CloudflareOrg(org)
    ensures r == DigitalOcean <==>
              Lower(country) != "is" && !AwsOrg(org) && !AzureOrg(org) && !GoogleOrg(org) && !CloudflareOrg(org)
              && DigitalOceanOrg(org)
    ensures r == OtherUS <==> Lower(country) == "us" && !HostingVendorMarker(org)
    ensures r == Other <==>
              (asn != "" || org != "" || country != "") && Lower(country) != "is" && Lower(country) != "us"
              && !HostingVendorMarker(org)
  {
    var countryL := Lower(country);
    if asn == "" && org == "" && country == "" then Unknown
    else if countryL == "is" then LocalIs
    else if AwsOrg(org) then AWS
    else if AzureOrg(org) then Azure
    else if GoogleOrg(org) then Google
    else if CloudflareOrg(org) then Cloudflare
    else if DigitalOceanOrg(org) then DigitalOcean
    else if countryL == "us" then OtherUS
    else Other
  }

  /** The ASN only tells "no data at all" apart from "some data": once the
      organisation or country is known, or both ASNs are non-empty, it has
      no say in the label. */
  lemma HostingIgnoresAsn(asn1: string, asn2: string, org: string, country: string)
    requires org != "" || country != "" || (asn1 != "" && asn2 != "")
    ensures ClassifyHosting(asn1, org, country) == ClassifyHosting(asn2, org, country)
  {
  }

  // ---------------------------------------------------------------------
  // Redirect status
  // ---------------------------------------------------------------------

  /** `classify_redirect_status`, with the row's three fields as parameters.
      Equality and the ".is" suffix test are case-sensitive. */
  function ClassifyRedirect(redirectCount: int, domain: string, finalDomain: string): (s: RedirectStatus)
    ensures s == NoRedirect <==> redirectCount == 0 || finalDomain == ""
    ensures s == InternalRedirect <==> redirectCount != 0 && finalDomain != "" && domain == finalDomain
    ensures s == InternalIsRedirect <==>
              redirectCount != 0 && finalDomain != "" && domain != finalDomain
              && EndsWith(domain, ".is") && EndsWith(finalDomain, ".is")
    ensures s == CrossBorderRedirect <==>
              redirectCount != 0 && finalDomain != "" && domain != finalDomain
              && EndsWith(domain, ".is") && !EndsWith(finalDomain, ".is")
    ensures s == ExternalRedirect <==>
              redirectCount != 0 && finalDomain != "" && domain != finalDomain && !EndsWith(domain, ".is")
  {
    if redirectCount == 0 || finalDomain == "" then NoRedirect
    else if domain == finalDomain then InternalRedirect
    else if EndsWith(finalDomain, ".is") && EndsWith(domain, ".is") then InternalIsRedirect
    else if EndsWith(domain, ".is") && !EndsWith(finalDomain, ".is") then CrossBorderRedirect
    else ExternalRedirect
  }

  // ---------------------------------------------------------------------
  // Worked cases
  // ---------------------------------------------------------------------

  lemma RedirectExamples()
    ensures ClassifyRedirect(0, "a.is", "") == NoRedirect
    ensures ClassifyRedirect(2, "a.is", "b.com") == CrossBorderRedirect
    ensures ClassifyRedirect(1, "a.is", "a.is") == InternalRedirect
    ensures ClassifyRedirect(1, "a.is", "b.is") == InternalIsRedirect
    ensures ClassifyRedirect(1, "a.com", "b.is") == ExternalRedirect
  {
  }
}
