/** How the two scripts are chained for one domain row: the classifier's
    columns (labels for the original domain, and for the redirect target when
    there is one) are written to a table, read back as text, and fed to the
    effective resolver. Only the per-row data flow is modelled here. */
module Pipeline {
  import opened Text
  import opened Categories
  import opened Classify
  import opened Effective

  /** The raw lookup strings for one domain (already normalised: a missing value is ""). */
  datatype Lookup = Lookup(
    mx: string, mxOrg: string, mxCountry: string,
    spf: string, spfOrg: string, spfCountry: string,
    ns: string, dnsOrg: string, dnsCountry: string,
    hostingAsn: string, hostingOrg: string, hostingCountry: string)

  /** One input row: the domain, its lookups, the redirect target's lookups. */
  datatype Row = Row(domain: string, original: Lookup, final: Lookup, finalDomain: string, redirectCount: int)

  /** The classifier's columns for one row; the target's labels are absent
      when the row has no final domain. */
  datatype Classified = Classified(
    email: Category, dns: Category, hosting: Category,
    finalEmail: Option<Category>, finalDns: Option<Category>, finalHosting: Option<Category>,
    redirect: RedirectStatus)

  /** The resolver's columns for one row. */
  datatype Resolved = Resolved(email: Verdict, dns: Verdict, hosting: Verdict)

  function EmailOf(l: Lookup): Category {
    ClassifyEmail(l.mx, l.spf, l.mxOrg, l.mxCountry, l.spfOrg, l.spfCountry)
  }

  function DnsOf(l: Lookup): Category {
    ClassifyDns(l.ns, l.dnsOrg, l.dnsCountry)
  }

  function HostingOf(l: Lookup): Category {
    ClassifyHosting(l.hostingAsn, l.hostingOrg, l.hostingCountry)
  }

  /** A row has a redirect target when its final domain is non-blank. */
  predicate HasFinal(row: Row) {
    Trim(row.finalDomain) != ""
  }

  /** The classifier run over one row. */
  function ClassifyRow(row: Row): (c: Classified)
    ensures IsEmailCategory(c.email) && IsDnsCategory(c.dns) && IsHostingCategory(c.hosting)
    // the original domain's columns come from its own lookups
    ensures c.email == EmailOf(row.original) && c.dns == DnsOf(row.original) && c.hosting == HostingOf(row.original)
    // the target's columns exist exactly when there is a target, and come from the target's lookups
    ensures c.finalEmail.Some? == HasFinal(row) && c.finalDns.Some? == HasFinal(row)
            && c.finalHosting.Some? == HasFinal(row)
    ensures HasFinal(row) ==>
              c.finalEmail == Some(EmailOf(row.final)) && c.finalDns == Some(DnsOf(row.final))
              && c.finalHosting == Some(HostingOf(row.final))
    ensures c.finalEmail.Some? ==> IsEmailCategory(c.finalEmail.value)
    ensures c.finalDns.Some? ==> IsDnsCategory(c.finalDns.value)
    ensures c.finalHosting.Some? ==> IsHostingCategory(c.finalHosting.value)
    ensures c.redirect == ClassifyRedirect(row.redirectCount, row.domain, row.finalDomain)
  {
    var hasFinal := HasFinal(row);
    Classified(
      EmailOf(row.original), DnsOf(row.original), HostingOf(row.original),
      if hasFinal then Some(EmailOf(row.final)) else None,
      if hasFinal then Some(DnsOf(row.final)) else None,
      if hasFinal then Some(HostingOf(row.final)) else None,
      ClassifyRedirect(row.redirectCount, row.domain, row.finalDomain))
  }

  /** A label column as written to the table: the label's name, or "" when absent. */
  function Column(c: Option<Category>): string {
    match c
    case None => ""
    case Some(x) => Name(x)
  }

  /** The resolver run over one row and its classified columns. */
  function ResolveRow(row: Row, c: Classified): Resolved {
    var l := row.original;
    Resolved(
      DetermineEmail(Some(Name(c.email)), l.mx, l.mxOrg, l.mxCountry, l.spf, l.spfOrg, l.spfCountry),
      DetermineWithRedirect(Name(c.dns), Column(c.finalDns), row.finalDomain),
      DetermineWithRedirect(Name(c.hosting), Column(c.finalHosting), row.finalDomain))
  }

  /** The whole chain for one row. */
  function Process(row: Row): Resolved {
    ResolveRow(row, ClassifyRow(row))
  }

  /** A domain whose email was classified "Unknown" never gets an email
      disclaimer: the classifier only says "Unknown" when neither channel's
      organisation mentions Microsoft, so the resolver's Microsoft rule
      cannot fire for it. */
  lemma UnknownEmailNeverDisclosed(row: Row)
    requires ClassifyRow(row).email == Unknown
    ensures Process(row).email == Verdict("Unknown", false, "")
  {
    var l := row.original;
    ContainsLowerTrim(l.mxOrg, "microsoft");
    ContainsLowerTrim(l.spfOrg, "microsoft");
    NameTrimmed(Unknown);
  }

  /** The label the redirect resolver settles on: the target's when the row
      has a known target label, the original's otherwise. */
  function Winner(o: Category, f: Option<Category>): Category {
    if f.Some? && f.value != Unknown then f.value else o
  }

  /** The redirect resolver applied to two labels as the table holds them. */
  lemma RedirectOnLabels(o: Category, f: Option<Category>, d: string)
    ensures f.None? ==> DetermineWithRedirect(Name(o), Column(f), d) == Verdict(Name(o), false, "")
    ensures f.Some? ==> DetermineWithRedirect(Name(o), Column(f), d).disclosed
    ensures DetermineWithRedirect(Name(o), Column(f), d).category == Name(Winner(o, f))
  {
    NameTrimmed(o);
    if f.Some? {
      NameTrimmed(f.value);
      NameIsUnknown(f.value);
      RedirectOnStripped(Name(o), Name(f.value), d);
    } else {
      TrimEmpty();
      RedirectOnStripped(Name(o), "", d);
    }
  }

  /** The email resolver keeps the classifier's label or replaces it with
      "Microsoft 365"; it never invents a third one. */
  lemma EmailOnLabel(c: Category, l: Lookup)
    ensures var v := DetermineEmail(Some(Name(c)), l.mx, l.mxOrg, l.mxCountry, l.spf, l.spfOrg, l.spfCountry);
            v.category == Name(Microsoft365) || v.category == Name(c)
  {
    NameTrimmed(c);
  }

  /** The effective email label is always one of the six email labels: the
      classified one or "Microsoft 365". */
  lemma EffectiveEmailIsEmailLabel(row: Row)
    ensures IsEmailCategory(EmailOf(row.original))
    ensures Process(row).email.category == Name(Microsoft365)
            || Process(row).email.category == Name(EmailOf(row.original))
  {
    var k := ClassifyRow(row);
    var l := row.original;
    assert Process(row).email == DetermineEmail(Some(Name(k.email)), l.mx, l.mxOrg, l.mxCountry, l.spf, l.spfOrg, l.spfCountry);
    EmailOnLabel(k.email, l);
  }

  /** The effective DNS and hosting labels stay inside their label sets,
      whichever of the original and the target label wins. */
  lemma EffectiveDnsHostingLabels(row: Row)
    ensures IsDnsCategory(Winner(DnsOf(row.original), ClassifyRow(row).finalDns))
    ensures Process(row).dns.category == Name(Winner(DnsOf(row.original), ClassifyRow(row).finalDns))
    ensures IsHostingCategory(Winner(HostingOf(row.original), ClassifyRow(row).finalHosting))
    ensures Process(row).hosting.category == Name(Winner(HostingOf(row.original), ClassifyRow(row).finalHosting))
  {
    var k := ClassifyRow(row);
    assert Process(row).dns == DetermineWithRedirect(Name(k.dns), Column(k.finalDns), row.finalDomain);
    assert Process(row).hosting == DetermineWithRedirect(Name(k.hosting), Column(k.finalHosting), row.finalDomain);
    RedirectOnLabels(k.dns, k.finalDns, row.finalDomain);
    RedirectOnLabels(k.hosting, k.finalHosting, row.finalDomain);
  }

  /** Without a redirect target the original DNS and hosting labels stand,
      undisclosed; with one, both verdicts carry a disclaimer and a known
      target label wins. */
  lemma RedirectTargetDecides(row: Row)
    ensures !HasFinal(row) ==>
              Process(row).dns == Verdict(Name(DnsOf(row.original)), false, "")
              && Process(row).hosting == Verdict(Name(HostingOf(row.original)), false, "")
    ensures HasFinal(row) ==> Process(row).dns.disclosed && Process(row).hosting.disclosed
    ensures HasFinal(row) && DnsOf(row.final) != Unknown ==>
              Process(row).dns.category == Name(DnsOf(row.final))
    ensures HasFinal(row) && HostingOf(row.final) != Unknown ==>
              Process(row).hosting.category == Name(HostingOf(row.final))
  {
    var k := ClassifyRow(row);
    assert Process(row).dns == DetermineWithRedirect(Name(k.dns), Column(k.finalDns), row.finalDomain);
    assert Process(row).hosting == DetermineWithRedirect(Name(k.hosting), Column(k.finalHosting), row.finalDomain);
    RedirectOnLabels(k.dns, k.finalDns, row.finalDomain);
    RedirectOnLabels(k.hosting, k.finalHosting, row.finalDomain);
  }
}
