/** The closed label sets the classifiers produce, and the exact text each
    label is written as in the classified and effective result tables. */
module Categories {
  import opened Text

  datatype Option<T> = None | Some(value: T)

  /** Every provider label used for email, DNS or hosting. */
  datatype Category =
    | Microsoft365 | GoogleWorkspace
    | Cloudflare | AWS | Azure | Google | DigitalOcean
    | LocalIs | OtherUS | Other | Unknown

  function Name(c: Category): string {
    match c
    case Microsoft365 => "Microsoft 365"
    case GoogleWorkspace => "Google Workspace"
    case Cloudflare => "Cloudflare"
    case AWS => "AWS"
    case Azure => "Azure"
    case Google => "Google"
    case DigitalOcean => "DigitalOcean"
    case LocalIs => "Local (.is)"
    case OtherUS => "Other US"
    case Other => "Other"
    case Unknown => "Unknown"
  }

  /** The six labels an email classification can take. */
  predicate IsEmailCategory(c: Category) {
    c in {Microsoft365, GoogleWorkspace, LocalIs, OtherUS, Unknown, Other}
  }

  /** The eight labels a DNS classification can take. */
  predicate IsDnsCategory(c: Category) {
    c in {LocalIs, Cloudflare, AWS, Azure, Google, OtherUS, Other, Unknown}
  }

  /** The nine labels a hosting classification can take. */
  predicate IsHostingCategory(c: Category) {
    c in {LocalIs, AWS, Azure, Google, Cloudflare, DigitalOcean, OtherUS, Other, Unknown}
  }

  /** The relation between a domain and the domain its web address ends up at. */
  datatype RedirectStatus =
    | NoRedirect | InternalRedirect | InternalIsRedirect | CrossBorderRedirect | ExternalRedirect

  function StatusName(s: RedirectStatus): string {
    match s
    case NoRedirect => "No redirect"
    case InternalRedirect => "Internal redirect"
    case InternalIsRedirect => "Internal .is redirect"
    case CrossBorderRedirect => "Cross-border redirect"
    case ExternalRedirect => "External redirect"
  }

  /** Distinct labels are written differently, so the written form can be
      compared in place of the label. */
  lemma NameInjective(a: Category, b: Category)
    ensures Name(a) == Name(b) <==> a == b
  {
  }

  lemma NameIsUnknown(c: Category)
    ensures Name(c) == "Unknown" <==> c == Unknown
  {
    NameInjective(c, Unknown);
  }

  /** A label's written form is non-empty and survives `strip()` unchanged,
      which is what the effective resolver does to it after reading it back. */
  lemma NameTrimmed(c: Category)
    ensures Name(c) != "" && Trim(Name(c)) == Name(c)
  {
    TrimNoEdgeSpace(Name(c));
  }
}
