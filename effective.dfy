/** The effective resolver (scripts/dns_effective.py): merges the classifier's
    labels into one effective provider per service, with a disclaimer flag
    and an explanatory text. Labels arrive here as text, read back from the
    classified table, so this module works on strings. */
module Effective {
  import opened Text
  import opened Categories

  /** One effective verdict: the label shown, whether a disclaimer is shown,
      and the disclaimer's text. */
  datatype Verdict = Verdict(category: string, disclosed: bool, text: string)

  /** The generic labels, which are written in lower case mid-sentence. */
  predicate IsGenericName(category: string) {
    category == "Other" || category == "Other US" || category == "Local (.is)" || category == "Unknown"
  }

  /** `lowercase_category_for_sentence`: a generic label gets its first
      letter lower-cased ("Other US" becomes "other US"); brand labels and
      any other text are returned unchanged. */
  function SentenceCase(category: string): (r: string)
    ensures IsGenericName(category) ==>
              |r| == |category| && r[0] == LowerChar(category[0]) && r[1..] == category[1..]
    ensures !IsGenericName(category) ==> r == category
  {
    if category == "Other" then "other"
    else if category == "Other US" then "other US"
    else if category == "Local (.is)" then "local (.is)"
    else if category == "Unknown" then "unknown"
    else category
  }

  // ---------------------------------------------------------------------
  // One mail channel
  // ---------------------------------------------------------------------

  /** The stripped, lower-cased record text or organisation points to Microsoft. */
  predicate ChannelMicrosoft(record: string, org: string) {
    var rec := Lower(Trim(record));
    Contains(Lower(Trim(org)), "microsoft") || Contains(rec, "outlook.com") || Contains(rec, "office365")
    || Contains(rec, "protection.outlook.com")
  }

  predicate ChannelGoogle(record: string, org: string) {
    Contains(Lower(Trim(org)), "google") || Contains(Lower(Trim(record)), "google.com")
  }

  /** `classify_mx_or_spf`: the label of a single MX or SPF channel. */
  function ClassifyChannel(record: string, org: string, country: string): (r: Category)
    ensures IsEmailCategory(r)
    ensures r == Microsoft365 <==> ChannelMicrosoft(record, org)
    ensures r == GoogleWorkspace <==> !ChannelMicrosoft(record, org) && ChannelGoogle(record, org)
    // "Unknown" only when there is no record, no organisation and no decisive country
    ensures r == Unknown <==>
              Trim(record) == "" && Trim(org) == ""
              && Lower(Trim(country)) != "is" && Lower(Trim(country)) != "us"
    // without a vendor marker: Iceland by country or ".is" record, then the US by country
    ensures r == LocalIs <==>
              !ChannelMicrosoft(record, org) && !ChannelGoogle(record, org)
              && (Lower(Trim(country)) == "is" || Contains(Lower(Trim(record)), ".is"))
    ensures r == OtherUS <==>
              !ChannelMicrosoft(record, org) && !ChannelGoogle(record, org)
              && !Contains(Lower(Trim(record)), ".is") && Lower(Trim(country)) == "us"
    // and "Other" for any remaining channel that has a record or an organisation
    ensures r == Other <==>
              !ChannelMicrosoft(record, org) && !ChannelGoogle(record, org)
              && !Contains(Lower(Trim(record)), ".is")
              && Lower(Trim(country)) != "is" && Lower(Trim(country)) != "us"
              && (Trim(record) != "" || Trim(org) != "")
  {
    var rec := Lower(Trim(record));
    var o := Lower(Trim(org));
    var c := Lower(Trim(country));
    if ChannelMicrosoft(record, org) then Microsoft365
    else if ChannelGoogle(record, org) then GoogleWorkspace
    else if c == "is" || Contains(rec, ".is") then LocalIs
    else if c == "us" then OtherUS
    else if rec == "" && o == "" then Unknown
    else Other
  }

  // ---------------------------------------------------------------------
  // Email
  // ---------------------------------------------------------------------

  const BothMicrosoftText := "Microsoft 365 detected in both MX and SPF."
  const MxMicrosoftText := "Microsoft 365 detected in MX. SPF does not clearly point to Microsoft 365."
  const SpfMicrosoftText := "SPF includes Microsoft 365 for sending. MX points elsewhere."

  /** The classified email label as the resolver reads it: stripped, and
      "Unknown" for a missing value. */
  function ProviderText(emailProvider: Option<string>): string {
    match emailProvider
    case None => "Unknown"
    case Some(p) => Trim(p)
  }

  /** The organisation of a channel, stripped and lower-cased, mentions Microsoft. */
  predicate OrgMicrosoft(org: string) {
    Contains(Lower(Trim(org)), "microsoft")
  }

  /** `determine_email_provider`: Microsoft OR-logic over the two channel
      organisations, then a disclaimer that compares the two channel labels. */
  function DetermineEmail(emailProvider: Option<string>, mx: string, mxOrg: string, mxCountry: string,
                          spf: string, spfOrg: string, spfCountry: string): (v: Verdict)
    ensures v.disclosed <==> v.text != ""
    ensures v.category == "Microsoft 365" || v.category == ProviderText(emailProvider)
    // Microsoft on either channel forces Microsoft 365, whatever the classified label
    ensures OrgMicrosoft(mxOrg) || OrgMicrosoft(spfOrg) ==> v.category == "Microsoft 365" && v.disclosed
    ensures OrgMicrosoft(mxOrg) && OrgMicrosoft(spfOrg) ==> v.text == BothMicrosoftText
    ensures OrgMicrosoft(mxOrg) && !OrgMicrosoft(spfOrg) ==> v.text == MxMicrosoftText
    ensures !OrgMicrosoft(mxOrg) && OrgMicrosoft(spfOrg) ==> v.text == SpfMicrosoftText
    // otherwise the classified label stands
    ensures !OrgMicrosoft(mxOrg) && !OrgMicrosoft(spfOrg) ==> v.category == ProviderText(emailProvider)
    ensures !OrgMicrosoft(mxOrg) && !OrgMicrosoft(spfOrg) && ProviderText(emailProvider) == "Unknown" ==>
              v == Verdict("Unknown", false, "")
    // and is disclosed exactly when at least one channel has a label of its own
    ensures !OrgMicrosoft(mxOrg) && !OrgMicrosoft(spfOrg) && ProviderText(emailProvider) != "Unknown" ==>
              (v.disclosed <==>
                 ClassifyChannel(mx, Trim(mxOrg), mxCountry) != Unknown
                 || ClassifyChannel(spf, Trim(spfOrg), spfCountry) != Unknown)
    // a comparison disclaimer opens with the label it explains
    ensures !OrgMicrosoft(mxOrg) && !OrgMicrosoft(spfOrg) && v.disclosed ==> v.category <= v.text
  {
    var provider := ProviderText(emailProvider);
    var mxO := Trim(mxOrg);
    var spfO := Trim(spfOrg);
    var mxCat := ClassifyChannel(mx, mxO, mxCountry);
    var spfCat := ClassifyChannel(spf, spfO, spfCountry);
    var mxMs := Contains(Lower(mxO), "microsoft");
    var spfMs := Contains(Lower(spfO), "microsoft");
    if mxMs && spfMs then Verdict("Microsoft 365", true, BothMicrosoftText)
    else if mxMs && !spfMs then Verdict("Microsoft 365", true, MxMicrosoftText)
    else if spfMs && !mxMs then Verdict("Microsoft 365", true, SpfMicrosoftText)
    else if provider == "Unknown" then Verdict(provider, false, "")
    else CompareChannels(provider, mxCat, spfCat)
  }

  /** The non-Microsoft disclaimer of `determine_email_provider`: the
      classified label, explained by comparing the two channel labels. */
  function CompareChannels(provider: string, mxCat: Category, spfCat: Category): (v: Verdict)
    ensures v.category == provider
    ensures v.disclosed <==> v.text != ""
    ensures v.disclosed <==> mxCat != Unknown || spfCat != Unknown
    ensures v.disclosed ==> provider <= v.text
    // the texts for agreeing channels and for a single known channel
    ensures mxCat != Unknown && mxCat == spfCat ==> v.text == provider + " detected in both MX and SPF."
    ensures mxCat != Unknown && spfCat == Unknown ==> v.text == provider + " detected in MX. SPF is unknown."
    ensures mxCat == Unknown && spfCat != Unknown ==> v.text == provider + " detected in SPF. MX is unknown."
  {
    var mxKnown := mxCat != Unknown;
    var spfKnown := spfCat != Unknown;
    if mxKnown && spfKnown then
      if mxCat == spfCat then
        Verdict(provider, true, provider + " detected in both MX and SPF.")
      else
        Verdict(provider, true, MixedText(provider, SentenceCase(Name(mxCat)), SentenceCase(Name(spfCat))))
    else if mxKnown && !spfKnown then
      Verdict(provider, true, provider + " detected in MX. SPF is unknown.")
    else if spfKnown && !mxKnown then
      Verdict(provider, true, provider + " detected in SPF. MX is unknown.")
    else
      Verdict(provider, false, "")
  }

  /** The disclaimer for two channels with different labels. */
  function MixedText(provider: string, mxText: string, spfText: string): (t: string)
    ensures Contains(t, "MX uses " + mxText) && Contains(t, "SPF uses " + spfText)
    ensures provider <= t
  {
    var mxPart := "MX uses " + mxText;
    var spfPart := "SPF uses " + spfText;
    var t := provider + " detected. " + mxPart + ", " + spfPart + ".";
    assert t == (provider + " detected. ") + mxPart + (", " + spfPart + ".");
    ContainsMiddle(provider + " detected. ", mxPart, ", " + spfPart + ".");
    assert t == (provider + " detected. " + mxPart + ", ") + spfPart + ".";
    ContainsMiddle(provider + " detected. " + mxPart + ", ", spfPart, ".");
    t
  }

  /** When the two channels carry different known labels, the disclaimer
      names both, each in its mid-sentence form. */
  lemma CompareChannelsNamesBoth(provider: string, mxCat: Category, spfCat: Category)
    requires mxCat != Unknown && spfCat != Unknown && mxCat != spfCat
    ensures Contains(CompareChannels(provider, mxCat, spfCat).text, "MX uses " + SentenceCase(Name(mxCat)))
    ensures Contains(CompareChannels(provider, mxCat, spfCat).text, "SPF uses " + SentenceCase(Name(spfCat)))
  {
  }

  /** When the two channels carry the same known label, the disclaimer says
      it was found in both. */
  lemma CompareChannelsAgree(provider: string, mxCat: Category, spfCat: Category)
    requires mxCat != Unknown && mxCat == spfCat
    ensures Contains(CompareChannels(provider, mxCat, spfCat).text, "detected in both MX and SPF")
  {
    assert CompareChannels(provider, mxCat, spfCat).text == provider + " " + "detected in both MX and SPF" + ".";
    ContainsMiddle(provider + " ", "detected in both MX and SPF", ".");
  }

  // ---------------------------------------------------------------------
  // DNS and hosting across a redirect
  // ---------------------------------------------------------------------

  const UnknownFinalText := "Domain redirects but final provider is unknown. Showing original provider."

  /** `determine_effective_provider_with_redirect`, shared by DNS and
      hosting: once the redirect target has a label, the target's label is
      the effective one, unless it is "Unknown". */
  function DetermineWithRedirect(original: string, final: string, finalDomain: string): (v: Verdict)
    ensures v.disclosed <==> v.text != ""
    // no label for the target: the original label, with no disclaimer
    ensures v == Verdict(Trim(original), false, "") <==> Trim(final) == ""
    // any label for the target: a disclaimer, and the target wins unless it is "Unknown"
    ensures Trim(final) != "" ==>
              v.disclosed && v.category == (if Trim(final) == "Unknown" then Trim(original) else Trim(final))
    ensures Trim(final) == "Unknown" ==> v.text == UnknownFinalText
    ensures Trim(final) != "" && Trim(final) != "Unknown" && Trim(original) == "Unknown" ==>
              Contains(v.text, Trim(finalDomain))
    ensures Trim(final) != "" && Trim(final) != "Unknown" && Trim(original) != "Unknown" && Trim(original) != Trim(final) ==>
              v.text == "Original domain used " + Trim(original) + ", but redirect target uses "
                        + SentenceCase(Trim(final)) + "."
    ensures Trim(final) != "" && Trim(final) != "Unknown" && Trim(original) == Trim(final) ==>
              v.text == Trim(original) + " is used on both domains."
  {
    var o := Trim(original);
    var f := Trim(final);
    var d := Trim(finalDomain);
    if f == "" then Verdict(o, false, "")
    else if f == "Unknown" then Verdict(o, true, UnknownFinalText)
    else if o == "Unknown" && f != "Unknown" then
      var prefix := "Original provider unknown. Showing provider after redirect to ";
      ContainsMiddle(prefix, d, ".");
      Verdict(f, true, prefix + d + ".")
    else if o != f then
      Verdict(f, true, "Original domain used " + o + ", but redirect target uses " + SentenceCase(f) + ".")
    else
      Verdict(o, true, o + " is used on both domains.")
  }

  /** The redirect resolver on labels that are already stripped, as the
      classifier writes them. */
  lemma RedirectOnStripped(original: string, final: string, finalDomain: string)
    requires Trim(original) == original && Trim(final) == final
    ensures final == "" ==> DetermineWithRedirect(original, final, finalDomain) == Verdict(original, false, "")
    ensures final != "" ==> DetermineWithRedirect(original, final, finalDomain).disclosed
    ensures final != "" ==>
              DetermineWithRedirect(original, final, finalDomain).category
              == if final == "Unknown" then original else final
  {
  }

  /** Worked case: an unknown original replaced by the target's Cloudflare. */
  lemma RedirectUnknownOriginalExample()
    ensures DetermineWithRedirect("Unknown", "Cloudflare", "example.com").category == "Cloudflare"
    ensures DetermineWithRedirect("Unknown", "Cloudflare", "example.com").disclosed
    ensures Contains(DetermineWithRedirect("Unknown", "Cloudflare", "example.com").text, "example.com")
  {
  }
}
