# Provider classification and effective-provider resolution

This project is a Dafny model of the two rule engines that decide who provides
email, DNS and web hosting for a domain.

- **The classifier** (`scripts/dns_classify.py`) turns a domain's raw lookup
  strings into one provider label per service. The inputs are:
  - the mail-exchange (MX) hosts, and the organisation and country of the MX host;
  - the sender-policy (SPF) text, and the organisation and country of the SPF host;
  - the nameservers, and the organisation and country of the DNS host;
  - the hosting ASN, organisation and country.

  It also labels how the domain relates to the domain its web address
  redirects to.
- **The effective resolver** (`scripts/dns_effective.py`) merges those labels
  into one effective provider per service. Each effective provider comes with
  a disclaimer flag and an explanatory text. For email it applies a
  "Microsoft on either channel" rule and then compares the MX and SPF channels
  one by one. For DNS and hosting it chooses between the original domain's
  label and the redirect target's label.

Every function in both files is a total, first-match-wins chain of guards over
ASCII lower-casing, `strip()`, substring tests, `endswith` and equality. Each
one is modelled as a Dafny function. Its contract gives, for each output
label, the condition under which it comes out, as an if-and-only-if over
independent predicates: the rule order stated declaratively.

The project has five modules:

- `Text` (`text.dfy`) holds the string helpers: `Lower`, `Contains`,
  `EndsWith`, `Trim`, `SplitOn` and `Join`. It also proves their round-trip and
  containment facts.
- `Categories` (`categories.dfy`) holds the label datatypes and their exact
  written forms.
- `Classify` (`classify.dfy`) is the classifier.
- `Effective` (`effective.dfy`) is the resolver. It works on strings, because
  the resolver reads the labels back as text from the classified table.
- `Pipeline` (`pipeline.dfy`) chains the two for one table row. This is where
  the properties that hold only for the combination are proved.

An "Unknown" email label might be expected never to get a disclaimer. The
code of `determine_email_provider` applies the Microsoft rule before it looks
at the label (scripts/dns_effective.py:97-118), so an "Unknown" label with a
Microsoft organisation comes out as a disclosed "Microsoft 365";
`Effective.DetermineEmail` models exactly that. Once the two scripts are
chained this cannot happen, because the classifier never writes "Unknown"
when either organisation mentions Microsoft: `Pipeline.UnknownEmailNeverDisclosed`.

## Model

| member | source | states |
|---|---|---|
| Text.TrimSpec | scripts/dns_effective.py:35-37 | `strip()` returns a contiguous block of the input. Only whitespace lies outside it, and the block neither starts nor ends with whitespace. It is empty exactly when the input is all whitespace. |
| Text.TrimIdempotent | scripts/dns_effective.py:189-191 | Stripping an already-stripped text changes nothing. |
| Text.SplitOn | scripts/dns_classify.py:87 | `split(';')` gives at least one block. No block contains the separator, and joining the blocks with the separator gives back the input. |
| Text.SplitJoin | scripts/dns_classify.py:87 | Splitting a join of separator-free blocks gives back exactly those blocks, so split and join are inverse in both directions. |
| Text.SplitPartContained | scripts/dns_classify.py:87 | Every block produced by the split occurs in the nameserver text. |
| Categories.NameTrimmed | scripts/dns_effective.py:189-190 | Every label the classifier writes is non-empty and unchanged by `strip()`, so the resolver reads back exactly what was written. |
| Classify.ClassifyEmail | scripts/dns_classify.py:12-50 | The result is one of the six email labels. An SPF Microsoft marker gives Microsoft 365 whatever the MX says. Each label holds exactly under its own rule. Google Workspace holds exactly when there is no SPF Microsoft marker and there is either an SPF Google marker or an MX Google marker without an MX Microsoft one. Local (.is) depends on the SPF country when that is set, else the MX country, or on ".is" in the MX text. Other US requires country "us" and no ".is" MX. Unknown requires no vendor marker, no decisive country, no MX and an SPF that is empty or contains `v=spf1 -all` in any letter case. Other is what remains. |
| Classify.ClassifyDns | scripts/dns_classify.py:54-90 | The result is one of the eight DNS labels. It is Unknown exactly when all three inputs are empty. Country "is" beats every vendor. The labels follow the vendor priority Cloudflare > AWS > Azure > Google. The nameserver-suffix rule gives Local (.is) only without a vendor marker and outside "us". Other holds exactly when there is data and no rule fired. |
| Classify.NsEndsInIsMentionsIs | scripts/dns_classify.py:87-88 | When a stripped `;`-separated nameserver entry ends in ".is", the lower-cased nameserver text contains ".is". |
| Classify.ClassifyHosting | scripts/dns_classify.py:93-127 | The result is one of the nine hosting labels. It is Unknown exactly when all inputs are empty. Country "is" comes first, then the vendor priority AWS > Azure > Google > Cloudflare > DigitalOcean, then "us". Other holds exactly when there is data, no decisive country and no vendor marker. |
| Classify.HostingIgnoresAsn | scripts/dns_classify.py:97-100 | Once there is any data, the ASN has no influence on the hosting label. |
| Classify.ClassifyRedirect | scripts/dns_classify.py:219-233 | There is one if-and-only-if per status, in the source's order: no count or no final domain; equal domains; both end in ".is"; only the original ends in ".is"; otherwise external. Comparisons are case-sensitive. |
| Classify.RedirectExamples | scripts/dns_classify.py:224-233 | Worked cases give each of the five statuses, including a cross-border redirect from a ".is" domain to a ".com" domain. |
| Effective.SentenceCase | scripts/dns_effective.py:11-26 | The four generic labels get their first letter lower-cased and keep the rest, so "Other US" becomes "other US". Every other string is returned unchanged. |
| Effective.ClassifyChannel | scripts/dns_effective.py:33-59 | The result is one of the six email labels. It is Microsoft 365 exactly on a Microsoft marker, and Google Workspace exactly on a Google marker without a Microsoft one. Without a vendor marker, country "is" or ".is" in the record gives Local (.is), then country "us" gives Other US. It is Unknown exactly when the stripped record and organisation are empty and the country is neither "is" nor "us", and Other for every remaining channel with a record or an organisation. |
| Effective.DetermineEmail | scripts/dns_effective.py:66-164 | The flag is set exactly when the text is non-empty. The category is "Microsoft 365" or the stripped input label ("Unknown" when the label is missing). A Microsoft organisation on either channel forces a disclosed "Microsoft 365", whatever the input label, with the both, MX-only or SPF-only text. Otherwise the input label stands. "Unknown" yields ("Unknown", false, ""). Any other label is disclosed exactly when some channel's own label is known, and its text begins with the label. |
| Effective.CompareChannels | scripts/dns_effective.py:127-164 | The category is the provider label. The flag is set exactly when the text is non-empty, which is exactly when at least one channel label is known. A disclosed text begins with the provider label. Agreeing channels give "… detected in both MX and SPF.", a known MX alone "… detected in MX. SPF is unknown.", and a known SPF alone "… detected in SPF. MX is unknown." |
| Effective.MixedText | scripts/dns_effective.py:139-147 | The mixed-channel text begins with the provider label and contains both "MX uses …" and "SPF uses …". |
| Effective.CompareChannelsNamesBoth | scripts/dns_effective.py:139-147 | When the two known channel labels differ, the disclaimer names both, each in its mid-sentence form. |
| Effective.CompareChannelsAgree | scripts/dns_effective.py:131-138 | When the two known channel labels agree, the disclaimer says the label was found in both MX and SPF. |
| Effective.DetermineWithRedirect | scripts/dns_effective.py:171-230 | The flag is set exactly when the text is non-empty. The result is (stripped original, false, "") exactly when the stripped target label is empty. Any target label gives a disclaimer, and the target wins unless it is "Unknown". The texts are: the fixed unknown-target text; one naming the final domain when the original is "Unknown"; the "Original domain used …, but redirect target uses …" text with the target in mid-sentence form; and the "… is used on both domains" text. |
| Effective.RedirectOnStripped | scripts/dns_effective.py:189-230 | On labels that are already stripped, the redirect resolver keeps the original, undisclosed, when there is no target label. Otherwise it is disclosed, with the target winning unless it is "Unknown". |
| Effective.RedirectUnknownOriginalExample | scripts/dns_effective.py:207-213 | An "Unknown" original with a "Cloudflare" target for example.com gives "Cloudflare", disclosed, with a text that mentions example.com. |
| Pipeline.ClassifyRow | scripts/dns_classify.py:189-235 | The email, DNS and hosting columns are the classifiers applied to the original domain's lookups, and lie in their label sets. The target's three columns exist exactly when the stripped final domain is non-empty, and then are the classifiers applied to the target's lookups, in the same label sets. The redirect column is the redirect status of the row's count, domain and final domain. |
| Pipeline.UnknownEmailNeverDisclosed | scripts/dns_effective.py:97-125 | When the classifier wrote "Unknown" for email, the resolver returns ("Unknown", false, ""), with no spurious disclaimer for a domain with no data. |
| Pipeline.EmailOnLabel | scripts/dns_effective.py:86-125 | For a label as the classifier writes it, the effective email label is that label or "Microsoft 365". |
| Pipeline.EffectiveEmailIsEmailLabel | scripts/dns_effective.py:274-290 | The effective email column always holds one of the six email labels: the classified one or "Microsoft 365". |
| Pipeline.RedirectOnLabels | scripts/dns_effective.py:292-320 | For two labels read back from the table, no target gives the original undisclosed, and any target gives a disclosed verdict. The effective label is the target's when it is known, the original's otherwise. |
| Pipeline.EffectiveDnsHostingLabels | scripts/dns_effective.py:292-320 | The effective DNS and hosting columns hold the winning label's written form, and that label lies in the DNS (respectively hosting) label set. |
| Pipeline.RedirectTargetDecides | scripts/dns_effective.py:292-320 | Without a redirect target, the original DNS and hosting labels stand, undisclosed. With one, both verdicts are disclosed, and a known target label wins. |

## Left out

- Unicode: `lower()` and `strip()` are modelled for ASCII only. Letters outside A–Z are not lower-cased, and only ASCII whitespace and the four separator controls are stripped.
- Missing values: pandas missing values (`pd.notna(...) else ""`) are taken as already normalised, so every input is a plain string. The one exception is the email label, whose missing value reads as "Unknown"; it is modelled with an `Option`. The missing-value branches of `determine_effective_provider_with_redirect` and `classify_mx_or_spf` are not modelled, because both scripts fill missing columns with "" before calling them.
- `service_type`: the `service_type` parameter of `determine_effective_provider_with_redirect` is unused by its body and is omitted.
- Script-level code: file discovery, CSV reading and writing, `fillna`, `df.apply`, the printed summaries and the percentage statistics are not part of this model. `Pipeline` models only the per-row data flow between the two scripts.
- Other scripts: `scripts/dns_lookup.py` (DNS, RDAP/WHOIS and HTTP lookups), `scripts/scrape_island_is.py` (web scraping) and `main.py` (process orchestration) are not part of this model.
- Classify.ClassifyRedirect: the redirect count is taken as an integer. A count read back from the table as a float such as `0.0` is not modelled.
- Classify.ClassifyEmail: the worked case of an Outlook SPF beside a Google MX is stated symbolically by the contract ("an SPF Microsoft marker gives Microsoft 365"). It is not given as a concrete literal case.
