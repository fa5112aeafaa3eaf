/** The platform taxonomy shared by the registration page, the profile
    creation page and the dashboard: every `switch (platform?.toLowerCase())`
    of those pages dispatches on the same seven tags. */
module Platforms {
  import opened Wrappers
  import opened Text

  /** The branches of the platform switches; `Other` is the `default:` arm. */
  datatype Platform = Instagram | Twitter | WhatsApp | Email | LinkedIn | Website | Custom | Other

  /** The tag a recognised platform is written as, lower-case. */
  function Tag(p: Platform): (t: string)
    requires p != Other
    ensures forall k :: 0 <= k < |t| ==> !('A' <= t[k] <= 'Z')
  {
    match p
    case Instagram => "instagram"
    case Twitter => "twitter"
    case WhatsApp => "whatsapp"
    case Email => "email"
    case LinkedIn => "linkedin"
    case Website => "website"
    case Custom => "custom"
  }

  /** `platform?.toLowerCase()` followed by the `case` labels: a missing
      platform and every unlisted tag fall to `Other`. */
  function Classify(platform: Option<string>): (p: Platform)
    ensures platform.None? ==> p == Other
    ensures p != Other ==> platform.Some? && ToLower(platform.value) == Tag(p)
  {
    match platform
    case None => Other
    case Some(s) => MatchLabel(ToLower(s))
  }

  /** The `case` labels, tried in order on the lowered platform. */
  function MatchLabel(l: string): (p: Platform)
    ensures p != Other ==> l == Tag(p)
  {
    if l == "instagram" then Instagram
    else if l == "twitter" then Twitter
    else if l == "whatsapp" then WhatsApp
    else if l == "email" then Email
    else if l == "linkedin" then LinkedIn
    else if l == "website" then Website
    else if l == "custom" then Custom
    else Other
  }

  /** Each recognised tag is classified as its own platform. */
  lemma ClassifyTag(p: Platform)
    requires p != Other
    ensures Classify(Some(Tag(p))) == p
  {
  }

  /** A string is classified as a recognised platform exactly when its
      lower-cased form is that platform's tag. */
  lemma ClassifyIsTagMatch(s: string, p: Platform)
    requires p != Other
    ensures Classify(Some(s)) == p <==> ToLower(s) == Tag(p)
  {
  }

  /** Dispatch ignores case: a tag and its lower-cased form take the same arm. */
  lemma ClassifyIgnoresCase(s: string)
    ensures Classify(Some(s)) == Classify(Some(ToLower(s)))
  {
    ToLowerIdempotent(s);
  }

  /** Icon categories of the link icons (`lucide-react` components). */
  datatype Icon = InstagramIcon | LinkedinIcon | TwitterIcon | MessageCircleIcon | MailIcon | GlobeIcon | LinkIcon

  /** `getLinkIcon`: six platforms get their own icon, `custom`, missing and
      unknown platforms share the generic link icon. */
  function LinkIconFor(platform: Option<string>): (icon: Icon)
    ensures icon == LinkIcon <==> Classify(platform) in {Custom, Other}
  {
    match Classify(platform)
    case Instagram => InstagramIcon
    case LinkedIn => LinkedinIcon
    case Twitter => TwitterIcon
    case WhatsApp => MessageCircleIcon
    case Email => MailIcon
    case Website => GlobeIcon
    case _ => LinkIcon
  }

  /** The six specific icons are distinct: two platforms showing the same
      non-generic icon are the same platform. */
  lemma LinkIconDistinct(p: Option<string>, q: Option<string>)
    requires LinkIconFor(p) != LinkIcon
    ensures LinkIconFor(p) == LinkIconFor(q) <==> Classify(p) == Classify(q)
  {
  }

  /** `getPlaceholder`: a fixed hint for each of the seven tags, and
      "Enter value" for everything else. */
  function Placeholder(platform: Option<string>): (hint: string)
    ensures hint == "Enter value" <==> Classify(platform) == Other
    ensures hint == "@username or username" <==> Classify(platform) in {Instagram, Twitter}
  {
    match Classify(platform)
    case Instagram => "@username or username"
    case Twitter => "@username or username"
    case WhatsApp => "Phone number (with country code)"
    case Email => "email@example.com"
    case LinkedIn => "Profile URL or username"
    case Website => "https://your-website.com"
    case Custom => "https://..."
    case Other => "Enter value"
  }
}
