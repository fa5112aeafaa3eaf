/** `formatLinkValue(platform, value)`: turns what the user typed into a link
    row into the link that is sent to the API. The registration page and the
    profile creation page carry identical copies of it. */
module LinkFormat {
  import opened Wrappers
  import opened Text
  import opened Platforms

  const InstagramPrefix: string := "https://instagram.com/"
  const TwitterPrefix: string := "https://twitter.com/"
  const WhatsAppPrefix: string := "https://wa.me/"
  const EmailPrefix: string := "mailto:"
  const LinkedInPrefix: string := "https://linkedin.com/in/"
  const WebPrefix: string := "https://"

  /** What each arm puts in front of the (processed) value: `mailto:` on the
      `email` arm, an `https://` URL on every other, ending in `/` on the
      handle arms. No prefix starts with white space or holds an `@`. */
  function Prefix(p: Platform): (r: string)
    ensures r != [] && !IsSpace(r[0]) && '@' !in r
    ensures p == Email ==> r == EmailPrefix
    ensures p != Email ==> WebPrefix <= r
    ensures TakesHandle(p) ==> r[|r| - 1] == '/'
  {
    match p
    case Instagram => InstagramPrefix
    case Twitter => TwitterPrefix
    case WhatsApp => WhatsAppPrefix
    case Email => EmailPrefix
    case LinkedIn => LinkedInPrefix
    case _ => WebPrefix
  }

  /** The arms that return the value unchanged when it already starts with
      `http`: `linkedin` and the `default:` arm. */
  predicate PassesUrlsThrough(p: Platform) {
    p in {LinkedIn, Website, Custom, Other}
  }

  /** The arms that take a user name: `instagram` and `twitter`. */
  predicate TakesHandle(p: Platform) {
    p in {Instagram, Twitter}
  }

  /** The formatter. The emptiness test looks at the raw value, before
      `trim()`; only the first `@` is removed; `+` is removed once and then
      every non-digit. Every non-empty input yields a `mailto:` link on the
      `email` arm and something starting with `http` on every other arm. */
  function FormatLinkValue(platform: Option<string>, value: string): (r: string)
    ensures value == "" ==> r == ""
    ensures value != "" && Classify(platform) == Email ==> EmailPrefix <= r
    ensures value != "" && Classify(platform) != Email ==> "http" <= r
  {
    if value == "" then "" else FormatArm(Classify(platform), Trim(value))
  }

  /** The body of the `switch`, applied to the trimmed value. */
  function FormatArm(p: Platform, v: string): (r: string)
    ensures p == Email ==> EmailPrefix <= r
    ensures p != Email ==> "http" <= r
  {
    match p
    case Instagram => InstagramPrefix + RemoveFirst(v, '@')
    case Twitter => TwitterPrefix + RemoveFirst(v, '@')
    case WhatsApp => WhatsAppPrefix + Digits(RemoveFirst(v, '+'))
    case Email => EmailPrefix + v
    case LinkedIn => if "http" <= v then v else LinkedInPrefix + v
    case _ => if "http" <= v then v else WebPrefix + v
  }

  /** A value of white space only is not empty, so it is trimmed to nothing
      and comes out as the bare prefix of its arm, e.g.
      `https://instagram.com/`. */
  lemma FormatWhitespaceOnly(platform: Option<string>, value: string)
    requires value != "" && AllSpace(value)
    ensures FormatLinkValue(platform, value) == Prefix(Classify(platform))
  {
    TrimAllSpace(value);
  }

  /** `instagram` / `twitter`: a leading `@` is dropped and the rest is kept
      as it is, so `@@name` keeps its second `@`. */
  lemma FormatDropsLeadingAt(platform: Option<string>, name: string)
    requires TakesHandle(Classify(platform))
    requires name == [] || !IsSpace(name[|name| - 1])
    ensures FormatLinkValue(platform, "@" + name) == Prefix(Classify(platform)) + name
  {
    TrimOfGuardedConcat("@", name);
    RemoveFirstLeading('@', name);
  }

  /** `instagram` / `twitter`: a trimmed name without `@` is appended as it
      is, so the link ends in `/name`. */
  lemma FormatPlainHandle(platform: Option<string>, name: string)
    requires TakesHandle(Classify(platform))
    requires name != [] && IsTrimmed(name) && '@' !in name
    ensures FormatLinkValue(platform, name) == Prefix(Classify(platform)) + name
    ensures EndsWith(FormatLinkValue(platform, name), "/" + name)
  {
    var p := Classify(platform);
    TrimOfTrimmed(name);
    assert FormatLinkValue(platform, name) == FormatArm(p, name);
    HandleArm(p, name);
  }

  /** The handle arms append a name without `@` to a prefix ending in `/`. */
  lemma HandleArm(p: Platform, name: string)
    requires TakesHandle(p) && '@' !in name
    ensures FormatArm(p, name) == Prefix(p) + name
    ensures EndsWith(Prefix(p) + name, "/" + name)
  {
    var pre := Prefix(p);
    var r := pre + name;
    assert r[|r| - |name| - 1..] == [pre[|pre| - 1]] + name;
  }

  /** `instagram` / `twitter`: for any non-empty value, the link is the site
      prefix followed by the trimmed value with its first `@` removed, so
      `" @jane"` and `"@jane "` give `.../jane` and `"jane@doe"` gives
      `.../janedoe`. */
  lemma FormatHandle(platform: Option<string>, value: string)
    requires TakesHandle(Classify(platform)) && value != ""
    ensures FormatLinkValue(platform, value) == Prefix(Classify(platform)) + RemoveFirst(Trim(value), '@')
  {
  }

  /** `instagram` / `twitter`: `@name` and `name` give the same link, for a
      trimmed name without `@`. */
  lemma FormatAtIsOptional(platform: Option<string>, name: string)
    requires TakesHandle(Classify(platform))
    requires name != [] && IsTrimmed(name) && '@' !in name
    ensures FormatLinkValue(platform, "@" + name) == FormatLinkValue(platform, name)
  {
    FormatDropsLeadingAt(platform, name);
    FormatPlainHandle(platform, name);
  }

  /** `whatsapp`: after `https://wa.me/` come exactly the digits of the
      input, in their original order; nothing but digits. */
  lemma FormatWhatsApp(platform: Option<string>, value: string)
    requires Classify(platform) == WhatsApp && value != ""
    ensures FormatLinkValue(platform, value) == WhatsAppPrefix + Digits(value)
    ensures var r := FormatLinkValue(platform, value);
      forall k :: |WhatsAppPrefix| <= k < |r| ==> IsDigit(r[k])
  {
    DigitsOfRemoveFirst(Trim(value), '+');
    DigitsOfTrim(value);
  }

  /** `email`: `mailto:` followed by the trimmed value, nothing else checked. */
  lemma FormatEmail(platform: Option<string>, value: string)
    requires Classify(platform) == Email && value != ""
    ensures FormatLinkValue(platform, value) == EmailPrefix + Trim(value)
  {
  }

  /** `linkedin` and the `default:` arm: a trimmed value starting with `http`
      is returned as it is, any other gets the arm's prefix. */
  lemma FormatPassThrough(platform: Option<string>, value: string)
    requires PassesUrlsThrough(Classify(platform)) && value != ""
    ensures "http" <= Trim(value) ==> FormatLinkValue(platform, value) == Trim(value)
    ensures !("http" <= Trim(value)) ==>
      FormatLinkValue(platform, value) == Prefix(Classify(platform)) + Trim(value)
  {
  }

  /** On a pass-through arm, a trimmed value comes out as a non-empty,
      trimmed link starting with `http`, which the arm returns unchanged. */
  lemma ArmPassThroughStable(p: Platform, v: string)
    requires PassesUrlsThrough(p) && IsTrimmed(v)
    ensures var r := FormatArm(p, v); r != [] && IsTrimmed(r) && FormatArm(p, r) == r
  {
    var r := FormatArm(p, v);
    if !("http" <= v) {
      var pre := Prefix(p);
      assert r == pre + v;
      assert pre[..4] == "http";
      assert "http" <= r by {
        assert r[..4] == pre[..4];
      }
      TrimOfGuardedConcat(pre, v);
    }
  }

  /** On `linkedin` and the `default:` arm, formatting a formatted link
      changes nothing. */
  lemma FormatIdempotent(platform: Option<string>, value: string)
    requires PassesUrlsThrough(Classify(platform))
    ensures FormatLinkValue(platform, FormatLinkValue(platform, value)) == FormatLinkValue(platform, value)
  {
    if value != "" {
      var p := Classify(platform);
      var r := FormatArm(p, Trim(value));
      assert FormatLinkValue(platform, value) == r;
      ArmPassThroughStable(p, Trim(value));
      TrimOfTrimmed(r);
      assert FormatLinkValue(platform, r) == FormatArm(p, r);
    }
  }

  /** The handle arms are not idempotent: formatting a formatted Instagram or
      Twitter link wraps it in the prefix a second time. */
  lemma FormatHandleNotIdempotent(platform: Option<string>, name: string)
    requires TakesHandle(Classify(platform))
    requires name != [] && IsTrimmed(name) && '@' !in name
    ensures var once := FormatLinkValue(platform, name);
      FormatLinkValue(platform, once) == Prefix(Classify(platform)) + once != once
  {
    var p := Classify(platform);
    FormatPlainHandle(platform, name);
    HandleShape(p, name);
    FormatPlainHandle(platform, Prefix(p) + name);
  }

  /** A handle link is itself a trimmed name without `@`. */
  lemma HandleShape(p: Platform, name: string)
    requires name != [] && IsTrimmed(name) && '@' !in name
    ensures var once := Prefix(p) + name; once != [] && IsTrimmed(once) && '@' !in once
  {
    var pre := Prefix(p);
    var once := pre + name;
    assert once[0] == pre[0] && once[|once| - 1] == name[|name| - 1];
  }

  /** Only the lower-cased platform matters. */
  lemma FormatIgnoresPlatformCase(platform: string, value: string)
    ensures FormatLinkValue(Some(platform), value) == FormatLinkValue(Some(ToLower(platform)), value)
  {
    ClassifyIgnoresCase(platform);
  }
}
