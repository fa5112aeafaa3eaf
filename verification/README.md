# EasyNFC front end: link entry and profile list, in Dafny

This project models the link-entry pipeline of the EasyNFC front end and the
profile-list state of its dashboard.

The registration page (`src/pages/register.js`) and the profile creation page
(`src/pages/profile/create.js`) let the user add, edit and remove link rows
`{platform, url, isCustom, customTitle}`. On submission each row's raw value
goes through `formatLinkValue(platform, value)`, which turns a handle, a phone
number, an address or a URL into the link that is posted to the API. The
dashboard (`src/pages/dashboard.js`) lists the account's profiles. It marks
the active one, offers the Create button while there are fewer than five
profiles, switches the active profile and copies a profile's public link.

Modules, one per source component:

- `Text`: the JavaScript string operations the formatter uses, on
  `seq<char>`: `trim`, `toLowerCase`, `replace('@', '')` (first occurrence
  only), `replace(/\D/g, '')` and `startsWith`.
- `Platforms`: the `switch (platform?.toLowerCase())` dispatch shared by
  `getLinkIcon` and `getPlaceholder`. `getLinkIcon` occurs on all three pages
  and `getPlaceholder` on both forms; the copies are identical, so each is
  defined once.
- `LinkFormat`: `formatLinkValue`. The copies at `register.js:86-107` and
  `create.js:93-114` are identical, so one function models both.
- `LinkList`: the row list, the row edits (`addLink`, `removeLink`,
  `handleLinkChange`) and the submission mapping.
- `Api`: how a request ends (success, a failure with or without a response)
  and the `message || fallback` rule.
- `Register`, `CreateProfile`: the two forms as classes whose methods update
  `links`, `step`, `error` and `loading` as the handlers do.
- `Dashboard`: the dashboard state as a class, plus the rendering as a pure
  view function of that state (cards, header button, spinner).

Where the code and the product's description differ, the model follows the
code:

- `value.replace('@', '')` removes only the first `@`, so `@@name` keeps one.
- Emptiness is tested before `trim()`, so a value of spaces yields the bare
  prefix, e.g. `https://instagram.com/`.
- The "already a URL" test is `startsWith('http')`.
- There is no `x` or `business email` alias. Both take the default branch.
- `isCustom` is not "platform is custom". When the platform changes to
  anything but `custom`, it is computed from the row's old platform. The
  preserved invariant is one-directional: a row whose platform is `custom`
  is flagged (`LinkList.CustomRowsFlagged`).

## Model

| member | source | states |
|---|---|---|
| `Text.TrimStart` | src/pages/register.js:89 | the result is a suffix of the input that does not start with white space, and everything cut off is white space |
| `Text.TrimEnd` | src/pages/register.js:89 | the result is a prefix of the input that does not end with white space, and everything cut off is white space |
| `Text.Trim` | src/pages/register.js:89 | `trim()` leaves no white space at either end and never lengthens the value |
| `Text.TrimIsSlice` | src/pages/register.js:89 | what `trim()` keeps is a contiguous middle slice of the input, and both cut-off ends are white space |
| `Text.TrimIdempotent` | src/pages/register.js:89 | trimming a trimmed value changes nothing |
| `Text.ToLower` | src/pages/register.js:90 | `toLowerCase()` keeps the length, lowers every upper-case ASCII letter and keeps every other character |
| `Text.ToLowerIdempotent` | src/pages/register.js:90 | lowering a lowered string changes nothing |
| `Text.IndexOf` | src/pages/register.js:92 | -1 exactly when the character is absent, otherwise the position of its first occurrence |
| `Text.RemoveFirst` | src/pages/register.js:92 | `replace('@', '')` leaves a value without `@` unchanged; otherwise it removes one occurrence, before which there is no `@`, and keeps everything before and after it in order |
| `Text.RemoveFirstAt` | src/pages/profile/create.js:99 | the occurrence removed is the first one: for the first position holding the character, the result is the value with exactly that position cut out |
| `Text.RemoveFirstLeading` | src/pages/register.js:92 | when the value starts with the character, that leading occurrence is the one removed |
| `Text.Digits` | src/pages/register.js:98 | `replace(/\D/g, '')` yields only ASCII digits and is never longer than its input |
| `Text.DigitsConcat` | src/pages/register.js:98 | keeping the digits distributes over concatenation, so the digits keep their order |
| `Text.DigitsCount` | src/pages/register.js:98 | every digit is kept exactly as often as it occurs, and every non-digit is dropped |
| `Text.DigitsOfTrim` | src/pages/register.js:89-98 | trimming first removes no digit |
| `Text.DigitsOfRemoveFirst` | src/pages/register.js:98 | removing the first `+` before dropping non-digits changes nothing |
| `Platforms.Classify` | src/pages/register.js:67-84 | `switch (platform?.toLowerCase())`: a missing platform takes the `default:` arm, and a named arm is taken only when the lowered platform equals its label |
| `Platforms.MatchLabel` | src/pages/profile/create.js:70-89 | the `case` labels: a named arm is chosen only for the string that is its label |
| `Platforms.Tag` | src/pages/profile/create.js:71-85 | every `case` label is already lower case |
| `Platforms.ClassifyTag` | src/pages/profile/create.js:71-85 | each of the seven tags selects its own `case` arm |
| `Platforms.ClassifyIsTagMatch` | src/pages/dashboard.js:95-107 | a platform takes a named arm exactly when its lower-cased form equals that arm's label |
| `Platforms.ClassifyIgnoresCase` | src/pages/dashboard.js:95 | a platform and its lower-cased form take the same arm |
| `Platforms.LinkIconFor` | src/pages/dashboard.js:94-111 | `getLinkIcon` gives the generic link icon exactly for `custom`, missing and unrecognised platforms |
| `Platforms.LinkIconDistinct` | src/pages/dashboard.js:94-111 | the six specific icons are pairwise distinct, so two platforms share a specific icon only when they are the same platform |
| `Platforms.Placeholder` | src/pages/profile/create.js:70-89 | `getPlaceholder` gives "Enter value" exactly for platforms outside the seven tags, and the username hint exactly for `instagram` and `twitter` |
| `LinkFormat.Prefix` | src/pages/register.js:93-105 | each arm's prefix: `mailto:` on `email`, an `https://` URL on the others, ending in `/` on `instagram`/`twitter`; none starts with white space or holds `@` |
| `LinkFormat.FormatLinkValue` | src/pages/profile/create.js:93-114 | empty input gives ""; any other input gives a `mailto:` link on the `email` arm and a link starting with `http` on every other arm |
| `LinkFormat.FormatArm` | src/pages/register.js:90-106 | the `email` arm's result starts with `mailto:` and every other arm's result starts with `http` |
| `LinkFormat.FormatWhitespaceOnly` | src/pages/register.js:87-89 | a non-empty value of white space only yields the bare prefix of its arm |
| `LinkFormat.FormatHandle` | src/pages/register.js:87-96 | on `instagram`/`twitter`, every non-empty value gives the site prefix followed by the trimmed value with its first `@` removed |
| `LinkFormat.FormatDropsLeadingAt` | src/pages/register.js:91-96 | on `instagram`/`twitter`, `@` + name gives the site prefix + name, so `@@name` keeps one `@` |
| `LinkFormat.FormatPlainHandle` | src/pages/register.js:91-96 | on `instagram`/`twitter`, a trimmed name without `@` is appended to the site prefix unchanged, so the link ends in `/name` |
| `LinkFormat.HandleArm` | src/pages/register.js:91-96 | the `instagram`/`twitter` arms append a name without `@` to a prefix ending in `/` |
| `LinkFormat.FormatAtIsOptional` | src/pages/profile/create.js:98-103 | `@name` and `name` give the same link |
| `LinkFormat.FormatWhatsApp` | src/pages/register.js:97-99 | the `whatsapp` link is `https://wa.me/` followed by exactly the input's digits, and everything after the prefix is a digit |
| `LinkFormat.FormatEmail` | src/pages/register.js:100-101 | the `email` link is `mailto:` followed by the trimmed value |
| `LinkFormat.FormatPassThrough` | src/pages/register.js:102-105 | on `linkedin` and the default arm, a trimmed value starting with `http` is returned as is, and any other value gets the arm's prefix |
| `LinkFormat.ArmPassThroughStable` | src/pages/profile/create.js:109-112 | a pass-through arm yields a non-empty trimmed link that the arm maps to itself |
| `LinkFormat.FormatIdempotent` | src/pages/register.js:102-105 | on `linkedin` and the default arm, formatting twice equals formatting once |
| `LinkFormat.FormatHandleNotIdempotent` | src/pages/register.js:91-96 | on `instagram`/`twitter`, formatting an already formatted link wraps it in the prefix a second time |
| `LinkFormat.FormatIgnoresPlatformCase` | src/pages/register.js:90 | the result depends only on the lower-cased platform |
| `LinkList.FilterOutIndex` | src/pages/register.js:129 | the index filter drops exactly the element at the given position, or nothing when no element has it |
| `LinkList.Without` | src/pages/profile/create.js:47-50 | `removeLink(i)` on a row index drops exactly row `i` and keeps the others in order; any other index leaves the list unchanged |
| `LinkList.Edited` | src/pages/register.js:133-149 | the named field takes the new value and the other fields keep theirs; `isCustom` is true iff the platform is being set to `custom` or the row's old platform was `custom` |
| `LinkList.ChangedAt` | src/pages/profile/create.js:52-68 | `handleLinkChange` keeps the length, replaces row `index` by its edited form and changes no other row |
| `LinkList.LeavingCustomKeepsFlag` | src/pages/register.js:141-146 | switching a `custom` row to another platform leaves `isCustom` true |
| `LinkList.StaleFlagClearedByNextEdit` | src/pages/profile/create.js:60-66 | after such a switch, the next edit that does not choose `custom` clears `isCustom` |
| `LinkList.EditKeepsConsistentFlag` | src/pages/register.js:141-146 | editing the url or the title does not change the flag of a row whose flag matches its platform |
| `LinkList.ChoosingCustomSetsFlag` | src/pages/register.js:135-140 | choosing `custom` always sets the platform to `custom` and `isCustom` to true |
| `LinkList.AppendBlankKeepsFlags` | src/pages/register.js:118-126 | appending the blank row keeps every `custom` row flagged |
| `LinkList.WithoutKeepsFlags` | src/pages/register.js:128-131 | removing a row keeps every `custom` row flagged |
| `LinkList.ChangedAtKeepsFlags` | src/pages/register.js:133-149 | every edit keeps every `custom` row flagged |
| `LinkList.Formatted` | src/pages/register.js:160-163 | a submitted row keeps its platform, `isCustom` and `customTitle` |
| `LinkList.FormatLinks` | src/pages/register.js:158-164 | submission keeps length and order; each row keeps platform, `isCustom` and `customTitle`, and its url becomes the formatted raw value |
| `LinkList.FormatLinksAppend` | src/pages/profile/create.js:142-148 | the submission mapping distributes over concatenation: each row is formatted independently |
| `LinkList.FormatBlankRow` | src/pages/profile/create.js:142-148 | an added blank row is sent unchanged, with an empty url |
| `Api.MessageOr` | src/pages/register.js:179 | the server's message when it is non-empty, otherwise the fallback; never empty when the fallback is not |
| `CreateProfile.FailureEffect` | src/pages/profile/create.js:163-168 | a 401 goes to `/login` and sets no error; any other failure stays and sets the server message or 'Failed to create profile' |
| `Register.RegisterForm.constructor` | src/pages/register.js:29-40 | the form starts on step 1 with empty fields, no links, no error, not loading |
| `Register.RegisterForm.Next` | src/pages/register.js:109-112 | `handleNext` moves to step 2 and changes nothing else |
| `Register.RegisterForm.Back` | src/pages/register.js:114-116 | `handleBack` moves to step 1 and keeps the links |
| `Register.RegisterForm.AddLink` | src/pages/register.js:118-126 | the links become the old links plus one blank row; no other field changes |
| `Register.RegisterForm.RemoveLink` | src/pages/register.js:128-131 | the links become the old links without row `index`; no other field changes |
| `Register.RegisterForm.ChangeLink` | src/pages/register.js:133-149 | only row `index` is replaced by its edited form; no other field changes |
| `Register.RegisterForm.BeginSubmit` | src/pages/register.js:151-164 | clears the error, sets `loading`, and posts the form with every row's url formatted |
| `Register.RegisterForm.EndSubmit` | src/pages/register.js:166-182 | success goes to `/dashboard`; failure shows the server message or the fallback; `loading` ends false either way |
| `CreateProfile.CreateProfileForm.constructor` | src/pages/profile/create.js:24-31 | the form starts empty, without links, error or loading |
| `CreateProfile.CreateProfileForm.AddLink` | src/pages/profile/create.js:37-45 | the links become the old links plus one blank row; no other field changes |
| `CreateProfile.CreateProfileForm.RemoveLink` | src/pages/profile/create.js:47-50 | the links become the old links without row `index`; no other field changes |
| `CreateProfile.CreateProfileForm.ChangeLink` | src/pages/profile/create.js:52-68 | only row `index` is replaced by its edited form; no other field changes |
| `CreateProfile.CreateProfileForm.BeginSubmit` | src/pages/profile/create.js:135-148 | clears the error, sets `loading`, and posts the profile with every row's url formatted |
| `CreateProfile.CreateProfileForm.EndSubmit` | src/pages/profile/create.js:150-171 | success goes to `/dashboard`; 401 goes to `/login` and leaves the cleared error; other failures set the message; `loading` ends false either way |
| `Dashboard.Icons` | src/pages/dashboard.js:189-204 | one icon per link, in order, each `getLinkIcon` of that link's platform |
| `Dashboard.CardFor` | src/pages/dashboard.js:152-216 | a card is highlighted iff its index equals `activeProfile`, shows "Set as Active" iff it is not highlighted, shows the check icon iff its slug equals `copiedSlug`, shows the icons of the profile's links (none when `links` is absent), and its "{n} links" count is the number of those icons |
| `Dashboard.AtMostOneHighlighted` | src/pages/dashboard.js:154-164 | at most one card is highlighted, and it is the card at `activeProfile` |
| `Dashboard.HighlightExactlyActive` | src/pages/dashboard.js:209-216 | every card except the active one offers "Set as Active" |
| `Dashboard.CheckIconOnlyForCopied` | src/pages/dashboard.js:177-181 | only the cards whose `urlSlug` equals `copiedSlug` show the check icon |
| `Dashboard.DashboardState.constructor` | src/pages/dashboard.js:26-30 | the page starts loading, with no profiles, no error, nothing copied and no active profile |
| `Dashboard.DashboardState.Render` | src/pages/dashboard.js:113-246 | the spinner exactly while loading; otherwise the error, the cards of the current state, the header Create button exactly when there are fewer than 5 cards, and the "No profiles yet" panel exactly when there are no cards, in which case the header button is offered too |
| `Dashboard.DashboardState.FetchProfiles` | src/pages/dashboard.js:36-63 | no token: redirect, no request, state unchanged. 401: remove the token and redirect. Other failure: 'Failed to load profiles' and not loading. Success: store the profiles and the returned active index (possibly `null`), not loading |
| `Dashboard.DashboardState.SwitchProfile` | src/pages/dashboard.js:65-82 | `activeProfile` becomes the index only on success; on failure it is unchanged and the error is 'Failed to switch profile' |
| `Dashboard.DashboardState.CopyProfileLink` | src/pages/dashboard.js:84-92 | a successful copy sets `copiedSlug` to the slug; a failed one changes nothing |

## Left out

- HTTP requests, `localStorage`, `router.push` and the clipboard are outside the model. Their results are method inputs (`Outcome`, `FetchOutcome`, a success flag, the token string). Navigation and token removal are method results.
- Register.RegisterForm.EndSubmit: does not model storing the returned token in `localStorage` (register.js:176), because storage is outside the model.
- The two-second reset of `copiedSlug` (dashboard.js:88) is timer-driven and is not modelled.
- The mount effect (dashboard.js:32-34) is not modelled; `FetchProfiles` is called by the environment. As written, that effect's dependency list reads `fetchProfiles` before its `const` declaration at dashboard.js:36.
- `handleSubmit` is split at its `await`. `BeginSubmit` covers the part before the request and `EndSubmit` the part after it settles. Stale or overlapping requests are not modelled.
- `handleChange` (the plain form-field setter) and the password-visibility toggle of register.js are not modelled; they only copy an input's value into the state.
- `handleLinkChange` with an index that is not a displayed row is not modelled: JavaScript would throw or create a hole in the array. `ChangeLink` requires a row index, which is what every caller passes. `removeLink` with such an index is modelled; it is a no-op.
- `trim()` and `toLowerCase()` are modelled on ASCII only. Non-ASCII white space and non-ASCII letters are kept as they are.
- A `data.message` that is present but falsy is treated like a missing one; a non-string message is not modelled.
- A profile's `urlSlug` and a link's `platform` coming back from the API are assumed to be strings. `links` may be absent.
- Markup, CSS, icon components and the help texts under each row are presentation only. Icons are an enumeration of categories.
- src/pages/login.js, src/pages/index.js, src/pages/[slug].js, src/pages/_app.js, src/components/Header.js, src/components/Layout.js and src/middleware/auth.js are not part of this model.
