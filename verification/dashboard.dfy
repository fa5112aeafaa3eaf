/** The dashboard (`Dashboard`): lists the account's profiles, marks the
    active one, lets the user switch the active profile and copy a profile's
    public link. The requests and the clipboard are outside the model; their
    results are inputs. */
module Dashboard {
  import opened Wrappers
  import opened Api
  import opened Platforms
  import opened LinkList

  /** A profile as `/api/profile/all` returns it; `links` may be absent. */
  datatype Profile = Profile(name: string, about: string, urlSlug: string, links: Option<seq<LinkEntry>>)

  /** How the `/api/profile/all` request ended; a `null` or missing
      `activeProfile` is `None`. */
  datatype FetchOutcome = Fetched(profiles: seq<Profile>, activeProfile: Option<int>) | FetchFailed(failure: Failure)

  /** What `fetchProfiles` does outside the page's state. */
  datatype SessionEffect = SessionEffect(requested: bool, tokenRemoved: bool, nav: Nav)

  /** The header's Create button is offered while there are fewer than five
      profiles. */
  const MaxProfiles: nat := 5

  /** What one profile card shows. */
  datatype Card = Card(
    highlighted: bool,      // `border-blue-500` and `ring-2`
    setActiveButton: bool,  // "Set as Active"
    checkIcon: bool,        // the copy button shows the check mark
    linkCount: nat,         // "{n} links"
    icons: seq<Icon>)       // one icon per link

  /** What the page renders: the spinner while loading, otherwise the error
      banner, the header's Create button, the "No profiles yet" panel with
      its own Create button, and the cards. */
  datatype Screen = Spinner | Page(error: string, createButton: bool, emptyState: bool, cards: seq<Card>)

  /** `profile.links?.length || 0`. */
  function LinkCount(p: Profile): nat {
    match p.links
    case None => 0
    case Some(links) => |links|
  }

  /** The icons of a card's links, in order. */
  function Icons(links: seq<LinkEntry>): (icons: seq<Icon>)
    ensures |icons| == |links|
    ensures forall k :: 0 <= k < |links| ==> icons[k] == LinkIconFor(Some(links[k].platform))
  {
    if links == [] then [] else [LinkIconFor(Some(links[0].platform))] + Icons(links[1..])
  }

  /** The card of the profile at `index`. */
  function CardFor(p: Profile, index: int, active: Option<int>, copiedSlug: string): (c: Card)
    ensures c.highlighted <==> active == Some(index)
    ensures c.setActiveButton <==> !c.highlighted
    ensures c.checkIcon <==> copiedSlug == p.urlSlug
    ensures p.links.None? ==> c.icons == []
    ensures p.links.Some? ==> c.icons == Icons(p.links.value)
    ensures c.linkCount == |c.icons|
  {
    var highlighted := active == Some(index);
    Card(highlighted, !highlighted, copiedSlug == p.urlSlug, LinkCount(p),
         match p.links case None => [] case Some(links) => Icons(links))
  }

  /** `profiles.map((profile, index) => ...)`: one card per profile, in
      order, each built from its own index. */
  function Cards(profiles: seq<Profile>, active: Option<int>, copiedSlug: string): (cards: seq<Card>)
    ensures |cards| == |profiles|
    ensures forall k :: 0 <= k < |profiles| ==> cards[k] == CardFor(profiles[k], k, active, copiedSlug)
  {
    seq(|profiles|, k requires 0 <= k < |profiles| => CardFor(profiles[k], k, active, copiedSlug))
  }

  /** At most one card is highlighted, and it is the card at the active index. */
  lemma AtMostOneHighlighted(profiles: seq<Profile>, active: Option<int>, copiedSlug: string, i: int, j: int)
    requires 0 <= i < |profiles| && 0 <= j < |profiles|
    requires Cards(profiles, active, copiedSlug)[i].highlighted
    requires Cards(profiles, active, copiedSlug)[j].highlighted
    ensures i == j && active == Some(i)
  {
  }

  /** With the active index on a card, exactly that card is highlighted and
      every other card offers "Set as Active"; with it elsewhere (or `null`)
      every card offers it. */
  lemma HighlightExactlyActive(profiles: seq<Profile>, active: Option<int>, copiedSlug: string)
    ensures var cards := Cards(profiles, active, copiedSlug);
      forall k :: 0 <= k < |cards| ==>
        (cards[k].highlighted <==> active == Some(k)) && (cards[k].setActiveButton <==> active != Some(k))
  {
  }

  /** Only the cards whose slug is the copied slug show the check mark. */
  lemma CheckIconOnlyForCopied(profiles: seq<Profile>, active: Option<int>, copiedSlug: string)
    ensures var cards := Cards(profiles, active, copiedSlug);
      forall k :: 0 <= k < |cards| ==> (cards[k].checkIcon <==> profiles[k].urlSlug == copiedSlug)
  {
  }

  /** The page's state. */
  class DashboardState {
    var profiles: seq<Profile>
    var loading: bool
    var error: string
    var copiedSlug: string
    var activeProfile: Option<int>

    /** The state the page mounts with: loading, nothing active. */
    constructor ()
      ensures profiles == [] && loading && error == "" && copiedSlug == "" && activeProfile == None
    {
      profiles := [];
      loading := true;
      error := "";
      copiedSlug := "";
      activeProfile := None;
    }

    /** `profiles.length < 5`. */
    predicate CreateButtonShown()
      reads this
    {
      |profiles| < MaxProfiles
    }

    /** The page as rendered from the current state. */
    function Render(): (screen: Screen)
      reads this
      ensures screen.Spinner? <==> loading
      ensures screen.Page? ==> screen.error == error && screen.cards == Cards(profiles, activeProfile, copiedSlug)
      ensures screen.Page? ==> (screen.createButton <==> |screen.cards| < MaxProfiles)
      ensures screen.Page? ==> (screen.emptyState <==> screen.cards == [])
      ensures screen.Page? && screen.emptyState ==> screen.createButton
    {
      if loading then Spinner
      else Page(error, CreateButtonShown(), |profiles| == 0, Cards(profiles, activeProfile, copiedSlug))
    }

    /** `fetchProfiles(token)`: no token means no request and a redirect; a
        401 removes the token and redirects; another failure shows an error
        and stops loading; success stores the profiles and the active index. */
    method FetchProfiles(token: string, outcome: FetchOutcome) returns (effect: SessionEffect)
      modifies this`profiles, this`activeProfile, this`loading, this`error
      ensures token == "" ==> effect == SessionEffect(false, false, GoTo("/login"))
      ensures token == "" ==> unchanged(this)
      ensures token != "" && outcome.Fetched? ==>
        effect == SessionEffect(true, false, Stay) &&
        profiles == outcome.profiles && activeProfile == outcome.activeProfile &&
        !loading && error == old(error)
      ensures token != "" && outcome.FetchFailed? && IsUnauthorized(outcome.failure) ==>
        effect == SessionEffect(true, true, GoTo("/login")) && unchanged(this)
      ensures token != "" && outcome.FetchFailed? && !IsUnauthorized(outcome.failure) ==>
        effect == SessionEffect(true, false, Stay) &&
        error == "Failed to load profiles" && !loading &&
        profiles == old(profiles) && activeProfile == old(activeProfile)
    {
      if token == "" {
        return SessionEffect(false, false, GoTo("/login"));
      }
      match outcome {
        case Fetched(fetched, active) =>
          profiles := fetched;
          activeProfile := active;
          loading := false;
          effect := SessionEffect(true, false, Stay);
        case FetchFailed(failure) =>
          if IsUnauthorized(failure) {
            effect := SessionEffect(true, true, GoTo("/login"));
          } else {
            error := "Failed to load profiles";
            loading := false;
            effect := SessionEffect(true, false, Stay);
          }
      }
    }

    /** `switchProfile(index)`: the active index moves only once the request
        has succeeded; a failure leaves it and shows an error. */
    method SwitchProfile(index: int, succeeded: bool)
      modifies this`activeProfile, this`error
      ensures succeeded ==> activeProfile == Some(index) && error == old(error)
      ensures !succeeded ==> activeProfile == old(activeProfile) && error == "Failed to switch profile"
    {
      if succeeded {
        activeProfile := Some(index);
      } else {
        error := "Failed to switch profile";
      }
    }

    /** `copyProfileLink(slug)`: a successful copy marks `slug` as copied; a
        failed one changes nothing on the page. */
    method CopyProfileLink(slug: string, succeeded: bool)
      modifies this`copiedSlug
      ensures copiedSlug == if succeeded then slug else old(copiedSlug)
    {
      if succeeded {
        copiedSlug := slug;
      }
    }
  }
}
