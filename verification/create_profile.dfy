/** The profile creation page (`CreateProfile`): edits a new profile's name,
    phone number, bio and link rows, and posts it, with every row's url
    formatted, to `/api/profile/create`. */
module CreateProfile {
  import opened Wrappers
  import opened Api
  import opened LinkList

  /** The body posted to `/api/profile/create`. */
  datatype NewProfile = NewProfile(name: string, phoneNo: string, about: string, links: seq<LinkEntry>)

  const CreateFallback: string := "Failed to create profile"

  /** The `catch` arm of `handleSubmit`: a 401 sends the user to `/login`
      and sets no error; any other failure stays on the page with the
      server's message, or the fallback when there is none. */
  function FailureEffect(failure: Failure): (effect: (Nav, Option<string>))
    ensures IsUnauthorized(failure) <==> effect.1.None?
    ensures IsUnauthorized(failure) ==> effect.0 == GoTo("/login")
    ensures !IsUnauthorized(failure) ==> effect.0 == Stay && effect.1 == Some(MessageOr(failure, CreateFallback))
    ensures effect.1.Some? ==> effect.1.value != ""
  {
    if IsUnauthorized(failure) then (GoTo("/login"), None)
    else (Stay, Some(MessageOr(failure, CreateFallback)))
  }

  /** The page's state: `formData`, `error` and `loading`. */
  class CreateProfileForm {
    var name: string
    var phoneNo: string
    var about: string
    var links: seq<LinkEntry>
    var error: string
    var loading: bool

    /** Every row whose platform is `custom` is flagged as custom. */
    predicate Valid()
      reads this
    {
      CustomRowsFlagged(links)
    }

    /** The state the page mounts with. */
    constructor ()
      ensures Valid()
      ensures name == "" && phoneNo == "" && about == "" && links == [] && error == "" && !loading
    {
      name, phoneNo, about := "", "", "";
      links := [];
      error := "";
      loading := false;
    }

    /** `addLink`: one blank row at the end. */
    method AddLink()
      requires Valid()
      modifies this`links
      ensures Valid()
      ensures links == old(links) + [Blank]
    {
      AppendBlankKeepsFlags(links);
      links := links + [Blank];
    }

    /** `removeLink(index)`. */
    method RemoveLink(index: int)
      requires Valid()
      modifies this`links
      ensures Valid()
      ensures links == Without(old(links), index)
    {
      WithoutKeepsFlags(links, index);
      links := Without(links, index);
    }

    /** `handleLinkChange(index, field, value)`; the page only calls it with
        the index of a row it displays. */
    method ChangeLink(index: int, field: Field, value: string)
      requires Valid() && 0 <= index < |links|
      modifies this`links
      ensures Valid()
      ensures links == ChangedAt(old(links), index, field, value)
    {
      ChangedAtKeepsFlags(links, index, field, value);
      links := ChangedAt(links, index, field, value);
    }

    /** The synchronous part of `handleSubmit`: clear the error, disable the
        button, and build the body with every row's url formatted. */
    method BeginSubmit() returns (body: NewProfile)
      requires Valid()
      modifies this`error, this`loading
      ensures Valid() && error == "" && loading
      ensures body == NewProfile(name, phoneNo, about, FormatLinks(links))
    {
      error := "";
      loading := true;
      body := NewProfile(name, phoneNo, about, FormatLinks(links));
    }

    /** The rest of `handleSubmit`, once the request has settled: success goes
        to the dashboard, a failure is classified by `FailureEffect`; either
        way the button is enabled again. */
    method EndSubmit(outcome: Outcome) returns (nav: Nav)
      requires Valid()
      modifies this`error, this`loading
      ensures Valid() && !loading
      ensures outcome.Succeeded? ==> nav == GoTo("/dashboard") && error == old(error)
      ensures outcome.Failed? && IsUnauthorized(outcome.failure) ==>
        nav == GoTo("/login") && error == old(error)
      ensures outcome.Failed? && !IsUnauthorized(outcome.failure) ==>
        nav == Stay && error == MessageOr(outcome.failure, CreateFallback)
    {
      match outcome {
        case Succeeded =>
          nav := GoTo("/dashboard");
        case Failed(failure) =>
          var (to, message) := FailureEffect(failure);
          nav := to;
          if message.Some? {
            error := message.value;
          }
      }
      loading := false;
    }
  }
}
