/** The registration page (`Register`): a two-step form whose second step
    edits the link rows, and whose submission formats every row before it is
    posted to `/api/auth/register`. */
module Register {
  import opened Api
  import opened LinkList

  /** The body posted to `/api/auth/register`. */
  datatype Registration = Registration(
    email: string, password: string, name: string, phoneNo: string, about: string,
    links: seq<LinkEntry>)

  const RegisterFallback: string := "Failed to register. Please try again."

  /** The page's state: `formData`, `step`, `error` and `loading`. */
  class RegisterForm {
    var email: string
    var password: string
    var name: string
    var phoneNo: string
    var about: string
    var links: seq<LinkEntry>
    var step: int
    var error: string
    var loading: bool

    /** The step is 1 or 2, and every row whose platform is `custom` is
        flagged as custom. */
    predicate Valid()
      reads this
    {
      (step == 1 || step == 2) && CustomRowsFlagged(links)
    }

    /** The state the page mounts with. */
    constructor ()
      ensures Valid()
      ensures email == "" && password == "" && name == "" && phoneNo == "" && about == ""
      ensures links == [] && step == 1 && error == "" && !loading
    {
      email, password, name, phoneNo, about := "", "", "", "", "";
      links := [];
      step := 1;
      error := "";
      loading := false;
    }

    /** `handleNext`: move on to the links step. */
    method Next()
      requires Valid()
      modifies this`step
      ensures Valid() && step == 2
    {
      step := 2;
    }

    /** `handleBack`: return to the account step; the links entered so far
        are kept. */
    method Back()
      requires Valid()
      modifies this`step
      ensures Valid() && step == 1
    {
      step := 1;
    }

    /** `addLink`: one blank row at the end. */
    method AddLink()
      requires Valid()
      modifies this`links
      ensures Valid()
      ensures links == old(links) + [Blank]
    {
      AppendBlankKeepsFlags(links);
      links := links + [Blank];
    }

    /** `removeLink(index)`. */
    method RemoveLink(index: int)
      requires Valid()
      modifies this`links
      ensures Valid()
      ensures links == Without(old(links), index)
    {
      WithoutKeepsFlags(links, index);
      links := Without(links, index);
    }

    /** `handleLinkChange(index, field, value)`; the page only calls it with
        the index of a row it displays. */
    method ChangeLink(index: int, field: Field, value: string)
      requires Valid() && 0 <= index < |links|
      modifies this`links
      ensures Valid()
      ensures links == ChangedAt(old(links), index, field, value)
    {
      ChangedAtKeepsFlags(links, index, field, value);
      links := ChangedAt(links, index, field, value);
    }

    /** The synchronous part of `handleSubmit`: clear the error, disable the
        button, and build the body with every row's url formatted. */
    method BeginSubmit() returns (body: Registration)
      requires Valid()
      modifies this`error, this`loading
      ensures Valid() && error == "" && loading
      ensures body == Registration(email, password, name, phoneNo, about, FormatLinks(links))
    {
      error := "";
      loading := true;
      body := Registration(email, password, name, phoneNo, about, FormatLinks(links));
    }

    /** The rest of `handleSubmit`, once the request has settled: on success go
        to the dashboard (the token is stored, which is outside the model), on
        failure show the server's message or the fallback; either way the
        button is enabled again. */
    method EndSubmit(outcome: Outcome) returns (nav: Nav)
      requires Valid()
      modifies this`error, this`loading
      ensures Valid() && !loading
      ensures outcome.Succeeded? ==> nav == GoTo("/dashboard") && error == old(error)
      ensures outcome.Failed? ==> nav == Stay && error == MessageOr(outcome.failure, RegisterFallback)
    {
      match outcome {
        case Succeeded =>
          nav := GoTo("/dashboard");
        case Failed(failure) =>
          nav := Stay;
          error := MessageOr(failure, RegisterFallback);
      }
      loading := false;
    }
  }
}
