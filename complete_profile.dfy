/**
 * The profile form (src/app/complete-profile/page.tsx): the role choices,
 * the redirect of a signed-out visitor, and the submit handler that writes
 * one profile row keyed by the signed-in user's id.
 */
module CompleteProfile {
  import opened Wrappers
  import opened Backend
  import opened Roles
  import DashboardPage

  /** One entry of the role selector: the stored value and the text shown. */
  datatype RoleOption = RoleOption(value: string, caption: string)

  const RoleOptions: seq<RoleOption> :=
    [RoleOption("sales", "Sales"), RoleOption("pm", "Project Manager"), RoleOption("dev", "Developer")]

  /** The role a fresh form starts with. */
  const DefaultRole := "sales"

  /**
   * The selector offers exactly the recognised role tags, the default among
   * them, and each is captioned with the name the dashboard greets it by.
   */
  lemma RoleOptionsAgreeWithRoles()
    ensures forall o :: o in RoleOptions ==> o.value in KnownTags
    ensures forall tag :: tag in KnownTags ==> exists o :: o in RoleOptions && o.value == tag
    ensures exists o :: o in RoleOptions && o.value == DefaultRole
    ensures forall o :: o in RoleOptions ==> DashboardPage.DisplayName(RoleOf(o.value)) == o.caption
  {
    assert RoleOptions[0].value == "sales" && RoleOptions[1].value == "pm" && RoleOptions[2].value == "dev";
  }

  /** How one submit ends. */
  datatype SubmitOutcome = NotAuthenticated | SaveFailed(message: string) | Saved

  /**
   * The calls one submit makes: the user, and only when a user is present
   * one upsert of `(user id, name, user email, role)` into `profiles`. An
   * error reported beside a present user is not looked at.
   */
  predicate SubmitRun(name: string, role: string, calls: seq<Call>, outcome: SubmitOutcome)
  {
    |calls| >= 1 && calls[0].GetUserCall? &&
    if calls[0].auth.user.None? then |calls| == 1 && outcome == NotAuthenticated
    else
      var user := calls[0].auth.user.value;
      |calls| == 2 && calls[1].UpsertProfileCall? &&
      calls[1] == UpsertProfileCall(ProfilesTable, Profile(user.id, name, user.email, role), calls[1].upsertError) &&
      outcome == (if calls[1].upsertError.Some? then SaveFailed(calls[1].upsertError.value.message) else Saved)
  }

  /** The error line the form shows once a submit has ended. */
  function ErrorText(o: SubmitOutcome): (text: string)
    ensures text == "" <==> o.Saved? || o == SaveFailed("")
  {
    match o
    case NotAuthenticated => "User not authenticated"
    case SaveFailed(m) => m
    case Saved => ""
  }

  /** Where the page navigates after a submit: home, and only after a save. */
  function NextRoute(o: SubmitOutcome): (r: seq<string>)
    ensures r == ["/"] <==> o.Saved?
    ensures r == [] <==> !o.Saved?
  {
    if o.Saved? then ["/"] else []
  }

  /**
   * Nothing is written without a user; whatever is written is that user's own
   * profile, carrying the form's name and role verbatim.
   */
  lemma ProfileWrittenOnlyForUser(name: string, role: string, calls: seq<Call>, outcome: SubmitOutcome)
    requires SubmitRun(name, role, calls, outcome)
    ensures outcome == NotAuthenticated <==> forall c :: c in calls ==> !IsWrite(c)
    ensures forall c :: c in calls && IsWrite(c) ==>
              calls[0].auth.user.Some? && c.UpsertProfileCall? && c.table == ProfilesTable &&
              c.profile == Profile(calls[0].auth.user.value.id, name, calls[0].auth.user.value.email, role)
  {
    if outcome != NotAuthenticated {
      assert calls[1] in calls && IsWrite(calls[1]);
    }
  }

  /**
   * Unlike the upload page, the form goes on to save when authentication
   * reports an error beside a present user.
   */
  lemma SubmitIgnoresAuthError(name: string, role: string, calls: seq<Call>, outcome: SubmitOutcome)
    requires SubmitRun(name, role, calls, outcome)
    requires calls[0].auth.user.Some? && calls[0].auth.error.Some?
    ensures outcome != NotAuthenticated && |calls| == 2
  {
  }

  class CompleteProfilePage {
    const backend: Client
    var name: string
    var role: string
    var loading: bool
    var error: string
    /** The routes pushed onto the router, oldest first. */
    var routes: seq<string>
    /** `(loading, error)` as the form shows them while each backend call is awaited. */
    ghost var whileAwaiting: seq<(bool, string)>

    constructor (backend: Client)
      ensures this.backend == backend
      ensures name == "" && role == DefaultRole && !loading && error == "" && routes == []
      ensures whileAwaiting == []
    {
      this.backend := backend;
      name := "";
      role := DefaultRole;
      loading := false;
      error := "";
      routes := [];
      whileAwaiting := [];
    }

    /** The mount effect: a visitor without a user is sent to `/login`. */
    method CheckAuth()
      modifies this, backend
      ensures |backend.log| == |old(backend.log)| + 1 && backend.log[..|old(backend.log)|] == old(backend.log)
      ensures backend.log[|old(backend.log)|].GetUserCall?
      ensures routes == old(routes) + (if backend.log[|old(backend.log)|].auth.user.None? then ["/login"] else [])
      ensures name == old(name) && role == old(role) && loading == old(loading) && error == old(error)
      ensures whileAwaiting == old(whileAwaiting) + [(old(loading), old(error))]
    {
      whileAwaiting := whileAwaiting + [(loading, error)];
      var auth := backend.GetUser();
      if auth.user.None? {
        routes := routes + ["/login"];
      }
    }

    /**
     * `handleCompleteProfile`: while it waits on the backend the form shows
     * loading and no error; whatever the outcome the form is no longer
     * loading, the error line says why it stopped, and only a save moves on
     * to the home page.
     */
    method HandleCompleteProfile() returns (outcome: SubmitOutcome)
      modifies this, backend
      ensures |old(backend.log)| <= |backend.log| && backend.log[..|old(backend.log)|] == old(backend.log)
      ensures SubmitRun(old(name), old(role), backend.log[|old(backend.log)|..], outcome)
      ensures !loading && error == ErrorText(outcome)
      ensures routes == old(routes) + NextRoute(outcome)
      ensures name == old(name) && role == old(role)
      ensures |whileAwaiting| == |old(whileAwaiting)| + |backend.log| - |old(backend.log)|
      ensures whileAwaiting[..|old(whileAwaiting)|] == old(whileAwaiting)
      ensures forall k :: |old(whileAwaiting)| <= k < |whileAwaiting| ==> whileAwaiting[k] == (true, "")
    {
      ghost var log0 := backend.log;
      loading := true;
      error := "";
      whileAwaiting := whileAwaiting + [(loading, error)];
      var auth := backend.GetUser();
      if auth.user.None? {
        error := "User not authenticated";
        loading := false;
        outcome := NotAuthenticated;
        assert backend.log[|log0|..] == [GetUserCall(auth)];
        return;
      }
      var user := auth.user.value;
      whileAwaiting := whileAwaiting + [(loading, error)];
      var upsertError := backend.UpsertProfile(ProfilesTable, Profile(user.id, name, user.email, role));
      assert backend.log[|log0|..] == [GetUserCall(auth), UpsertProfileCall(ProfilesTable, Profile(user.id, name, user.email, role), upsertError)];
      if upsertError.Some? {
        error := upsertError.value.message;
        loading := false;
        outcome := SaveFailed(upsertError.value.message);
        return;
      }
      loading := false;
      routes := routes + ["/"];
      outcome := Saved;
    }
  }
}
