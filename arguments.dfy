/** The argument checks of `get_draftsets`, `submit_to` and the `Draftset`
    constructor. Each check turns the string the caller passed into a value of a
    small enumeration, or fails with the `assert` the client runs. */
module Arguments {
  import opened Values

  /** Which draftsets a listing returns. */
  datatype Include = Owned | Claimable | All

  function IncludeName(i: Include): string {
    match i
    case Owned => "owned"
    case Claimable => "claimable"
    case All => "all"
  }

  const IncludeNames: seq<string> := ["owned", "claimable", "all"]

  /** The `include` check of `get_draftsets`: one of the three filter names,
      and nothing else. */
  function ParseInclude(filter: string): (r: Result<Include>)
    ensures r.Ok? <==> filter in IncludeNames
    ensures r.Ok? ==> IncludeName(r.value) == filter
    ensures r.Err? ==> r.error == AssertionFailed(IncludeFilter)
  {
    if filter == "owned" then Ok(Owned)
    else if filter == "claimable" then Ok(Claimable)
    else if filter == "all" then Ok(All)
    else Err(AssertionFailed(IncludeFilter))
  }

  /** Every filter survives the trip through its name. */
  lemma IncludeRoundTrip(i: Include)
    ensures ParseInclude(IncludeName(i)) == Ok(i)
  {
  }

  /** The two kinds of resource the service calls a draftset. */
  datatype DraftsetKind = Endpoint | Draft

  function KindName(k: DraftsetKind): string {
    match k
    case Endpoint => "Endpoint"
    case Draft => "Draftset"
  }

  /** The type check of the `Draftset` constructor, applied to the decoded
      `type` value: only the strings `Endpoint` and `Draftset` are accepted. */
  function ParseKind(t: Json): (r: Result<DraftsetKind>)
    ensures r.Ok? <==> t == JStr("Endpoint") || t == JStr("Draftset")
    ensures r.Ok? ==> t == JStr(KindName(r.value))
    ensures r.Err? ==> r.error == AssertionFailed(DraftsetType)
  {
    if t == JStr("Endpoint") then Ok(Endpoint)
    else if t == JStr("Draftset") then Ok(Draft)
    else Err(AssertionFailed(DraftsetType))
  }

  /** The roles whose review pools a draftset can be submitted to. */
  datatype Role = Editor | Publisher | Manager

  function RoleName(r: Role): string {
    match r
    case Editor => "editor"
    case Publisher => "publisher"
    case Manager => "manager"
  }

  const RoleNames: seq<string> := ["editor", "publisher", "manager"]

  /** Who a submitted draftset is handed to: a role's pool or one user. */
  datatype Recipient = Pool(role: Role) | User(name: string)

  /** The `(role, user)` keyword arguments that name `rc`. */
  function RecipientArguments(rc: Recipient): (Option<string>, Option<string>) {
    match rc
    case Pool(role) => (Some(RoleName(role)), None)
    case User(name) => (None, Some(name))
  }

  function RoleOf(name: string): Role
    requires name in RoleNames
  {
    if name == "editor" then Editor
    else if name == "publisher" then Publisher
    else Manager
  }

  /** The checks of `submit_to`, in the order it runs them: the role is listed
      or absent, then exactly one of role and user is truthy. An empty user name
      counts as no user, so `role="editor", user=""` is accepted as a submission
      to the editors' pool. */
  function ParseRecipient(role: Option<string>, user: Option<string>): (r: Result<Recipient>)
    ensures r.Ok? <==> AbsentOrIn(role, RoleNames) && Truthy(role) != Truthy(user)
    ensures !AbsentOrIn(role, RoleNames) ==> r == Err(AssertionFailed(SubmitRole))
    ensures AbsentOrIn(role, RoleNames) && Truthy(role) == Truthy(user) ==>
              r == Err(AssertionFailed(SingleRecipient))
    ensures r.Ok? && r.value.Pool? ==> role == Some(RoleName(r.value.role)) && !Truthy(user)
    ensures r.Ok? && r.value.User? ==> role.None? && user == Some(r.value.name) && r.value.name != ""
  {
    if !AbsentOrIn(role, RoleNames) then Err(AssertionFailed(SubmitRole))
    else if Truthy(role) == Truthy(user) then Err(AssertionFailed(SingleRecipient))
    else if Truthy(role) then Ok(Pool(RoleOf(role.value)))
    else Ok(User(user.value))
  }

  /** A recipient passed as its own keyword arguments is accepted and comes
      back unchanged, as long as a user is named by a non-empty string. */
  lemma RecipientRoundTrip(rc: Recipient)
    requires rc.User? ==> rc.name != ""
    ensures ParseRecipient(RecipientArguments(rc).0, RecipientArguments(rc).1) == Ok(rc)
  {
  }
}
