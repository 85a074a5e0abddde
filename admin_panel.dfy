/** The administration page: the user list merged from profiles and role records, the guard on
    the delete button, and the create-user form. The `manage-users` function is remote; its
    responses are parameters here. */
module AdminPanel {
  import opened Numerics

  /** A profile row: the account id and the shown name. */
  datatype Profile = Profile(userId: string, displayName: string)

  /** A role row; an empty `role` stands for a missing or empty field, which JavaScript treats as
      falsy. */
  datatype RoleRecord = RoleRecord(userId: string, role: string)

  /** `UserItem`: one line of the list. */
  datatype UserItem = UserItem(userId: string, displayName: string, role: string)

  /** The `list-users` payload; `None` is a missing (`undefined` or `null`) array. */
  datatype ListData = ListData(profiles: Option<seq<Profile>>, roles: Option<seq<RoleRecord>>)

  /** A `functions.invoke` response: `error` is `Some(message)` when the call itself failed
      (an empty message stands for a missing one), and `dataError` is the body's `error` text,
      empty when absent. */
  datatype Response = Response(error: Option<string>, dataError: string)

  const FallbackRole: string := "user"
  const AdminRole: string := "admin"
  const DefaultCreateError: string := "Erro ao criar usuário"
  const CreatedText: string := "Usuário criado com sucesso!"

  /** `xs || []`. */
  function OrEmpty<T>(xs: Option<seq<T>>): (r: seq<T>)
    ensures xs.Some? ==> r == xs.value
    ensures xs.None? ==> r == []
  {
    if xs.Some? then xs.value else []
  }

  /** `roles.find(r => r.user_id === id)`: the position of the first record for `id`. */
  function FirstRecord(roles: seq<RoleRecord>, id: string): (k: Option<nat>)
    ensures k.Some? ==> k.value < |roles| && roles[k.value].userId == id &&
                        forall j :: 0 <= j < k.value ==> roles[j].userId != id
    ensures k.None? ==> forall j :: 0 <= j < |roles| ==> roles[j].userId != id
  {
    if |roles| == 0 then None
    else if roles[0].userId == id then Some(0)
    else
      match FirstRecord(roles[1..], id)
      case None => None
      case Some(k) => Some(k + 1)
  }

  /** `userRole?.role || 'user'`. */
  function RoleOf(roles: seq<RoleRecord>, id: string): (role: string)
    ensures role != ""
  {
    match FirstRecord(roles, id)
    case None => FallbackRole
    case Some(k) => if roles[k].role != "" then roles[k].role else FallbackRole
  }

  /** The merge in `fetchUsers`: one item per profile, carrying the profile's id and name. */
  function Merge(profiles: seq<Profile>, roles: seq<RoleRecord>): (users: seq<UserItem>)
    ensures |users| == |profiles|
    ensures forall i :: 0 <= i < |profiles| ==>
              users[i].userId == profiles[i].userId && users[i].displayName == profiles[i].displayName
    ensures forall i :: 0 <= i < |profiles| ==> users[i].role == RoleOf(roles, profiles[i].userId)
  {
    if |profiles| == 0 then []
    else
      [UserItem(profiles[0].userId, profiles[0].displayName, RoleOf(roles, profiles[0].userId))]
        + Merge(profiles[1..], roles)
  }

  /** The list built from a payload, with missing arrays read as empty. */
  function MergedList(data: ListData): (users: seq<UserItem>)
    ensures |users| == |OrEmpty(data.profiles)|
    ensures data.profiles.None? ==> users == []
  {
    Merge(OrEmpty(data.profiles), OrEmpty(data.roles))
  }

  /** Each item's role is the non-empty role of the first record for that user, and `'user'` when
      there is no such record or its role is empty. */
  lemma {:induction false} RoleIsTheFirstRecord(profiles: seq<Profile>, roles: seq<RoleRecord>, i: int, k: int)
    requires 0 <= i < |profiles| && 0 <= k < |roles| && roles[k].userId == profiles[i].userId
    requires forall j :: 0 <= j < k ==> roles[j].userId != profiles[i].userId
    ensures Merge(profiles, roles)[i].role == (if roles[k].role != "" then roles[k].role else FallbackRole)
  {
    assert FirstRecord(roles, profiles[i].userId) == Some(k);
  }

  lemma {:induction false} NoRecordMeansUser(profiles: seq<Profile>, roles: seq<RoleRecord>, i: int)
    requires 0 <= i < |profiles|
    requires forall j :: 0 <= j < |roles| ==> roles[j].userId != profiles[i].userId
    ensures Merge(profiles, roles)[i].role == FallbackRole
  {
  }

  /** Records for other users play no part: dropping any record whose id is not the profile's
      leaves that profile's role as it is. */
  lemma {:induction false} OtherRecordsDoNotMatter(roles: seq<RoleRecord>, other: RoleRecord, id: string)
    requires other.userId != id
    ensures RoleOf([other] + roles, id) == RoleOf(roles, id)
    ensures RoleOf(roles + [other], id) == RoleOf(roles, id)
  {
    assert ([other] + roles)[1..] == roles;
    FirstRecordExtends(roles, other, id);
  }

  lemma {:induction false} FirstRecordExtends(roles: seq<RoleRecord>, other: RoleRecord, id: string)
    requires other.userId != id
    ensures FirstRecord(roles + [other], id) == FirstRecord(roles, id)
    decreases |roles|
  {
    if |roles| > 0 && roles[0].userId != id {
      assert (roles + [other])[1..] == roles[1..] + [other];
      FirstRecordExtends(roles[1..], other, id);
    }
  }

  /** The guard on the delete button: `u.role !== 'admin'`. */
  predicate CanDelete(u: UserItem)
  {
    u.role != AdminRole
  }

  /** A listed user is offered deletion exactly when their first role record does not say
      `'admin'`; users with no record, or an empty role, can always be deleted. */
  lemma {:induction false} DeleteGuard(profiles: seq<Profile>, roles: seq<RoleRecord>, i: int)
    requires 0 <= i < |profiles|
    ensures CanDelete(Merge(profiles, roles)[i]) <==>
              match FirstRecord(roles, profiles[i].userId)
              case None => true
              case Some(k) => roles[k].role != AdminRole
  {
  }

  /** `res.error || res.data?.error`. */
  predicate Failed(res: Response)
  {
    res.error.Some? || res.dataError != ""
  }

  /** `res.data?.error || res.error?.message || 'Erro ao criar usuário'`. */
  function CreateErrorText(res: Response): (text: string)
    ensures text != ""
    ensures res.dataError != "" ==> text == res.dataError
    ensures res.dataError == "" && res.error.Some? && res.error.value != "" ==> text == res.error.value
    ensures res.dataError == "" && (res.error.None? || res.error.value == "") ==>
              text == DefaultCreateError
  {
    if res.dataError != "" then res.dataError
    else if res.error.Some? && res.error.value != "" then res.error.value
    else DefaultCreateError
  }

  /** `handleDeleteUser`: the list is fetched again only when the user confirmed and neither
      kind of error came back. */
  function RefetchAfterDelete(confirmed: bool, res: Response): (refetch: bool)
    ensures refetch <==> confirmed && !Failed(res)
  {
    if !confirmed then false
    else !res.error.Some? && !(res.dataError != "")
  }

  /** The create-user request body. */
  datatype CreateRequest = CreateRequest(email: string, password: string, displayName: string)

  /** The page's state: the list and the create-user form. */
  class Page {
    var users: seq<UserItem>
    var newEmail: string
    var newPassword: string
    var newName: string
    var isCreating: bool
    var error: string
    var success: string

    /** A form that has finished a request shows exactly one of an error and a success text. */
    predicate Settled()
      reads this
    {
      !isCreating && (error == "" || success == "")
    }

    constructor ()
      ensures users == [] && newEmail == "" && newPassword == "" && newName == ""
      ensures !isCreating && error == "" && success == ""
      ensures Settled()
    {
      users := [];
      newEmail, newPassword, newName := "", "", "";
      isCreating, error, success := false, "", "";
    }

    /** `fetchUsers`: without a session or without data the list stays as it was. */
    method FetchUsers(hasSession: bool, data: Option<ListData>)
      modifies this
      ensures hasSession && data.Some? ==> users == MergedList(data.value)
      ensures !(hasSession && data.Some?) ==> users == old(users)
      ensures newEmail == old(newEmail) && newPassword == old(newPassword) && newName == old(newName)
      ensures isCreating == old(isCreating) && error == old(error) && success == old(success)
    {
      if !hasSession {
        return;
      }
      if data.Some? {
        var profiles := OrEmpty(data.value.profiles);
        var roles := OrEmpty(data.value.roles);
        users := Merge(profiles, roles);
      }
    }

    /** The three `onChange` handlers of the form's inputs. */
    method Type(name: string, email: string, password: string)
      modifies this
      ensures newName == name && newEmail == email && newPassword == password
      ensures users == old(users) && isCreating == old(isCreating)
      ensures error == old(error) && success == old(success)
    {
      newName, newEmail, newPassword := name, email, password;
    }

    /** The synchronous part of `handleCreateUser`: both messages cleared and the button
        disabled while the request built from the form is in flight. */
    method SubmitCreate() returns (req: CreateRequest)
      modifies this
      ensures req == CreateRequest(old(newEmail), old(newPassword), old(newName))
      ensures error == "" && success == "" && isCreating
      ensures users == old(users) && newEmail == old(newEmail)
      ensures newPassword == old(newPassword) && newName == old(newName)
    {
      error := "";
      success := "";
      isCreating := true;
      req := CreateRequest(newEmail, newPassword, newName);
    }

    /** The rest of `handleCreateUser` once the response is in: on failure the error text is
        shown and the form is kept; on success the form is emptied and the success text shown.
        Either way the button is enabled again. Returns whether the list is to be fetched
        again. */
    method FinishCreate(res: Response) returns (refetch: bool)
      requires error == "" && success == ""
      modifies this
      ensures refetch <==> !Failed(res)
      ensures Failed(res) ==> error == CreateErrorText(res) && success == "" &&
                              newEmail == old(newEmail) && newPassword == old(newPassword) &&
                              newName == old(newName)
      ensures !Failed(res) ==> success == CreatedText && error == "" &&
                               newEmail == "" && newPassword == "" && newName == ""
      ensures !isCreating && users == old(users)
      ensures Settled() && (error != "" <==> Failed(res))
    {
      if res.error.Some? || res.dataError != "" {
        error := CreateErrorText(res);
        refetch := false;
      } else {
        success := CreatedText;
        newEmail := "";
        newPassword := "";
        newName := "";
        refetch := true;
      }
      isCreating := false;
    }
  }
}
