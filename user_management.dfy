/** The admin user panel, src/components/UserManagement.tsx: adding a user
    through the dialog, deleting one, the search filter, the role badge
    colours and which users offer a delete control. */
module UserManagement {
  import opened Common

  /** `UserData`. `role` is "EMPLOYEE" or "ADMIN". */
  datatype UserRecord = UserRecord(
    id: string,
    name: string,
    email: string,
    role: string,
    createdAt: string,
    invoiceCount: Option<nat>)

  /** The add-user form, `newUser`. */
  datatype Draft = Draft(name: string, email: string, role: string)

  const EmptyDraft := Draft("", "", "EMPLOYEE")

  const FillInMessage := "Please fill in all fields"
  const AddedMessage := "User added successfully"
  const DeletedMessage := "User deleted successfully"

  /** The record `handleAddUser` appends. The id (`Date.now()`) and the
      creation stamp are inputs. */
  function NewUser(d: Draft, id: string, createdAt: string): (u: UserRecord)
    ensures u.name == d.name && u.email == d.email && u.role == d.role
    ensures u.id == id && u.createdAt == createdAt && u.invoiceCount == Some(0)
  {
    UserRecord(id, d.name, d.email, d.role, createdAt, Some(0))
  }

  /** `filteredUsers`: the term occurs, ignoring case, in the name or the
      email. */
  predicate MatchesSearch(u: UserRecord, term: string) {
    MatchesTerm(u.name, term) || MatchesTerm(u.email, term)
  }

  function FilteredUsers(users: seq<UserRecord>, term: string): (r: seq<UserRecord>)
    ensures |r| <= |users|
  {
    Filter(users, (u: UserRecord) => MatchesSearch(u, term))
  }

  /** The list is an order-preserving subsequence of the users holding
      exactly those whose name or email matches. */
  lemma FilteredUsersAreTheMatches(users: seq<UserRecord>, term: string)
    ensures var r, idx := FilteredUsers(users, term), KeptIndices(users, (u: UserRecord) => MatchesSearch(u, term));
      && |r| == |idx|
      && (forall k :: 0 <= k < |idx| ==> idx[k] < |users| && r[k] == users[idx[k]])
      && (forall k, l :: 0 <= k < l < |idx| ==> idx[k] < idx[l])
      && (forall i :: 0 <= i < |users| ==> (MatchesSearch(users[i], term) <==> i in idx))
    ensures forall x :: x in FilteredUsers(users, term) <==>
                          x in users && (MatchesTerm(x.name, term) || MatchesTerm(x.email, term))
  {
    var keep := (u: UserRecord) => MatchesSearch(u, term);
    FilterSpec(users, keep);
    forall x
      ensures x in FilteredUsers(users, term) <==> x in users && keep(x)
    {
      FilterMembership(users, keep, x);
    }
  }

  /** The initial empty search shows every user. */
  lemma EmptySearchShowsAll(users: seq<UserRecord>)
    ensures FilteredUsers(users, "") == users
  {
    forall i | 0 <= i < |users|
      ensures MatchesSearch(users[i], "")
    {
      EmptyTermMatches(users[i].name);
    }
    FilterKeepsAll(users, (u: UserRecord) => MatchesSearch(u, ""));
  }

  /** `handleDeleteUser`'s `filter(user => user.id !== userId)`. */
  function WithoutId(users: seq<UserRecord>, id: string): (r: seq<UserRecord>)
    ensures |r| <= |users|
  {
    Filter(users, (u: UserRecord) => u.id != id)
  }

  /** Deleting removes exactly the users with that id, keeping the others in
      order. */
  lemma DeleteRemovesExactlyTheId(users: seq<UserRecord>, id: string)
    ensures forall x :: x in WithoutId(users, id) <==> x in users && x.id != id
    ensures var r, idx := WithoutId(users, id), KeptIndices(users, (u: UserRecord) => u.id != id);
      && |r| == |idx|
      && (forall k :: 0 <= k < |idx| ==> idx[k] < |users| && r[k] == users[idx[k]])
      && (forall k, l :: 0 <= k < l < |idx| ==> idx[k] < idx[l])
      && (forall i :: 0 <= i < |users| ==> (users[i].id != id <==> i in idx))
  {
    var keep := (u: UserRecord) => u.id != id;
    FilterSpec(users, keep);
    forall x
      ensures x in WithoutId(users, id) <==> x in users && keep(x)
    {
      FilterMembership(users, keep, x);
    }
  }

  /** The card renders the delete button only for a non-admin user. */
  predicate OffersDelete(u: UserRecord) {
    u.role != "ADMIN"
  }

  predicate DistinctIds(users: seq<UserRecord>) {
    forall i, j :: 0 <= i < j < |users| ==> users[i].id != users[j].id
  }

  /** With distinct ids, deleting through an offered control never removes
      an admin: the only user removed is the non-admin whose button it was. */
  lemma OfferedDeleteKeepsAdmins(users: seq<UserRecord>, u: UserRecord)
    requires DistinctIds(users)
    requires u in users && OffersDelete(u)
    ensures forall a :: a in users && a.role == "ADMIN" ==> a in WithoutId(users, u.id)
    ensures u !in WithoutId(users, u.id)
  {
    DeleteRemovesExactlyTheId(users, u.id);
    forall a | a in users && a.role == "ADMIN"
      ensures a.id != u.id
    {
      var i :| 0 <= i < |users| && users[i] == a;
      var j :| 0 <= j < |users| && users[j] == u;
      assert i != j;
    }
  }

  /** A handler suspended in its 500 ms `await`: an add holding the draft
      it read when clicked, or a delete holding its user id. Timeouts of the
      same length fire in the order they were set. */
  datatype Pending = PendingAdd(draft: Draft) | PendingDelete(userId: string)

  /** The component's state. */
  class UserPanel {
    var users: seq<UserRecord>
    var searchTerm: string
    var draft: Draft
    var dialogOpen: bool
    var notices: seq<Toast>
    /** The handlers waiting for their delay, oldest first. */
    var pending: seq<Pending>

    constructor ()
      ensures users == [] && searchTerm == "" && draft == EmptyDraft && !dialogOpen && notices == []
      ensures pending == []
    {
      users := [];
      searchTerm := "";
      draft := EmptyDraft;
      dialogOpen := false;
      notices := [];
      pending := [];
    }

    /** The dialog's inputs and role select write the draft. */
    method EditDraft(d: Draft)
      modifies this
      ensures draft == d
      ensures users == old(users) && searchTerm == old(searchTerm) && dialogOpen == old(dialogOpen)
      ensures notices == old(notices) && pending == old(pending)
    {
      draft := d;
    }

    /** The Add User button, `handleAddUser` up to its `await`: a missing
        name or email gives an error toast; otherwise the handler waits
        with the draft it read. The button stays enabled while it waits. */
    method ClickAdd()
      modifies this
      ensures users == old(users) && searchTerm == old(searchTerm)
      ensures draft == old(draft) && dialogOpen == old(dialogOpen)
      ensures (old(draft).name == "" || old(draft).email == "") ==>
                notices == old(notices) + [ToastError(FillInMessage)] && pending == old(pending)
      ensures (old(draft).name != "" && old(draft).email != "") ==>
                notices == old(notices) && pending == old(pending) + [PendingAdd(old(draft))]
    {
      if draft.name == "" || draft.email == "" {
        notices := notices + [ToastError(FillInMessage)];
        return;
      }
      pending := pending + [PendingAdd(draft)];
    }

    /** A delete button, `handleDeleteUser` up to its `await`. */
    method ClickDelete(id: string)
      modifies this
      ensures pending == old(pending) + [PendingDelete(id)]
      ensures users == old(users) && searchTerm == old(searchTerm) && draft == old(draft)
      ensures dialogOpen == old(dialogOpen) && notices == old(notices)
    {
      pending := pending + [PendingDelete(id)];
    }

    /** The oldest waiting handler resumes. An add appends the user built
        from the draft it read, resets the form, closes the dialog and
        toasts; `id` and `createdAt` are the clock values it reads. A delete
        filters the current list by its id and toasts. */
    method DelayElapses(id: string, createdAt: string)
      requires pending != []
      modifies this
      ensures pending == old(pending)[1..] && searchTerm == old(searchTerm)
      ensures old(pending)[0].PendingAdd? ==>
                && users == old(users) + [NewUser(old(pending)[0].draft, id, createdAt)]
                && draft == EmptyDraft && !dialogOpen
                && notices == old(notices) + [ToastSuccess(AddedMessage)]
      ensures old(pending)[0].PendingDelete? ==>
                && users == WithoutId(old(users), old(pending)[0].userId)
                && draft == old(draft) && dialogOpen == old(dialogOpen)
                && notices == old(notices) + [ToastSuccess(DeletedMessage)]
    {
      var p := pending[0];
      pending := pending[1..];
      match p
      case PendingAdd(d) =>
        users := users + [NewUser(d, id, createdAt)];
        draft := EmptyDraft;
        dialogOpen := false;
        notices := notices + [ToastSuccess(AddedMessage)];
      case PendingDelete(userId) =>
        users := WithoutId(users, userId);
        notices := notices + [ToastSuccess(DeletedMessage)];
    }
  }

  /** Two clicks on Add User within the delay add the same user twice: the
      second click still reads the filled-in draft. */
  method DoubleClickAddsTwice() returns (p: UserPanel)
    ensures |p.users| == 2 && p.users[0].name == p.users[1].name == "Ann"
    ensures p.notices == [ToastSuccess(AddedMessage), ToastSuccess(AddedMessage)]
  {
    p := new UserPanel();
    p.EditDraft(Draft("Ann", "ann@example.com", "EMPLOYEE"));
    p.ClickAdd();
    p.ClickAdd();
    p.DelayElapses("1", "t1");
    p.DelayElapses("2", "t2");
  }

  const AdminStyle := "bg-purple-500/20 text-purple-400 border-purple-500/30"
  const EmployeeStyle := "bg-blue-500/20 text-blue-400 border-blue-500/30"
  const DefaultStyle := "bg-slate-500/20 text-slate-400 border-slate-500/30"

  /** `getRoleColor`. */
  function RoleColor(role: string): string {
    match role
    case "ADMIN" => AdminStyle
    case "EMPLOYEE" => EmployeeStyle
    case _ => DefaultStyle
  }

  /** ADMIN and EMPLOYEE get different styles, neither of them the default,
      and every other role gets the default. */
  lemma RoleColorsAreDistinct(role: string)
    ensures RoleColor("ADMIN") != RoleColor("EMPLOYEE")
    ensures role == "ADMIN" || role == "EMPLOYEE" ==> RoleColor(role) != DefaultStyle
    ensures role != "ADMIN" && role != "EMPLOYEE" ==> RoleColor(role) == DefaultStyle
  {
  }
}
