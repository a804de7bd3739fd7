/**
  The team-member list of src/pages/Users.tsx: adding a user from the form,
  loading a user into the form for editing, saving the edit, deleting a user
  after confirmation and switching a user between Active and Inactive. The
  clock (`Date.now()`, the new user's id) and the answer to `confirm` are
  parameters.
 */
module Users {
  import opened Common
  import Lists

  datatype User = User(id: int, name: string, role: string, email: string, status: string)

  /** The add/edit form's fields. */
  datatype UserForm = UserForm(name: string, role: string, email: string, status: string)

  /** The cleared form. */
  const EmptyForm := UserForm("", "", "", "Active")

  /** The three fields the page insists on are non-empty. */
  predicate Complete(f: UserForm) {
    f.name != "" && f.role != "" && f.email != ""
  }

  /** The page's three initial users. */
  function InitialUsers(): (us: seq<User>)
    ensures |us| == 3
    ensures forall i, j :: 0 <= i < j < |us| ==> us[i].id != us[j].id
  {
    [ User(1, "John Doe", "Admin", "john@company.com", "Active"),
      User(2, "Jane Smith", "Sales Rep", "jane@company.com", "Active"),
      User(3, "Mike Johnson", "Manager", "mike@company.com", "Inactive") ]
  }

  /** The status the toggle button sets: Active becomes Inactive, anything
      else becomes Active. */
  function Toggled(status: string): (r: string)
    ensures r == "Inactive" <==> status == "Active"
    ensures r == "Active" || r == "Inactive"
  {
    if status == "Active" then "Inactive" else "Active"
  }

  /** Toggling twice restores Active and Inactive. */
  lemma ToggledTwice(status: string)
    requires status == "Active" || status == "Inactive"
    ensures Toggled(Toggled(status)) == status
  {
  }

  /** The map of `toggleUserStatus`. */
  function ToggleWhere(users: seq<User>, id: int): (r: seq<User>)
    ensures |r| == |users|
    ensures forall i :: 0 <= i < |users| && users[i].id != id ==> r[i] == users[i]
    ensures forall i :: 0 <= i < |users| && users[i].id == id ==>
      r[i] == users[i].(status := Toggled(users[i].status))
  {
    seq(|users|, i requires 0 <= i < |users| =>
      if users[i].id == id then users[i].(status := Toggled(users[i].status)) else users[i])
  }

  /** The map of `updateUser`: the matching rows take the form's fields and
      keep their id. */
  function UpdateWhere(users: seq<User>, id: int, f: UserForm): (r: seq<User>)
    ensures |r| == |users|
    ensures forall i :: 0 <= i < |users| ==> r[i].id == users[i].id
    ensures forall i :: 0 <= i < |users| && users[i].id != id ==> r[i] == users[i]
    ensures forall i :: 0 <= i < |users| && users[i].id == id ==>
      r[i] == User(id, f.name, f.role, f.email, f.status)
  {
    seq(|users|, i requires 0 <= i < |users| =>
      if users[i].id == id then User(id, f.name, f.role, f.email, f.status) else users[i])
  }

  /** The filter of `deleteUser`: the rows with another id, in order. */
  function WithoutUser(users: seq<User>, id: int): (r: seq<User>)
    ensures Lists.IsSubsequence(r, users)
    ensures forall i :: 0 <= i < |r| ==> r[i].id != id
    ensures forall i :: 0 <= i < |users| && users[i].id != id ==> users[i] in r
    ensures |r| == Lists.Count(users, (u: User) => u.id != id)
  {
    Lists.FilterLength(users, (u: User) => u.id != id);
    Lists.Filter(users, (u: User) => u.id != id)
  }

  /** Toggling the same id twice restores every row whose status was Active
      or Inactive; the list is otherwise untouched. */
  lemma ToggleWhereTwice(users: seq<User>, id: int)
    requires forall i :: 0 <= i < |users| && users[i].id == id ==>
      users[i].status == "Active" || users[i].status == "Inactive"
    ensures ToggleWhere(ToggleWhere(users, id), id) == users
  {
    var once := ToggleWhere(users, id);
    var twice := ToggleWhere(once, id);
    forall i | 0 <= i < |users|
      ensures twice[i] == users[i]
    {
      if users[i].id == id {
        ToggledTwice(users[i].status);
      }
    }
  }

  /** A status outside Active/Inactive becomes Active on the first toggle
      and Inactive on the second: two toggles do not restore it. */
  lemma ToggleTwiceFromOtherStatus(u: User)
    requires u.status != "Active" && u.status != "Inactive"
    ensures ToggleWhere(ToggleWhere([u], u.id), u.id) == [u.(status := "Inactive")]
  {
  }

  /** Deleting removes exactly the rows with the id: a second delete of the
      same id changes nothing, and the rows that stay are all the others. */
  lemma DeleteRemovesExactly(users: seq<User>, id: int)
    ensures WithoutUser(WithoutUser(users, id), id) == WithoutUser(users, id)
    ensures forall u :: u in WithoutUser(users, id) <==> u in users && u.id != id
  {
    Lists.FilterIdempotent(users, (u: User) => u.id != id);
    forall u
      ensures u in WithoutUser(users, id) <==> u in users && u.id != id
    {
      Lists.FilterMembership(users, (u: User) => u.id != id, u);
    }
  }

  /** The page's state. */
  class UserPage {
    var users: seq<User>
    var showAddForm: bool
    var editingUser: Option<User>
    var formData: UserForm

    constructor ()
      ensures users == InitialUsers() && !showAddForm && editingUser == None && formData == EmptyForm
    {
      users := InitialUsers();
      showAddForm := false;
      editingUser := None;
      formData := EmptyForm;
    }

    /** The header button: show or hide the form. */
    method ToggleAddForm()
      modifies this`showAddForm
      ensures showAddForm == !old(showAddForm)
    {
      showAddForm := !showAddForm;
    }

    /** One of the form's inputs changed. */
    method SetForm(f: UserForm)
      modifies this`formData
      ensures formData == f
    {
      formData := f;
    }

    /** `addUser`: with name, role and email filled in, the new user (id
        `now`) goes first, the form is cleared and hidden; otherwise nothing
        changes. */
    method AddUser(now: int)
      modifies this
      ensures !Complete(old(formData)) ==>
        users == old(users) && formData == old(formData) && showAddForm == old(showAddForm)
      ensures Complete(old(formData)) ==>
        && users == [User(now, old(formData).name, old(formData).role, old(formData).email, old(formData).status)] + old(users)
        && formData == EmptyForm && !showAddForm
      ensures editingUser == old(editingUser)
    {
      if Complete(formData) {
        var newUser := User(now, formData.name, formData.role, formData.email, formData.status);
        users := [newUser] + users;
        formData := EmptyForm;
        showAddForm := false;
      }
    }

    /** `editUser`: load the user into the form and show it. */
    method EditUser(u: User)
      modifies this`editingUser, this`formData, this`showAddForm
      ensures editingUser == Some(u)
      ensures formData == UserForm(u.name, u.role, u.email, u.status)
      ensures showAddForm
    {
      editingUser := Some(u);
      formData := UserForm(u.name, u.role, u.email, u.status);
      showAddForm := true;
    }

    /** `updateUser`: with a user being edited and the form complete, the rows
        with that user's id take the form's fields, and the edit ends;
        otherwise nothing changes. */
    method UpdateUser()
      modifies this
      ensures !(old(editingUser).Some? && Complete(old(formData))) ==>
        users == old(users) && editingUser == old(editingUser) && formData == old(formData)
        && showAddForm == old(showAddForm)
      ensures old(editingUser).Some? && Complete(old(formData)) ==>
        && users == UpdateWhere(old(users), old(editingUser).value.id, old(formData))
        && editingUser == None && formData == EmptyForm && !showAddForm
    {
      if editingUser.Some? && Complete(formData) {
        users := UpdateWhere(users, editingUser.value.id, formData);
        editingUser := None;
        formData := EmptyForm;
        showAddForm := false;
      }
    }

    /** `deleteUser(id)` once the user has answered `confirm`. */
    method DeleteUser(id: int, confirmed: bool)
      modifies this`users
      ensures confirmed ==> users == WithoutUser(old(users), id)
      ensures !confirmed ==> users == old(users)
    {
      if confirmed {
        users := WithoutUser(users, id);
      }
    }

    /** `toggleUserStatus(id)`. */
    method ToggleUserStatus(id: int)
      modifies this`users
      ensures users == ToggleWhere(old(users), id)
    {
      users := ToggleWhere(users, id);
    }
  }
}
