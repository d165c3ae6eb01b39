/** The Users page (frontend/src/pages/Users.tsx): the form dialog and its `fetch` mutations. */
module UsersPage {
  import opened Wrappers
  import opened ClientApi
  import Json

  /** The page's own `User` interface: the id is a string and the creation time is `createdAt`. */
  datatype User = User(id: string, name: string, email: string, phone: string, role: string, createdAt: string)

  datatype Form = Form(name: string, email: string, phone: string, role: string)

  /** The JSON body of POST /api/users: exactly the four form fields. */
  function CreateBody(form: Form): (obj: Json.Object)
    ensures obj.Keys == {"name", "email", "phone", "role"}
    ensures obj["name"] == Json.Str(form.name) && obj["email"] == Json.Str(form.email)
    ensures obj["phone"] == Json.Str(form.phone) && obj["role"] == Json.Str(form.role)
  {
    map["name" := Json.Str(form.name), "email" := Json.Str(form.email),
        "phone" := Json.Str(form.phone), "role" := Json.Str(form.role)]
  }

  /** `{ ...userData, id: editingUser.id, createdAt: editingUser.createdAt }`. */
  function Edited(editing: User, form: Form): (u: User)
    ensures u.id == editing.id && u.createdAt == editing.createdAt
    ensures u.name == form.name && u.email == form.email && u.phone == form.phone && u.role == form.role
  {
    User(editing.id, form.name, form.email, form.phone, form.role, editing.createdAt)
  }

  datatype Request = CreateRequest(body: Json.Object) | UpdateRequest(user: User) | DeleteRequest(id: string)

  /** Edit-or-create routing of `handleSubmit`. */
  function Route(editing: Option<User>, form: Form): (r: Request)
    ensures editing.None? ==> r == CreateRequest(CreateBody(form))
    ensures editing.Some? ==> r.UpdateRequest? && r.user == Edited(editing.value, form)
  {
    if editing.Some? then UpdateRequest(Edited(editing.value, form)) else CreateRequest(CreateBody(form))
  }

  /** The delete icon of a card targets that card's user. */
  function DeleteFor(u: User): (r: Request)
    ensures r.DeleteRequest? && r.id == u.id
  {
    DeleteRequest(u.id)
  }

  datatype Mutation = CreateMutation | UpdateMutation | DeleteMutation

  class Page {
    var open: bool
    var editing: Option<User>
    var invalidated: seq<QueryKey>

    constructor ()
      ensures !open && editing.None? && invalidated == []
    {
      open := false;
      editing := None;
      invalidated := [];
    }

    /** "Add User" clears `editingUser`, then opens the dialog. */
    method AddUser()
      modifies this
      ensures open && editing.None? && invalidated == old(invalidated)
    {
      editing := None;
      open := true;
    }

    method EditUser(u: User)
      modifies this
      ensures open && editing == Some(u) && invalidated == old(invalidated)
    {
      editing := Some(u);
      open := true;
    }

    /** Dialog close and Cancel only close: `editingUser` stays. */
    method Close()
      modifies this
      ensures !open && editing == old(editing) && invalidated == old(invalidated)
    {
      open := false;
    }

    method Submit(form: Form) returns (r: Request)
      ensures r == Route(editing, form)
    {
      r := Route(editing, form);
    }

    /**
     * A mutation's `fetch` answers with `status`. A non-ok answer throws,
     * so no `onSuccess` effect happens; on success every kind invalidates
     * the users key, create and update close the dialog, and update also
     * clears `editingUser`.
     */
    method Settle(m: Mutation, status: int)
      modifies this
      ensures !IsOk(status) ==> open == old(open) && editing == old(editing) && invalidated == old(invalidated)
      ensures IsOk(status) ==> invalidated == old(invalidated) + [UsersKey]
      ensures IsOk(status) && m.CreateMutation? ==> !open && editing == old(editing)
      ensures IsOk(status) && m.UpdateMutation? ==> !open && editing.None?
      ensures IsOk(status) && m.DeleteMutation? ==> open == old(open) && editing == old(editing)
    {
      if IsOk(status) {
        invalidated := invalidated + [UsersKey];
        if m.CreateMutation? {
          open := false;
        } else if m.UpdateMutation? {
          open := false;
          editing := None;
        }
      }
    }
  }
}
