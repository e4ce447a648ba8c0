/** The member screen (components/management/UserManagement.tsx): the list
    of users, the dialog that edits a user's name, e-mail and password, and
    the CSV export and JSON import. */
module UserManagement {
  import opened Types
  import opened Seqs
  import opened Csv
  import opened FileImport

  /** The dialog's three inputs. */
  datatype UserForm = UserForm(name: string, email: string, password: string)

  const BlankUserForm: UserForm := UserForm("", "", "")

  datatype UserField = NameField | EmailField | PasswordField

  function WithUserField(f: UserForm, field: UserField, v: string): UserForm {
    match field
    case NameField => f.(name := v)
    case EmailField => f.(email := v)
    case PasswordField => f.(password := v)
  }

  /** The user after an edit: the form's name and e-mail, and the form's
      password only if one was typed. */
  function Edited(u: User, f: UserForm): (r: User)
    ensures r.id == u.id && r.name == f.name && r.email == f.email
    ensures f.password == "" ==> r.password == u.password
    ensures f.password != "" ==> r.password == Some(f.password)
  {
    u.(name := f.name, email := f.email, password := if f.password != "" then Some(f.password) else u.password)
  }

  /** `users.map(u => u.id === id ? edited(u) : u)`. */
  function UpdateUsers(us: seq<User>, id: string, f: UserForm): (r: seq<User>)
    ensures |r| == |us|
    ensures forall i :: 0 <= i < |us| ==> r[i] == if us[i].id == id then Edited(us[i], f) else us[i]
  {
    if us == [] then [] else [if us[0].id == id then Edited(us[0], f) else us[0]] + UpdateUsers(us[1..], id, f)
  }

  /** An edit with a blank password keeps every stored password, and one
      with a password changes only the edited users' passwords. */
  lemma UpdatePasswords(us: seq<User>, id: string, f: UserForm)
    ensures f.password == "" ==> forall i :: 0 <= i < |us| ==> UpdateUsers(us, id, f)[i].password == us[i].password
    ensures forall i :: 0 <= i < |us| && us[i].id != id ==> UpdateUsers(us, id, f)[i] == us[i]
    ensures Keys(UpdateUsers(us, id, f), UserId) == Keys(us, UserId)
  {
    var r := UpdateUsers(us, id, f);
    KeysPointwise(us, r, UserId);
  }

  /** Saving the same edit twice is saving it once. */
  lemma UpdateIdempotent(us: seq<User>, id: string, f: UserForm)
    ensures UpdateUsers(UpdateUsers(us, id, f), id, f) == UpdateUsers(us, id, f)
  {
    var once := UpdateUsers(us, id, f);
    var twice := UpdateUsers(once, id, f);
    forall i | 0 <= i < |us| ensures twice[i] == once[i] {
    }
  }

  // ---- The CSV export ----

  const UserHeader: seq<string> := ["id", "name", "email"]

  function UserRow(u: User): seq<CsvValue> {
    [Str(u.id), Str(u.name), Str(u.email)]
  }

  function UserRows(us: seq<User>): (r: seq<seq<CsvValue>>)
    ensures |r| == |us|
    ensures forall i :: 0 <= i < |us| ==> r[i] == UserRow(us[i])
  {
    if us == [] then [] else [UserRow(us[0])] + UserRows(us[1..])
  }

  /** The text of `users_backup.csv`. */
  function UsersCsv(us: seq<User>): string {
    Document(UserHeader, UserRows(us))
  }

  /** The export never depends on passwords: two lists that differ only in
      their passwords export to the same text. */
  lemma ExportIgnoresPasswords(us: seq<User>, vs: seq<User>)
    requires |us| == |vs|
    requires forall i :: 0 <= i < |us| ==> us[i].(password := None) == vs[i].(password := None)
    ensures UsersCsv(us) == UsersCsv(vs)
  {
    forall i | 0 <= i < |us| ensures UserRows(us)[i] == UserRows(vs)[i] {
      assert us[i].id == vs[i].id && us[i].name == vs[i].name && us[i].email == vs[i].email by {
        assert us[i].(password := None).id == us[i].id;
        assert vs[i].(password := None).email == vs[i].email;
      }
    }
    assert UserRows(us) == UserRows(vs);
  }

  lemma UserHeaderPlain()
    ensures forall i :: 0 <= i < |UserHeader| ==> !NeedsQuoting(UserHeader[i])
  {
    forall i, k | 0 <= i < |UserHeader| && 0 <= k < |UserHeader[i]|
      ensures !IsSpecial(UserHeader[i][k])
    {
    }
  }

  /** Each exported line reads back as the user's id, name and e-mail. */
  lemma UserRowsReadBack(us: seq<User>)
    ensures |Table(UserRows(us))| == |us|
    ensures forall i :: 0 <= i < |us| ==> Table(UserRows(us))[i] == [us[i].id, us[i].name, us[i].email]
  {
    var rows := UserRows(us);
    forall i | 0 <= i < |us| ensures Table(rows)[i] == [us[i].id, us[i].name, us[i].email] {
      var row := UserRow(us[i]);
      assert rows[i] == row;
      assert Cells(row) == [us[i].id, us[i].name, us[i].email];
    }
  }

  /** Decoding the export gives the header `id,name,email`, then each user's
      id, name and e-mail, one line per user in list order. */
  lemma UsersCsvRoundTrip(us: seq<User>)
    ensures Decode(UsersCsv(us)) == Some([UserHeader] + Table(UserRows(us)))
  {
    UserHeaderPlain();
    var rows := UserRows(us);
    assert NoEmptyRow(rows) by {
      forall i | 0 <= i < |rows| ensures |rows[i]| >= 1 {
        assert rows[i] == UserRow(us[i]);
      }
    }
    DocumentRoundTrip(UserHeader, rows);
  }

  // ---- The screen's state ----

  /** Everything the screen keeps in its state hooks. */
  datatype DirectoryState = DirectoryState(
    users: seq<User>,
    editModalOpen: bool,
    editingUser: Option<User>,
    editForm: UserForm)

  class UserDirectory {
    var users: seq<User>
    var editModalOpen: bool
    var editingUser: Option<User>
    var editForm: UserForm

    function State(): DirectoryState
      reads this
    {
      DirectoryState(users, editModalOpen, editingUser, editForm)
    }

    constructor (stored: seq<User>)
      ensures State() == DirectoryState(stored, false, None, BlankUserForm)
    {
      users := stored;
      editModalOpen := false;
      editingUser := None;
      editForm := BlankUserForm;
    }

    method ChangeFormField(field: UserField, v: string)
      modifies this
      ensures State() == old(State()).(editForm := WithUserField(old(editForm), field, v))
    {
      editForm := WithUserField(editForm, field, v);
    }

    /** `openEditModal`: the form starts with the user's name and e-mail and
        an empty password. */
    method OpenEditModal(u: User)
      modifies this
      ensures State() == old(State()).(editModalOpen := true, editingUser := Some(u),
                                       editForm := UserForm(u.name, u.email, ""))
    {
      editingUser := Some(u);
      editForm := UserForm(u.name, u.email, "");
      editModalOpen := true;
    }

    method CloseEditModal()
      modifies this
      ensures State() == old(State()).(editModalOpen := false, editingUser := None, editForm := BlankUserForm)
    {
      editingUser := None;
      editModalOpen := false;
      editForm := BlankUserForm;
    }

    /** `handleUpdateUser`: apply the form to the users with the edited id,
        then close the dialog; with no user being edited nothing happens. */
    method UpdateUser()
      modifies this
      ensures old(editingUser).None? ==> State() == old(State())
      ensures old(editingUser).Some? ==>
                State() == DirectoryState(UpdateUsers(old(users), old(editingUser).value.id, old(editForm)),
                                          false, None, BlankUserForm)
    {
      if editingUser.Some? {
        users := UpdateUsers(users, editingUser.value.id, editForm);
        CloseEditModal();
      }
    }

    /** `handleDeleteUser`, once confirmed. */
    method DeleteUser(id: string, confirmed: bool)
      modifies this
      ensures State() == if confirmed then old(State()).(users := RemoveById(old(users), UserId, id))
                         else old(State())
    {
      if confirmed {
        users := RemoveById(users, UserId, id);
      }
    }

    /** `handleFileChange`: restore the whole list from a JSON backup. */
    method Import(confirmed: bool, payload: Payload<User>) returns (notice: Notice)
      modifies this
      ensures State() == old(State()).(users := ApplyImport(old(users), confirmed, payload))
      ensures notice == ImportNotice(confirmed, payload)
    {
      users := ApplyImport(users, confirmed, payload);
      notice := ImportNotice(confirmed, payload);
    }

    /** `handleExportCsv`: the text of the downloaded file. */
    function ExportCsv(): string
      reads this
    {
      UsersCsv(users)
    }
  }
}
