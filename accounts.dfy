/** User accounts and the manager that creates them. The user table is a
    sequence of rows whose primary key is the row's position; e-mail addresses
    are unique across rows, as the column's unique constraint demands. */
module Accounts {
  import opened Wrappers

  /** Why creating a user fails: no e-mail was given (a ValueError), or the
      normalised address is already in the table (the unique constraint). */
  datatype CreateError = MissingEmail | DuplicateEmail

  /** A stored user. `password` is the raw password a usable hash was made from,
      or None for an unusable password; hashing itself is not modelled. */
  datatype UserRow = UserRow(email: string, name: string, password: Option<string>,
                             isActive: bool, isStaff: bool, isSuperuser: bool)

  /** The keyword fields create_user passes on to the new user; None keeps the default. */
  datatype ExtraFields = ExtraFields(name: Option<string>, isActive: Option<bool>,
                                     isStaff: Option<bool>, isSuperuser: Option<bool>)

  const NoExtraFields := ExtraFields(None, None, None, None)

  /** The e-mail create_user accepts: a present, non-empty one. */
  function RequireEmail(email: Option<string>): (r: Result<string, CreateError>)
    ensures r.Err? <==> email == None || email == Some("")
    ensures r.Err? ==> r.error == MissingEmail
    ensures r.Ok? ==> Some(r.value) == email && |r.value| > 0
  {
    if email == None || email.value == "" then Err(MissingEmail) else Ok(email.value)
  }

  /** The row a new user starts as: an active, non-staff, non-superuser account
      with an empty name, except where the extra fields say otherwise. */
  function NewUserRow(email: string, password: Option<string>, extra: ExtraFields): (r: UserRow)
    ensures r.email == email && r.password == password
    ensures extra.name.None? ==> r.name == ""
    ensures extra.name.Some? ==> r.name == extra.name.value
    ensures extra.isActive.None? ==> r.isActive
    ensures extra.isActive.Some? ==> r.isActive == extra.isActive.value
    ensures extra.isStaff.None? ==> !r.isStaff
    ensures extra.isSuperuser.None? ==> !r.isSuperuser
    ensures extra.isStaff.Some? ==> r.isStaff == extra.isStaff.value
    ensures extra.isSuperuser.Some? ==> r.isSuperuser == extra.isSuperuser.value
  {
    UserRow(email,
            if extra.name.Some? then extra.name.value else "",
            password,
            if extra.isActive.Some? then extra.isActive.value else true,
            if extra.isStaff.Some? then extra.isStaff.value else false,
            if extra.isSuperuser.Some? then extra.isSuperuser.value else false)
  }

  /** Some row other than `self` already holds `email`. */
  predicate EmailTaken(rows: seq<UserRow>, email: string, self: Option<nat>)
  {
    exists j :: 0 <= j < |rows| && rows[j].email == email && self != Some(j)
  }

  ghost predicate UniqueEmails(rows: seq<UserRow>)
  {
    forall i, j :: 0 <= i < j < |rows| ==> rows[i].email != rows[j].email
  }

  /** An in-memory user; `id` is its primary key once saved. */
  class User {
    var id: Option<nat>
    var email: string
    var name: string
    var password: Option<string>
    var isActive: bool
    var isStaff: bool
    var isSuperuser: bool

    function Row(): (r: UserRow)
      reads this
      ensures r.email == email && r.isStaff == isStaff && r.isSuperuser == isSuperuser
    {
      UserRow(email, name, password, isActive, isStaff, isSuperuser)
    }

    /** An unsaved user holding `r`. */
    constructor (r: UserRow)
      ensures id == None && Row() == r
    {
      id := None;
      email := r.email;
      name := r.name;
      password := r.password;
      isActive := r.isActive;
      isStaff := r.isStaff;
      isSuperuser := r.isSuperuser;
    }
  }

  class UserManager {
    var rows: seq<UserRow>
    /** Address normalisation (the domain part lower-cased); its body is not part of this model. */
    const normalizeEmail: string -> string

    ghost predicate Valid()
      reads this
    {
      UniqueEmails(rows)
    }

    constructor (normalizeEmail: string -> string)
      ensures Valid() && rows == [] && this.normalizeEmail == normalizeEmail
    {
      rows := [];
      this.normalizeEmail := normalizeEmail;
    }

    /** Writes `u`: a new user is appended and gets the next key, a saved one
        overwrites its row; a clash with another row's e-mail writes nothing. */
    method SaveUser(u: User) returns (ok: bool)
      requires Valid()
      requires u.id.Some? ==> u.id.value < |rows|
      modifies this, u`id
      ensures Valid()
      ensures u.Row() == old(u.Row())
      ensures ok <==> !EmailTaken(old(rows), u.email, old(u.id))
      ensures ok && old(u.id).None? ==> rows == old(rows) + [u.Row()] && u.id == Some(|old(rows)|)
      ensures ok && old(u.id).Some? ==> rows == old(rows)[old(u.id).value := u.Row()] && u.id == old(u.id)
      ensures !ok ==> rows == old(rows) && u.id == old(u.id)
    {
      ok := !EmailTaken(rows, u.email, u.id);
      if ok {
        if u.id.None? {
          u.id := Some(|rows|);
          rows := rows + [u.Row()];
        } else {
          rows := rows[u.id.value := u.Row()];
        }
      }
    }

    /** create_user: refuses a missing or empty e-mail before anything is built,
        otherwise builds the user on the normalised address with the given
        password and extra fields and saves it. */
    method CreateUser(email: Option<string>, password: Option<string>, extra: ExtraFields)
      returns (r: Result<User, CreateError>)
      requires Valid()
      modifies this
      ensures Valid()
      ensures r == Err(MissingEmail) <==> RequireEmail(email).Err?
      ensures r == Err(DuplicateEmail) <==>
                RequireEmail(email).Ok? && EmailTaken(old(rows), normalizeEmail(email.value), None)
      ensures r.Ok? <==>
                RequireEmail(email).Ok? && !EmailTaken(old(rows), normalizeEmail(email.value), None)
      ensures r.Err? ==> rows == old(rows)
      ensures r.Ok? ==>
                fresh(r.value) && r.value.id == Some(|old(rows)|) &&
                r.value.Row() == NewUserRow(normalizeEmail(email.value), password, extra) &&
                rows == old(rows) + [r.value.Row()]
    {
      var checked := RequireEmail(email);
      if checked.Err? {
        return Err(checked.error);
      }
      var user := new User(NewUserRow(normalizeEmail(checked.value), password, extra));
      var ok := SaveUser(user);
      if !ok {
        return Err(DuplicateEmail);
      }
      r := Ok(user);
    }

    /** create_superuser: creates a plain user, then raises it to staff and
        superuser and saves it again. */
    method CreateSuperuser(email: Option<string>, password: Option<string>)
      returns (r: Result<User, CreateError>)
      requires Valid()
      modifies this
      ensures Valid()
      ensures r == Err(MissingEmail) <==> RequireEmail(email).Err?
      ensures r == Err(DuplicateEmail) <==>
                RequireEmail(email).Ok? && EmailTaken(old(rows), normalizeEmail(email.value), None)
      ensures r.Ok? <==>
                RequireEmail(email).Ok? && !EmailTaken(old(rows), normalizeEmail(email.value), None)
      ensures r.Err? ==> rows == old(rows)
      ensures r.Ok? ==>
                fresh(r.value) && r.value.isStaff && r.value.isSuperuser && r.value.isActive &&
                r.value.id == Some(|old(rows)|) &&
                r.value.Row() == NewUserRow(normalizeEmail(email.value), password, NoExtraFields)
                                   .(isStaff := true, isSuperuser := true) &&
                rows == old(rows) + [r.value.Row()]
    {
      r := CreateUser(email, password, NoExtraFields);
      if r.Ok? {
        var user := r.value;
        user.isStaff := true;
        user.isSuperuser := true;
        var ok := SaveUser(user);
        assert ok;
      }
    }
  }
}
