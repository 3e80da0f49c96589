/** The user handlers of src/controllers/UserController.js as operations on the users
    collection, held as a map from id to record (shape of src/models/User.js). */
module UserController {
  import opened Common

  const AdminRole: string := "admin"
  const UserRole: string := "user"
  /** The `enum` of the schema's `role` path. */
  const Roles: set<string> := {"super", "admin", "user"}

  const EmailUsedMessage: string := "Este e-mail já foi utilizado."
  const NotFoundMessage: string := "Usuário não encontrado"
  const EmailNotFoundMessage: string := "Email não encontrado."
  const UpdateFailedMessage: string := "Erro ao atualizar usuário"
  const RemovedMessage: string := "Usuário removido com sucesso!"
  const PasswordReplacedMessage: string := "Senha atualizada com sucesso!"
  const RecoverySentMessage: string := "Email de recuperação de senha enviado com sucesso."

  /** A stored user. `password` holds the bcrypt digest, which is computed outside the
      model and passed in; `commission` is a percentage and `imageUrl` the schema's
      string path, each None when undefined. No handler writes `imageUrl`. */
  datatype UserRecord = UserRecord(email: string, password: string, name: string, active: bool,
                                   role: string, commission: Option<real>, imageUrl: Option<string>)

  /** A user as `index` and `show` send it: the projection `{ password: 0 }`. */
  datatype PublicUser = PublicUser(id: Id, email: string, name: string, active: bool,
                                   role: string, commission: Option<real>, imageUrl: Option<string>)

  /** Every field of the record but the password, with the id. */
  function Public(id: Id, u: UserRecord): (p: PublicUser)
    ensures p.id == id && p.email == u.email && p.name == u.name && p.active == u.active
    ensures p.role == u.role && p.commission == u.commission && p.imageUrl == u.imageUrl
  {
    PublicUser(id, u.email, u.name, u.active, u.role, u.commission, u.imageUrl)
  }

  /** The unique index on `email`. */
  ghost predicate EmailsUnique(users: map<Id, UserRecord>)
  {
    forall a, b :: a in users && b in users && users[a].email == users[b].email ==> a == b
  }

  /** `findOne({ email })` finds a document. */
  predicate EmailTaken(users: map<Id, UserRecord>, email: string)
  {
    exists id :: id in users && users[id].email == email
  }

  /** `countDocuments({ role: 'admin', active: true })` is not zero. */
  predicate HasActiveAdmin(users: map<Id, UserRecord>)
  {
    exists id :: id in users && users[id].role == AdminRole && users[id].active
  }

  /** The role `registerUser` gives a newcomer. */
  function RegistrationRole(users: map<Id, UserRecord>): (role: string)
    ensures role == AdminRole <==> !HasActiveAdmin(users)
    ensures role == UserRole <==> HasActiveAdmin(users)
  {
    if HasActiveAdmin(users) then UserRole else AdminRole
  }

  /** Once an active admin exists, registration never yields another admin; and the first
      registration into an empty collection yields an admin. */
  lemma FirstAdmin(users: map<Id, UserRecord>)
    ensures users == map[] ==> RegistrationRole(users) == AdminRole
    ensures HasActiveAdmin(users) ==> RegistrationRole(users) != AdminRole
  {
  }

  class UserStore {
    var users: map<Id, UserRecord>
    var nextId: Id

    ghost predicate Valid()
      reads this
    {
      (forall id :: id in users ==> id < nextId) && EmailsUnique(users)
    }

    constructor ()
      ensures Valid() && users == map[]
    {
      users := map[];
      nextId := 0;
    }

    /** `index`: every user, without the password. */
    function Index(): (r: set<PublicUser>)
      reads this
      ensures forall id :: id in users ==> Public(id, users[id]) in r
      ensures forall p :: p in r ==> p.id in users && p == Public(p.id, users[p.id])
    {
      set id | id in users :: Public(id, users[id])
    }

    /** `show`: the user without the password, or 404. */
    function Show(id: Id): (r: Outcome<PublicUser>)
      reads this
      ensures r.Ok? <==> id in users
      ensures r.Ok? ==> r.value == Public(id, users[id])
      ensures r.Fail? ==> r == Fail(404, NotFoundMessage)
    {
      if id in users then Ok(Public(id, users[id])) else Fail(404, NotFoundMessage)
    }

    /** `recoverPassword`: only says whether the e-mail is known. */
    function RecoverPassword(email: string): (r: Outcome<string>)
      reads this
      ensures r.Ok? <==> EmailTaken(users, email)
      ensures r.Fail? ==> r == Fail(404, EmailNotFoundMessage)
    {
      if EmailTaken(users, email) then Ok(RecoverySentMessage) else Fail(404, EmailNotFoundMessage)
    }

    method Insert(rec: UserRecord) returns (id: Id)
      requires Valid() && !EmailTaken(users, rec.email)
      modifies this
      ensures Valid()
      ensures id !in old(users) && users == old(users)[id := rec]
    {
      id := nextId;
      nextId := nextId + 1;
      users := users[id := rec];
    }

    /** `registerUser`: the first user while no active admin exists becomes admin, any
        later one a plain user; a used e-mail is refused with 401. */
    method RegisterUser(email: string, passwordDigest: string, name: string) returns (r: Outcome<PublicUser>)
      requires Valid()
      modifies this
      ensures Valid()
      ensures EmailTaken(old(users), email) ==> r == Fail(401, EmailUsedMessage) && users == old(users)
      ensures !EmailTaken(old(users), email) ==>
                r.Ok? && r.value.id !in old(users) &&
                users == old(users)[r.value.id := UserRecord(email, passwordDigest, name, true,
                                                             RegistrationRole(old(users)), None, None)] &&
                r.value == Public(r.value.id, users[r.value.id])
    {
      var role := if HasActiveAdmin(users) then UserRole else AdminRole;
      if EmailTaken(users, email) {
        return Fail(401, EmailUsedMessage);
      }
      var rec := UserRecord(email, passwordDigest, name, true, role, None, None);
      var id := Insert(rec);
      r := Ok(Public(id, rec));
    }

    /** `store`: an administrator-side create; the user is active and, as `role` is not
        passed, gets the schema default "user". */
    method Store(email: string, passwordDigest: string, name: string, commission: Option<real>)
      returns (r: Outcome<PublicUser>)
      requires Valid()
      modifies this
      ensures Valid()
      ensures EmailTaken(old(users), email) ==> r == Fail(401, EmailUsedMessage) && users == old(users)
      ensures !EmailTaken(old(users), email) ==>
                r.Ok? && r.value.id !in old(users) &&
                users == old(users)[r.value.id := UserRecord(email, passwordDigest, name, true, UserRole, commission, None)] &&
                r.value == Public(r.value.id, users[r.value.id])
    {
      if EmailTaken(users, email) {
        return Fail(401, EmailUsedMessage);
      }
      var rec := UserRecord(email, passwordDigest, name, true, UserRole, commission, None);
      var id := Insert(rec);
      r := Ok(Public(id, rec));
    }

    /** `update`: overwrites e-mail, name, role, active and commission. `save` fails with
        500 when the role is outside the schema's enum or the e-mail belongs to another
        user (unique index). */
    method Update(id: Id, email: string, name: string, role: string, active: bool, commission: Option<real>)
      returns (r: Outcome<PublicUser>)
      requires Valid()
      modifies this
      ensures Valid() && nextId == old(nextId)
      ensures id !in old(users) ==> r == Fail(404, NotFoundMessage) && users == old(users)
      ensures id in old(users) && (role !in Roles || exists o :: o in old(users) && o != id && old(users)[o].email == email) ==>
                r == Fail(500, UpdateFailedMessage) && users == old(users)
      ensures r.Ok? <==> id in old(users) && role in Roles &&
                         forall o :: o in old(users) && o != id ==> old(users)[o].email != email
      ensures r.Ok? ==> users == old(users)[id := old(users)[id].(email := email, name := name, role := role,
                                                                   active := active, commission := commission)] &&
                        r.value == Public(id, users[id])
    {
      if id !in users {
        return Fail(404, NotFoundMessage);
      }
      var user := users[id];
      user := user.(email := email);
      user := user.(name := name);
      user := user.(role := role);
      user := user.(active := active);
      user := user.(commission := commission);
      if role !in Roles || exists o :: o in users && o != id && users[o].email == email {
        return Fail(500, UpdateFailedMessage);
      }
      users := users[id := user];
      r := Ok(Public(id, user));
    }

    /** `destroy`: a physical delete. */
    method Destroy(id: Id) returns (r: Outcome<string>)
      requires Valid()
      modifies this
      ensures Valid() && nextId == old(nextId)
      ensures id !in old(users) ==> r == Fail(404, NotFoundMessage) && users == old(users)
      ensures id in old(users) ==> r == Ok(RemovedMessage) && users == old(users) - {id}
    {
      if id !in users {
        return Fail(404, NotFoundMessage);
      }
      users := users - {id};
      r := Ok(RemovedMessage);
    }

    /** `replacePassword`: the authenticated user's e-mail selects the record; only its
        password changes. */
    method ReplacePassword(email: string, newDigest: string) returns (r: Outcome<string>)
      requires Valid()
      modifies this
      ensures Valid() && nextId == old(nextId)
      ensures !EmailTaken(old(users), email) ==> r == Fail(404, NotFoundMessage) && users == old(users)
      ensures EmailTaken(old(users), email) ==>
                r == Ok(PasswordReplacedMessage) &&
                exists id :: id in old(users) && old(users)[id].email == email &&
                             users == old(users)[id := old(users)[id].(password := newDigest)]
    {
      if !EmailTaken(users, email) {
        return Fail(404, NotFoundMessage);
      }
      var id :| id in users && users[id].email == email;
      users := users[id := users[id].(password := newDigest)];
      r := Ok(PasswordReplacedMessage);
    }
  }
}
