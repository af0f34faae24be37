/**
 * The frontend's application store (a zustand store): the signed-in user,
 * the preset user list with login and registration, the vacancy list with
 * add / update / delete, and the copy of the signed-in user kept in
 * localStorage under the key "user".
 */
module Store {
  import opened Wrappers
  import opened Browser
  import opened Seqs

  /** A user record of the in-memory user list (with its password). */
  datatype StoredUser = StoredUser(id: int, email: string, password: string, name: string, role: string)

  /** The user object kept as the session: the stored record with the password removed. */
  datatype SessionUser = SessionUser(id: int, email: string, name: string, role: string)

  datatype AuthResult = Success(user: SessionUser) | Failure(error: string)

  const UserKey: string := "user"
  const InvalidCredentials: string := "Неверный email или пароль"
  const EmailTaken: string := "Пользователь с таким email уже существует"

  function WithoutPassword(u: StoredUser): SessionUser
  {
    SessionUser(u.id, u.email, u.name, u.role)
  }

  /** A field value of a vacancy object other than its id. */
  datatype Field = FStr(s: string) | FNum(n: int) | FBool(b: bool) | FNull

  /** A vacancy object: its numeric vacancyId and its other properties by name. */
  datatype Vacancy = Vacancy(vacancyId: int, fields: map<string, Field>)

  /** The properties of an object spread over a vacancy; vacancyId is present when the object has one. */
  datatype VacancyPatch = VacancyPatch(vacancyId: Option<int>, fields: map<string, Field>)

  /**
   * JSON.stringify / JSON.parse for the session user. parse answers None when
   * it throws, Some(None) for the JSON null and Some(Some(u)) for a user object.
   */
  datatype UserCodec = UserCodec(stringify: SessionUser -> string, parse: string -> Option<Option<SessionUser>>)

  /** What JSON guarantees: a stringified user is a non-empty text that parses back to that user. */
  ghost predicate Faithful(codec: UserCodec)
  {
    forall u :: codec.stringify(u) != "" && codec.parse(codec.stringify(u)) == Some(Some(u))
  }

  /** The preset accounts: one HR manager and one applicant, with distinct emails. */
  function PresetUsers(): (r: seq<StoredUser>)
    ensures |r| == 2 && r[0].role == "hr" && r[1].role == "applicant"
    ensures UniqueEmails(r)
  {
    [ StoredUser(1, "e@mail.ru", "123", "HR Manager", "hr"),
      StoredUser(2, "a@mail.ru", "123", "Applicant", "applicant") ]
  }

  function PresetVacancy(id: int, name: string, department: string, responses: int, date: string): Vacancy
  {
    Vacancy(id, map[
      "name" := FStr(name), "status" := FStr("active"), "department" := FStr(department),
      "responses" := FNum(responses), "responsesWithout" := FNum(responses), "date" := FStr(date)])
  }

  /** The preset vacancies: ids 1 to 8 in order, all of them active. */
  function PresetVacancies(): (r: seq<Vacancy>)
    ensures |r| == 8
    ensures forall i :: 0 <= i < |r| ==> r[i].vacancyId == i + 1
    ensures forall i :: 0 <= i < |r| ==> "status" in r[i].fields && r[i].fields["status"] == FStr("active")
    ensures UniqueIds(r)
  {
    [ PresetVacancy(1, "Продуктовый дизайнер", "Отдел внутренних коммуникаций", 1376, "2024-01-15"),
      PresetVacancy(2, "Frontend разработчик", "Отдел разработки", 892, "2024-01-14"),
      PresetVacancy(3, "UX/UI дизайнер", "Отдел дизайна", 654, "2024-01-13"),
      PresetVacancy(4, "Product Manager", "Отдел продуктов", 445, "2024-01-12"),
      PresetVacancy(5, "Backend разработчик", "Отдел разработки", 567, "2024-01-11"),
      PresetVacancy(6, "QA инженер", "Отдел тестирования", 234, "2024-01-10"),
      PresetVacancy(7, "DevOps инженер", "Отдел инфраструктуры", 123, "2024-01-09"),
      PresetVacancy(8, "Аналитик данных", "Отдел аналитики", 345, "2024-01-08") ]
  }

  predicate Matches(u: StoredUser, email: string, password: string)
  {
    u.email == email && u.password == password
  }

  /** users[i] is the first user with that email and password. */
  predicate FirstMatch(users: seq<StoredUser>, i: int, email: string, password: string)
  {
    0 <= i < |users| && Matches(users[i], email, password)
    && forall j :: 0 <= j < i ==> !Matches(users[j], email, password)
  }

  /** users.find(u => u.email === email && u.password === password). */
  function FindUser(users: seq<StoredUser>, email: string, password: string): (r: Option<StoredUser>)
    ensures r.None? <==> forall i :: 0 <= i < |users| ==> !Matches(users[i], email, password)
    ensures r.Some? ==> exists i :: FirstMatch(users, i, email, password) && users[i] == r.value
  {
    if users == [] then None
    else if Matches(users[0], email, password) then
      assert FirstMatch(users, 0, email, password);
      Some(users[0])
    else
      var r := FindUser(users[1..], email, password);
      assert r.Some? ==> exists i :: FirstMatch(users, i, email, password) && users[i] == r.value by {
        if r.Some? {
          var i :| FirstMatch(users[1..], i, email, password) && users[1..][i] == r.value;
          assert users[i + 1] == r.value;
          forall j | 0 <= j < i + 1 ensures !Matches(users[j], email, password) {
            if j > 0 { assert users[j] == users[1..][j - 1]; }
          }
          assert FirstMatch(users, i + 1, email, password);
        }
      }
      r
  }

  predicate EmailUsed(users: seq<StoredUser>, email: string)
  {
    exists i :: 0 <= i < |users| && users[i].email == email
  }

  /** users.find(u => u.email === email). */
  function FindByEmail(users: seq<StoredUser>, email: string): (r: Option<StoredUser>)
    ensures r.Some? <==> EmailUsed(users, email)
    ensures r.Some? ==> r.value in users && r.value.email == email
  {
    if users == [] then None
    else if users[0].email == email then Some(users[0])
    else
      var r := FindByEmail(users[1..], email);
      assert EmailUsed(users[1..], email) ==> EmailUsed(users, email) by {
        if EmailUsed(users[1..], email) {
          var i :| 0 <= i < |users[1..]| && users[1..][i].email == email;
          assert users[i + 1].email == email;
        }
      }
      r
  }

  predicate UniqueEmails(users: seq<StoredUser>)
  {
    forall i, j :: 0 <= i < j < |users| ==> users[i].email != users[j].email
  }

  /** email.split('@')[0]: the text before the first '@', or the whole address when it has none. */
  function EmailLocalPart(email: string): (r: string)
    ensures |r| <= |email| && email[..|r|] == r
    ensures forall i :: 0 <= i < |r| ==> r[i] != '@'
    ensures |r| < |email| ==> email[|r|] == '@'
  {
    if email == [] || email[0] == '@' then "" else [email[0]] + EmailLocalPart(email[1..])
  }

  /** Math.max(...vacancies.map(v => v.vacancyId), 0) + 1. */
  function NextVacancyId(vs: seq<Vacancy>): (r: int)
    ensures r >= 1
    ensures forall i :: 0 <= i < |vs| ==> vs[i].vacancyId < r
    ensures r == 1 || exists i :: 0 <= i < |vs| && vs[i].vacancyId == r - 1
  {
    if vs == [] then 1
    else
      var rest := NextVacancyId(vs[1..]);
      assert forall i :: 1 <= i < |vs| ==> vs[i].vacancyId < rest by {
        forall i | 1 <= i < |vs| ensures vs[i].vacancyId < rest { assert vs[i] == vs[1..][i - 1]; }
      }
      assert rest != 1 ==> exists i :: 1 <= i < |vs| && vs[i].vacancyId == rest - 1 by {
        if rest != 1 {
          var k :| 0 <= k < |vs[1..]| && vs[1..][k].vacancyId == rest - 1;
          assert vs[k + 1].vacancyId == rest - 1;
        }
      }
      if vs[0].vacancyId + 1 > rest then vs[0].vacancyId + 1 else rest
  }

  /** { ...v, ...updates }: the patch's properties win, the others are kept. */
  function ApplyPatch(v: Vacancy, p: VacancyPatch): (r: Vacancy)
    ensures p.vacancyId.Some? ==> r.vacancyId == p.vacancyId.value
    ensures p.vacancyId.None? ==> r.vacancyId == v.vacancyId
    ensures r.fields.Keys == v.fields.Keys + p.fields.Keys
    ensures forall k :: k in p.fields ==> r.fields[k] == p.fields[k]
    ensures forall k :: k in v.fields && k !in p.fields ==> r.fields[k] == v.fields[k]
  {
    Vacancy(p.vacancyId.GetOr(v.vacancyId), v.fields + p.fields)
  }

  /** vacancies.map(v => v.vacancyId === id ? { ...v, ...updates } : v). */
  function UpdateById(vs: seq<Vacancy>, id: int, p: VacancyPatch): (r: seq<Vacancy>)
    ensures |r| == |vs|
    ensures forall i :: 0 <= i < |vs| && vs[i].vacancyId != id ==> r[i] == vs[i]
    ensures forall i :: 0 <= i < |vs| && vs[i].vacancyId == id ==> r[i] == ApplyPatch(vs[i], p)
  {
    if vs == [] then []
    else [if vs[0].vacancyId == id then ApplyPatch(vs[0], p) else vs[0]] + UpdateById(vs[1..], id, p)
  }

  /** vacancies.filter(v => v.vacancyId !== id). */
  function DeleteById(vs: seq<Vacancy>, id: int): (r: seq<Vacancy>)
    ensures |r| <= |vs|
    ensures forall i :: 0 <= i < |r| ==> r[i].vacancyId != id && r[i] in vs
    ensures forall i :: 0 <= i < |vs| && vs[i].vacancyId != id ==> vs[i] in r
    ensures forall v :: multiset(r)[v] == if v.vacancyId != id then multiset(vs)[v] else 0
  {
    if vs == [] then []
    else
      assert vs == [vs[0]] + vs[1..];
      assert multiset(vs) == multiset([vs[0]]) + multiset(vs[1..]);
      (if vs[0].vacancyId != id then [vs[0]] else []) + DeleteById(vs[1..], id)
  }

  /** filter keeps the order: one vacancy more at the end is kept at the end, or dropped when it has the id. */
  lemma {:induction false} DeleteByIdSnoc(vs: seq<Vacancy>, v: Vacancy, id: int)
    ensures DeleteById(vs + [v], id) == DeleteById(vs, id) + (if v.vacancyId != id then [v] else [])
  {
    if vs == [] {
      assert [v][1..] == [];
    } else {
      assert (vs + [v])[1..] == vs[1..] + [v];
      DeleteByIdSnoc(vs[1..], v, id);
      ConcatAssoc(if vs[0].vacancyId != id then [vs[0]] else [], DeleteById(vs[1..], id),
        if v.vacancyId != id then [v] else []);
    }
  }

  predicate UniqueIds(vs: seq<Vacancy>)
  {
    forall i, j :: 0 <= i < j < |vs| ==> vs[i].vacancyId != vs[j].vacancyId
  }

  /** The user restored from storage at start-up and whether the stored text had to be removed. */
  datatype Restored = Restored(user: Option<SessionUser>, discard: bool)

  /**
   * initializeUser: a non-empty stored text is parsed; a text that does not
   * parse is discarded and the session starts signed out.
   */
  function InitialUser(items: map<string, string>, codec: UserCodec): (r: Restored)
    ensures (UserKey !in items || items[UserKey] == "") ==> r == Restored(None, false)
    ensures r.discard ==> r.user.None? && UserKey in items
    ensures r.discard <==> UserKey in items && items[UserKey] != "" && codec.parse(items[UserKey]).None?
    ensures UserKey in items && items[UserKey] != "" && codec.parse(items[UserKey]).Some? ==>
      r.user == codec.parse(items[UserKey]).value
  {
    if UserKey in items && items[UserKey] != "" then
      match codec.parse(items[UserKey])
      case None => Restored(None, true)
      case Some(parsed) => Restored(parsed, false)
    else Restored(None, false)
  }

  /** A session saved by login or register is restored unchanged at the next start-up. */
  lemma SessionRestores(items: map<string, string>, u: SessionUser, codec: UserCodec)
    requires Faithful(codec)
    ensures InitialUser(items[UserKey := codec.stringify(u)], codec) == Restored(Some(u), false)
  {
    assert codec.stringify(u) != "" && codec.parse(codec.stringify(u)) == Some(Some(u));
  }

  /** After logout nothing is restored. */
  lemma LogoutRestoresNothing(items: map<string, string>, codec: UserCodec)
    ensures InitialUser(items - {UserKey}, codec) == Restored(None, false)
  {
  }

  /** A new vacancy's id differs from every existing one, so adding keeps ids unique. */
  lemma {:induction false} AddKeepsIdsUnique(vs: seq<Vacancy>, fields: map<string, Field>)
    requires UniqueIds(vs)
    ensures UniqueIds(vs + [Vacancy(NextVacancyId(vs), fields)])
  {
    var r := vs + [Vacancy(NextVacancyId(vs), fields)];
    forall i, j | 0 <= i < j < |r| ensures r[i].vacancyId != r[j].vacancyId {
      if j == |vs| { assert r[i] == vs[i]; }
      else { assert r[i] == vs[i] && r[j] == vs[j]; }
    }
  }

  predicate HasVacancy(vs: seq<Vacancy>, id: int)
  {
    exists i :: 0 <= i < |vs| && vs[i].vacancyId == id
  }

  lemma UniqueTail(vs: seq<Vacancy>)
    requires vs != [] && UniqueIds(vs)
    ensures UniqueIds(vs[1..])
    ensures !HasVacancy(vs[1..], vs[0].vacancyId)
  {
    var tail := vs[1..];
    forall i, j | 0 <= i < j < |tail| ensures tail[i].vacancyId != tail[j].vacancyId {
      assert tail[i] == vs[i + 1] && tail[j] == vs[j + 1];
    }
  }

  lemma PrependUnique(x: Vacancy, rest: seq<Vacancy>)
    requires UniqueIds(rest) && forall i :: 0 <= i < |rest| ==> rest[i].vacancyId != x.vacancyId
    ensures UniqueIds([x] + rest)
  {
    var r := [x] + rest;
    forall i, j | 0 <= i < j < |r| ensures r[i].vacancyId != r[j].vacancyId {
      assert r[j] == rest[j - 1];
      if i > 0 { assert r[i] == rest[i - 1]; }
    }
  }

  /** Deleting keeps ids unique. */
  lemma {:induction false} DeleteKeepsIdsUnique(vs: seq<Vacancy>, id: int)
    requires UniqueIds(vs)
    ensures UniqueIds(DeleteById(vs, id))
  {
    if vs != [] {
      var tail := vs[1..];
      UniqueTail(vs);
      DeleteKeepsIdsUnique(tail, id);
      var rt := DeleteById(tail, id);
      if vs[0].vacancyId != id {
        forall i | 0 <= i < |rt| ensures rt[i].vacancyId != vs[0].vacancyId {
          assert rt[i] in tail;
          var k :| 0 <= k < |tail| && tail[k] == rt[i];
        }
        PrependUnique(vs[0], rt);
        assert DeleteById(vs, id) == [vs[0]] + rt;
      } else {
        assert DeleteById(vs, id) == [] + rt;
      }
    }
  }

  /** With unique ids, deleting removes exactly one vacancy when the id is present and none otherwise. */
  lemma {:induction false} DeleteRemovesOne(vs: seq<Vacancy>, id: int)
    requires UniqueIds(vs)
    ensures |DeleteById(vs, id)| == |vs| - (if HasVacancy(vs, id) then 1 else 0)
  {
    if vs != [] {
      var tail := vs[1..];
      UniqueTail(vs);
      DeleteRemovesOne(tail, id);
      assert HasVacancy(vs, id) <==> vs[0].vacancyId == id || HasVacancy(tail, id) by {
        if HasVacancy(vs, id) {
          var i :| 0 <= i < |vs| && vs[i].vacancyId == id;
          if i > 0 { assert tail[i - 1] == vs[i]; }
        }
        if HasVacancy(tail, id) {
          var i :| 0 <= i < |tail| && tail[i].vacancyId == id;
          assert vs[i + 1] == tail[i];
        }
      }
    }
  }

  /** An update whose properties do not include vacancyId keeps the ids as they were. */
  lemma UpdateKeepsIds(vs: seq<Vacancy>, id: int, p: VacancyPatch)
    requires p.vacancyId.None?
    ensures forall i :: 0 <= i < |vs| ==> UpdateById(vs, id, p)[i].vacancyId == vs[i].vacancyId
  {
  }

  /** Updating an id that no vacancy has leaves the list unchanged. */
  lemma UpdateMissingIsIdentity(vs: seq<Vacancy>, id: int, p: VacancyPatch)
    requires forall i :: 0 <= i < |vs| ==> vs[i].vacancyId != id
    ensures UpdateById(vs, id, p) == vs
  {
  }

  class AppStore {
    var user: Option<SessionUser>
    var users: seq<StoredUser>
    var vacancies: seq<Vacancy>
    const storage: LocalStorage
    const codec: UserCodec

    ghost predicate Valid()
      reads this
    {
      UniqueEmails(users)
    }

    /** Store creation: preset users and vacancies, and the user restored from localStorage. */
    constructor(storage: LocalStorage, codec: UserCodec)
      modifies storage
      ensures Valid()
      ensures this.storage == storage && this.codec == codec
      ensures users == PresetUsers() && vacancies == PresetVacancies()
      ensures user == InitialUser(old(storage.items), codec).user
      ensures storage.items == if InitialUser(old(storage.items), codec).discard
        then old(storage.items) - {UserKey} else old(storage.items)
    {
      this.storage := storage;
      this.codec := codec;
      var saved := storage.GetItem(UserKey);
      var restored: Option<SessionUser> := None;
      if saved.Some? && saved.value != "" {
        var parsed := codec.parse(saved.value);
        if parsed.None? {
          storage.RemoveItem(UserKey);
        } else {
          restored := parsed.value;
        }
      }
      user := restored;
      users := PresetUsers();
      vacancies := PresetVacancies();
    }

    method SetUser(u: Option<SessionUser>)
      modifies this
      ensures user == u && users == old(users) && vacancies == old(vacancies)
    {
      user := u;
    }

    /** login: the first user with that email and password becomes the session and is saved. */
    method Login(email: string, password: string) returns (r: AuthResult)
      requires Valid()
      modifies this, storage
      ensures Valid() && users == old(users) && vacancies == old(vacancies)
      ensures r.Success? <==> FindUser(users, email, password).Some?
      ensures r.Success? ==> (r.user == WithoutPassword(FindUser(users, email, password).value)
        && user == Some(r.user)
        && storage.items == old(storage.items)[UserKey := codec.stringify(r.user)])
      ensures r.Failure? ==> (r.error == InvalidCredentials
        && user == old(user) && storage.items == old(storage.items))
    {
      var found := FindUser(users, email, password);
      if found.Some? {
        var userData := WithoutPassword(found.value);
        user := Some(userData);
        storage.SetItem(UserKey, codec.stringify(userData));
        r := Success(userData);
      } else {
        r := Failure(InvalidCredentials);
      }
    }

    /**
     * register: a new email becomes an applicant named after the part of the
     * address before '@', with the current time (Date.now()) as id, and is
     * signed in; a known email is refused.
     */
    method Register(email: string, password: string, now: int) returns (r: AuthResult)
      requires Valid()
      modifies this, storage
      ensures Valid() && vacancies == old(vacancies)
      ensures r.Failure? <==> EmailUsed(old(users), email)
      ensures r.Failure? ==> (r.error == EmailTaken && users == old(users)
        && user == old(user) && storage.items == old(storage.items))
      ensures r.Success? ==>
        var created := StoredUser(now, email, password, EmailLocalPart(email), "applicant");
        users == old(users) + [created] && r.user == WithoutPassword(created) && user == Some(r.user)
        && storage.items == old(storage.items)[UserKey := codec.stringify(r.user)]
    {
      if FindByEmail(users, email).Some? {
        r := Failure(EmailTaken);
        return;
      }
      var created := StoredUser(now, email, password, EmailLocalPart(email), "applicant");
      var userData := WithoutPassword(created);
      users := users + [created];
      user := Some(userData);
      storage.SetItem(UserKey, codec.stringify(userData));
      r := Success(userData);
    }

    /** addVacancy: the new vacancy gets the largest id plus one (at least 1) and goes last. */
    method AddVacancy(newVacancy: VacancyPatch)
      modifies this
      ensures users == old(users) && user == old(user)
      ensures vacancies == old(vacancies) + [Vacancy(NextVacancyId(old(vacancies)), newVacancy.fields)]
    {
      vacancies := vacancies + [Vacancy(NextVacancyId(vacancies), newVacancy.fields)];
    }

    method UpdateVacancy(vacancyId: int, updates: VacancyPatch)
      modifies this
      ensures users == old(users) && user == old(user)
      ensures vacancies == UpdateById(old(vacancies), vacancyId, updates)
    {
      vacancies := UpdateById(vacancies, vacancyId, updates);
    }

    method DeleteVacancy(vacancyId: int)
      modifies this
      ensures users == old(users) && user == old(user)
      ensures vacancies == DeleteById(old(vacancies), vacancyId)
    {
      vacancies := DeleteById(vacancies, vacancyId);
    }

    /** logout: the saved session is removed and nobody is signed in. */
    method Logout()
      modifies this, storage
      ensures user.None? && users == old(users) && vacancies == old(vacancies)
      ensures storage.items == old(storage.items) - {UserKey}
    {
      storage.RemoveItem(UserKey);
      user := None;
    }
  }

  /** A user who registered can then log in with the same email and password. */
  lemma {:induction false} RegisterThenLogin(users: seq<StoredUser>, email: string, password: string, now: int)
    requires !EmailUsed(users, email)
    ensures var created := StoredUser(now, email, password, EmailLocalPart(email), "applicant");
      FindUser(users + [created], email, password) == Some(created)
  {
    var created := StoredUser(now, email, password, EmailLocalPart(email), "applicant");
    var all := users + [created];
    assert Matches(all[|users|], email, password);
    var r := FindUser(all, email, password);
    var i :| 0 <= i < |all| && all[i] == r.value && Matches(r.value, email, password);
    assert forall j :: 0 <= j < |users| ==> all[j].email != email;
    assert i == |users|;
  }

  /** Registering a fresh email keeps emails unique. */
  lemma RegisterKeepsEmailsUnique(users: seq<StoredUser>, created: StoredUser)
    requires UniqueEmails(users) && !EmailUsed(users, created.email)
    ensures UniqueEmails(users + [created])
  {
    var all := users + [created];
    forall i, j | 0 <= i < j < |all| ensures all[i].email != all[j].email {
      if j == |users| {
        assert all[i] == users[i];
      } else {
        assert all[i] == users[i] && all[j] == users[j];
      }
    }
  }
}
