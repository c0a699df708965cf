/** User records and the first-user role bootstrap of `getOrCreateUser`.
    Store operations of a sign-in: 0 reads the user document, 1 counts the
    users, 2 writes the new document. */
module Users {
  import opened Common

  datatype Role = Admin | Student

  /** The signed-in identity the authentication service hands over. */
  datatype Identity = Identity(uid: string, email: Option<string>, displayName: Option<string>, photoURL: Option<string>)

  /** A user document. `email` may be null at run time, as the record takes the
      identity's email with a non-null assertion only. */
  datatype User = User(
    uid: string, email: Option<string>, displayName: Option<string>, photoURL: Option<string>, role: Role,
    phoneNumber: Option<string>, address: Option<string>, cgpa: Option<string>, experience: Option<string>,
    resumeText: Option<string>, appliedJobIds: Option<seq<string>>, companyName: Option<string>,
    designation: Option<string>)

  /** A `Partial<User>`: each field either supplied or not. */
  datatype UserPatch = UserPatch(
    uid: Option<string>, email: Option<string>, displayName: Option<Option<string>>,
    photoURL: Option<Option<string>>, role: Option<Role>,
    phoneNumber: Option<string>, address: Option<string>, cgpa: Option<string>, experience: Option<string>,
    resumeText: Option<string>, appliedJobIds: Option<seq<string>>, companyName: Option<string>,
    designation: Option<string>)

  const NoPatch := UserPatch(None, None, None, None, None, None, None, None, None, None, None, None, None)

  /** `{ ...u, ...p }`, which is also what `updateDoc(userRef, p)` leaves. */
  function Patched(u: User, p: UserPatch): (r: User)
    ensures (p.uid.None? ==> r.uid == u.uid) && (p.uid.Some? ==> r.uid == p.uid.value)
    ensures (p.email.None? ==> r.email == u.email) && (p.email.Some? ==> r.email == p.email)
    ensures (p.displayName.None? ==> r.displayName == u.displayName)
         && (p.displayName.Some? ==> r.displayName == p.displayName.value)
    ensures (p.photoURL.None? ==> r.photoURL == u.photoURL) && (p.photoURL.Some? ==> r.photoURL == p.photoURL.value)
    ensures (p.role.None? ==> r.role == u.role) && (p.role.Some? ==> r.role == p.role.value)
    ensures (p.phoneNumber.None? ==> r.phoneNumber == u.phoneNumber)
         && (p.phoneNumber.Some? ==> r.phoneNumber == p.phoneNumber)
    ensures (p.address.None? ==> r.address == u.address) && (p.address.Some? ==> r.address == p.address)
    ensures (p.cgpa.None? ==> r.cgpa == u.cgpa) && (p.cgpa.Some? ==> r.cgpa == p.cgpa)
    ensures (p.experience.None? ==> r.experience == u.experience)
         && (p.experience.Some? ==> r.experience == p.experience)
    ensures (p.resumeText.None? ==> r.resumeText == u.resumeText)
         && (p.resumeText.Some? ==> r.resumeText == p.resumeText)
    ensures (p.appliedJobIds.None? ==> r.appliedJobIds == u.appliedJobIds)
         && (p.appliedJobIds.Some? ==> r.appliedJobIds == p.appliedJobIds)
    ensures (p.companyName.None? ==> r.companyName == u.companyName)
         && (p.companyName.Some? ==> r.companyName == p.companyName)
    ensures (p.designation.None? ==> r.designation == u.designation)
         && (p.designation.Some? ==> r.designation == p.designation)
    ensures p == NoPatch ==> r == u
  {
    User(Override(u.uid, p.uid), Merge(u.email, p.email),
         Override(u.displayName, p.displayName), Override(u.photoURL, p.photoURL), Override(u.role, p.role),
         Merge(u.phoneNumber, p.phoneNumber), Merge(u.address, p.address), Merge(u.cgpa, p.cgpa),
         Merge(u.experience, p.experience), Merge(u.resumeText, p.resumeText),
         Merge(u.appliedJobIds, p.appliedJobIds), Merge(u.companyName, p.companyName),
         Merge(u.designation, p.designation))
  }

  /** Saving the same profile edit twice is saving it once. */
  lemma PatchIdempotent(u: User, p: UserPatch)
    ensures Patched(Patched(u, p), p) == Patched(u, p)
  {
  }

  /** The record a first sign-in writes: identity fields, the computed role and
      no applied jobs, with `extra` spread last. */
  function NewUser(id: Identity, extra: UserPatch, role: Role): (u: User)
    ensures (extra.role.None? ==> u.role == role) && (extra.role.Some? ==> u.role == extra.role.value)
    ensures (extra.appliedJobIds.None? ==> u.appliedJobIds == Some([]))
         && (extra.appliedJobIds.Some? ==> u.appliedJobIds == extra.appliedJobIds)
    ensures (extra.uid.None? ==> u.uid == id.uid) && (extra.uid.Some? ==> u.uid == extra.uid.value)
    ensures (extra.displayName.None? ==> u.displayName == id.displayName)
         && (extra.displayName.Some? ==> u.displayName == extra.displayName.value)
    ensures (extra.photoURL.None? ==> u.photoURL == id.photoURL)
         && (extra.photoURL.Some? ==> u.photoURL == extra.photoURL.value)
    ensures (extra.email.None? ==> u.email == id.email) && (extra.email.Some? ==> u.email == extra.email)
    // The sign-up's own fields are stored as given.
    ensures u.phoneNumber == extra.phoneNumber && u.address == extra.address && u.cgpa == extra.cgpa
    ensures u.experience == extra.experience && u.resumeText == extra.resumeText
    ensures u.companyName == extra.companyName && u.designation == extra.designation
  {
    Patched(User(id.uid, id.email, id.displayName, id.photoURL, role,
                 None, None, None, None, None, Some([]), None, None), extra)
  }

  /** The user returned without a database: an admin exactly when the sign-up
      names a company, default email and name, nothing stored. */
  function MockUser(id: Identity, extra: UserPatch): (u: User)
    ensures extra.role.None? ==> (u.role == Admin <==> Truthy(extra.companyName))
    ensures extra.appliedJobIds.None? ==> u.appliedJobIds == Some([])
    ensures extra.email.None? ==> u.email == Some(OrElse(id.email, "student@example.com"))
    ensures extra.displayName.None? ==> u.displayName == Some(OrElse(id.displayName, "Mock User"))
  {
    Patched(User(id.uid, Some(OrElse(id.email, "student@example.com")), Some(OrElse(id.displayName, "Mock User")),
                 id.photoURL, if Truthy(extra.companyName) then Admin else Student,
                 None, None, None, None, None, Some([]), None, None), extra)
  }

  /** `getOrCreateUser` against a configured store: the user collection after
      the call and what the call returns or throws. */
  function UserOutcome(users: map<string, User>, id: Identity, extra: UserPatch, o: Outage)
    : (r: (map<string, User>, Result<User>))
    ensures r.1.Err? ==> r.0 == users
    ensures r.1.Ok? <==> Answers(o, 0) && (id.uid in users || Answers(o, 2))
    ensures id.uid in users && r.1.Ok? ==> r.0 == users && r.1.value == users[id.uid]
    ensures id.uid !in users && r.1.Ok? ==>
      && r.1.value == NewUser(id, extra, if |users| == 0 then Admin else Student)
      && r.0 == users[id.uid := r.1.value]
    ensures id.uid !in users && r.1.Ok? && extra.role.None? ==> (r.1.value.role == Admin <==> |users| == 0)
  {
    if !Answers(o, 0) then (users, Err(StoreFailure(o.reason)))
    else if id.uid in users then (users, Ok(users[id.uid]))
    else if !Answers(o, 1) then (users, Err(StoreFailure(o.reason)))
    else
      var created := NewUser(id, extra, if |users| == 0 then Admin else Student);
      if !Answers(o, 2) then (users, Err(StoreFailure(o.reason)))
      else (users[id.uid := created], Ok(created))
  }

  function Admins(users: map<string, User>): set<string> {
    set k | k in users && users[k].role == Admin
  }

  /** One call of `getOrCreateUser`: who signs in, the extra sign-up fields and
      the store's availability during the call. */
  datatype SignIn = SignIn(id: Identity, extra: UserPatch, o: Outage)

  ghost predicate NoRoleInExtras(steps: seq<SignIn>) {
    forall i :: 0 <= i < |steps| ==> steps[i].extra.role.None?
  }

  /** The user collection after the given sign-ins, one after another. */
  function SignIns(users: map<string, User>, steps: seq<SignIn>): map<string, User>
    decreases |steps|
  {
    if steps == [] then users
    else SignIns(UserOutcome(users, steps[0].id, steps[0].extra, steps[0].o).0, steps[1..])
  }

  /** Once a user exists, a sign-in never adds an admin. */
  lemma SignInKeepsAdmins(users: map<string, User>, s: SignIn)
    requires |users| > 0 && s.extra.role.None?
    ensures var users' := UserOutcome(users, s.id, s.extra, s.o).0;
      Admins(users') == Admins(users) && |users'| > 0
  {
    var r := UserOutcome(users, s.id, s.extra, s.o);
    if s.id.uid !in users && r.1.Ok? {
      assert s.id.uid in r.0;
    }
  }

  lemma {:induction false} SignInsKeepAdmins(users: map<string, User>, steps: seq<SignIn>)
    requires |users| > 0 && NoRoleInExtras(steps)
    ensures Admins(SignIns(users, steps)) == Admins(users)
    decreases |steps|
  {
    if steps != [] {
      SignInKeepsAdmins(users, steps[0]);
      SignInsKeepAdmins(UserOutcome(users, steps[0].id, steps[0].extra, steps[0].o).0, steps[1..]);
    }
  }

  /** From an empty user collection and a reachable store, whatever sequence of
      sign-ins follows (repeated identities included), the first identity is
      the only admin. */
  lemma FirstSignInIsOnlyAdmin(steps: seq<SignIn>)
    requires |steps| > 0 && NoRoleInExtras(steps)
    requires forall i :: 0 <= i < |steps| ==> steps[i].o == Reachable
    ensures Admins(SignIns(map[], steps)) == {steps[0].id.uid}
  {
    var first := UserOutcome(map[], steps[0].id, steps[0].extra, Reachable).0;
    assert first == map[steps[0].id.uid := NewUser(steps[0].id, steps[0].extra, Admin)];
    assert Admins(first) == {steps[0].id.uid};
    SignInsKeepAdmins(first, steps[1..]);
  }

  /** With the store failing at any point of any sign-in, there is still never
      more than one admin. */
  lemma {:induction false} NeverTwoAdmins(users: map<string, User>, steps: seq<SignIn>)
    requires |users| == 0 && NoRoleInExtras(steps)
    ensures |Admins(SignIns(users, steps))| <= 1
    decreases |steps|
  {
    if steps != [] {
      var s := steps[0];
      var users' := UserOutcome(users, s.id, s.extra, s.o).0;
      if |users'| == 0 {
        NeverTwoAdmins(users', steps[1..]);
      } else {
        assert users' == map[s.id.uid := NewUser(s.id, s.extra, Admin)];
        assert Admins(users') == {s.id.uid};
        SignInsKeepAdmins(users', steps[1..]);
      }
    }
  }
}
