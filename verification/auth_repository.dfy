/**
 * `SupabaseAuthRepositoryImpl`: signing in as a passenger or a driver (which
 * writes the role into the caller's `profiles` row and reads the row back),
 * signing out, and the `currentUser` it keeps.
 */
module AuthRepository {
  import opened Wrappers
  import opened Seqs
  import opened Errors
  import opened Entities

  /** One row of the `profiles` table; `role` is free text on the wire. */
  datatype ProfileRow = ProfileRow(id: Uuid, role: string, name: Option<string>, phone: Option<string>)

  /** The auth SDK's session user and the repository's `currentUser`. */
  datatype AuthState = AuthState(sessionUser: Option<Uuid>, currentUser: Option<UserProfile>)

  /** The `upsert` payload: the caller's id and the forced role. */
  datatype ProfileUpsert = ProfileUpsert(id: Uuid, role: string)

  /** A sign-in attempt: the new state, the upsert it sent (if any) and its outcome. */
  datatype SignIn = SignIn(state: AuthState, sent: Option<ProfileUpsert>, result: Result<UserProfile, QError>)

  /** `p.role == "driver" ? .driver : .passenger` */
  function RoleOf(role: string): (r: UserRole)
    ensures r == DriverRole <==> role == "driver"
    ensures r == PassengerRole <==> role != "driver"
  {
    if role == "driver" then DriverRole else PassengerRole
  }

  /** The profile a row describes. */
  function ProfileOf(p: ProfileRow): (u: UserProfile)
    ensures u.id == p.id && u.name == p.name && u.phone == p.phone
    ensures u.role == DriverRole <==> p.role == "driver"
  {
    UserProfile(p.id, RoleOf(p.role), p.name, p.phone)
  }

  /** `from("profiles").select().eq("id", …).limit(1)` */
  function SelectProfile(profiles: seq<ProfileRow>, uid: Uuid): (rows: seq<ProfileRow>)
    ensures |rows| <= 1
    ensures |rows| == 0 <==> forall p :: p in profiles ==> p.id != uid
    ensures |rows| == 1 ==> rows[0] in profiles && rows[0].id == uid
  {
    var mine := Filter((p: ProfileRow) => p.id == uid, profiles);
    if |mine| > 0 then assert mine[0] in mine; Take(mine, 1) else Take(mine, 1)
  }

  /**
   * `loadCurrentProfile(forceRole:)`: with no session user it throws
   * `notAuthenticated` before writing; otherwise it upserts the role, then
   * reads the profile back from `profiles` (the table as the select sees it,
   * or the select's error).
   */
  function LoadCurrentProfile(
    st: AuthState, forceRole: string, upsertError: Option<QError>,
    profiles: Result<seq<ProfileRow>, QError>): (s: SignIn)
    ensures st.sessionUser.None? ==> s == SignIn(st, None, Err(NotAuthenticated))
    ensures st.sessionUser.Some? ==> s.sent == Some(ProfileUpsert(st.sessionUser.value, forceRole))
    ensures s.result.Err? ==> s.state == st
    ensures s.result.Ok? ==> s.state == st.(currentUser := Some(s.result.value))
    ensures s.result.Ok? ==> st.sessionUser == Some(s.result.value.id)
    ensures (&& st.sessionUser.Some? && upsertError.None? && profiles.Ok?
             && (forall p :: p in profiles.value ==> p.id != st.sessionUser.value))
      ==> s.result == Err(NotFound("profile"))
    ensures s.result.Ok? ==> profiles.Ok? && exists p :: p in profiles.value && p.id == s.result.value.id && s.result.value == ProfileOf(p)
  {
    if st.sessionUser.None? then SignIn(st, None, Err(NotAuthenticated))
    else
      var uid := st.sessionUser.value;
      var sent := Some(ProfileUpsert(uid, forceRole));
      if upsertError.Some? then SignIn(st, sent, Err(upsertError.value))
      else if profiles.Err? then SignIn(st, sent, Err(profiles.error))
      else
        var rows := SelectProfile(profiles.value, uid);
        if |rows| == 0 then SignIn(st, sent, Err(NotFound("profile")))
        else
          var profile := ProfileOf(rows[0]);
          SignIn(st.(currentUser := Some(profile)), sent, Ok(profile))
  }

  /** `signInAsPassenger` */
  function SignInAsPassenger(st: AuthState, upsertError: Option<QError>, profiles: Result<seq<ProfileRow>, QError>): (s: SignIn)
    ensures st.sessionUser.None? ==> s.sent.None? && s.result == Err(NotAuthenticated)
    ensures st.sessionUser.Some? ==> s.sent == Some(ProfileUpsert(st.sessionUser.value, "passenger"))
    ensures s.result.Ok? ==> s.state.currentUser == Some(s.result.value) && st.sessionUser == Some(s.result.value.id)
  {
    LoadCurrentProfile(st, "passenger", upsertError, profiles)
  }

  /** `signInAsDriver` */
  function SignInAsDriver(st: AuthState, upsertError: Option<QError>, profiles: Result<seq<ProfileRow>, QError>): (s: SignIn)
    ensures st.sessionUser.None? ==> s.sent.None? && s.result == Err(NotAuthenticated)
    ensures st.sessionUser.Some? ==> s.sent == Some(ProfileUpsert(st.sessionUser.value, "driver"))
    ensures s.result.Ok? ==> s.state.currentUser == Some(s.result.value) && st.sessionUser == Some(s.result.value.id)
  {
    LoadCurrentProfile(st, "driver", upsertError, profiles)
  }

  /**
   * What the store does with the upsert: every row with the caller's id gets
   * the forced role and keeps its name and phone; when there is none, a bare
   * row is inserted. No other row is touched.
   */
  function ApplyUpsert(profiles: seq<ProfileRow>, u: ProfileUpsert): (t: seq<ProfileRow>)
    ensures exists p :: p in t && p.id == u.id
    ensures forall p :: p in t && p.id == u.id ==> p.role == u.role
    ensures forall p :: p in profiles && p.id == u.id ==> p.(role := u.role) in t
    ensures forall p :: p in profiles && p.id != u.id ==> p in t
    ensures forall p :: p in t && p.id != u.id ==> p in profiles
    ensures |t| == |profiles| + (if exists p :: p in profiles && p.id == u.id then 0 else 1)
  {
    var updated := Map((p: ProfileRow) => if p.id == u.id then p.(role := u.role) else p, profiles);
    forall p | p in profiles ensures (if p.id == u.id then p.(role := u.role) else p) in updated {
      var i :| 0 <= i < |profiles| && profiles[i] == p;
      assert updated[i] == (if p.id == u.id then p.(role := u.role) else p);
    }
    forall q | q in updated ensures (q.id == u.id ==> q.role == u.role) && (q.id != u.id ==> q in profiles) {
      var i :| 0 <= i < |updated| && updated[i] == q;
    }
    if exists p :: p in profiles && p.id == u.id then updated
    else
      var bare := ProfileRow(u.id, u.role, None, None);
      assert bare in profiles + [bare];
      profiles + [bare]
  }

  /**
   * When the select sees the upsert applied, signing in as a driver yields a
   * driver and signing in as a passenger yields a passenger.
   */
  lemma SignInGetsForcedRole(st: AuthState, before: seq<ProfileRow>, asDriver: bool)
    requires st.sessionUser.Some?
    ensures var role := if asDriver then "driver" else "passenger";
      var s := LoadCurrentProfile(st, role, None, Ok(ApplyUpsert(before, ProfileUpsert(st.sessionUser.value, role))));
      s.result.Ok? && s.result.value.role == (if asDriver then DriverRole else PassengerRole)
      && s.state.currentUser == Some(s.result.value)
  {
  }

  /**
   * `signOut`: the auth SDK's call is awaited with its error swallowed, and
   * `currentUser` is cleared regardless. What the SDK leaves as its session
   * (`sessionAfter`) is its own business and an input here.
   */
  function SignOut(st: AuthState, sessionAfter: Option<Uuid>): (s: AuthState)
    ensures s.currentUser.None?
    ensures s.sessionUser == sessionAfter
  {
    AuthState(sessionAfter, None)
  }

  /**
   * After a sign-out that leaves the SDK without a session, a sign-in writes
   * nothing and fails `notAuthenticated`; if the SDK still holds a session,
   * the next sign-in upserts for that user again.
   */
  lemma SignedOutCannotSignIn(st: AuthState, sessionAfter: Option<Uuid>, role: string, upsertError: Option<QError>, profiles: Result<seq<ProfileRow>, QError>)
    ensures var out := SignOut(st, sessionAfter);
      && (sessionAfter.None? ==> LoadCurrentProfile(out, role, upsertError, profiles) == SignIn(out, None, Err(NotAuthenticated)))
      && (sessionAfter.Some? ==> LoadCurrentProfile(out, role, upsertError, profiles).sent == Some(ProfileUpsert(sessionAfter.value, role)))
  {
  }
}
