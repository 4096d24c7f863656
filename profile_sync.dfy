/**
 * The client-side session check: with a session, the token is stored and the
 * user's profile row is created or refreshed from the sign-in metadata; with
 * none, the auth cookies are removed. Each backend answer is an input and
 * `now` stands for `new Date().toISOString()`.
 */
module ProfileSync {
  import opened Wrappers

  /** JavaScript truthiness of an optional string: present and not "". */
  predicate Truthy(x: Option<string>)
  {
    x.Some? && x.value != ""
  }

  /** `a || b` on optional strings. */
  function Or(a: Option<string>, b: Option<string>): Option<string>
  {
    if Truthy(a) then a else b
  }

  /** `a || fallback` ending in a definite string. */
  function OrElse(a: Option<string>, fallback: string): string
  {
    if Truthy(a) then a.value else fallback
  }

  /** The fields of `user.user_metadata` the profile reads; each may be missing. */
  datatype Metadata = Metadata(fullName: Option<string>, name: Option<string>, avatarUrl: Option<string>,
                               picture: Option<string>, email: Option<string>, createdAt: Option<string>)

  /** A stored profile row; each column may be null. */
  datatype StoredProfile = StoredProfile(fullName: Option<string>, avatarUrl: Option<string>,
                                         email: Option<string>, createdAt: Option<string>)

  /** The profile handed to the backend and to `setUser`. */
  datatype Profile = Profile(userId: string, fullName: string, avatarUrl: Option<string>, email: string,
                             createdAt: string)

  /** The answer to the profile select: the row, if any, and the error code, if an error came back. */
  datatype ProfileFetch = ProfileFetch(existing: Option<StoredProfile>, errorCode: Option<string>)

  const NoRowsCode: string := "PGRST116"

  /** `profileData`: the profile built from the metadata alone. */
  function NewProfile(userId: string, meta: Metadata, now: string): (p: Profile)
    ensures p.userId == userId && p.fullName != ""
  {
    Profile(userId, OrElse(Or(meta.fullName, meta.name), "User"), Or(meta.avatarUrl, Or(meta.picture, None)),
            OrElse(meta.email, ""), OrElse(meta.createdAt, now))
  }

  /** `updateData` with the user id added: metadata first, then the stored column, then the default. */
  function UpdatedProfile(userId: string, meta: Metadata, stored: StoredProfile, now: string): (p: Profile)
    ensures p.userId == userId && p.fullName != ""
  {
    Profile(userId, OrElse(Or(meta.fullName, Or(meta.name, stored.fullName)), "User"),
            Or(meta.avatarUrl, Or(meta.picture, Or(stored.avatarUrl, None))),
            OrElse(meta.email, OrElse(stored.email, "")),
            OrElse(meta.createdAt, OrElse(stored.createdAt, now)))
  }

  /** What `createOrUpdateProfile` sends to the backend. */
  datatype Plan = Abort | Insert(profile: Profile) | Update(profile: Profile)

  function PlanFor(userId: string, meta: Metadata, fetched: ProfileFetch, now: string): (r: Plan)
  {
    if fetched.errorCode.Some? && fetched.errorCode.value != NoRowsCode then Abort
    else if fetched.existing.None? then Insert(NewProfile(userId, meta, now))
    else Update(UpdatedProfile(userId, meta, fetched.existing.value, now))
  }

  /** The argument of `setUser`, if it is called, once the write has succeeded or failed. */
  function SetUserWith(plan: Plan, writeOk: bool): (r: Option<Profile>)
    ensures r.Some? <==> !plan.Abort? && writeOk
    ensures r.Some? ==> r.value == plan.profile
  {
    if plan.Abort? || !writeOk then None else Some(plan.profile)
  }

  /** Only a fetch error other than "no rows" aborts; otherwise an absent row is inserted and a present one updated. */
  lemma PlanChoice(userId: string, meta: Metadata, fetched: ProfileFetch, now: string)
    ensures PlanFor(userId, meta, fetched, now).Abort? <==>
              fetched.errorCode.Some? && fetched.errorCode.value != NoRowsCode
    ensures PlanFor(userId, meta, fetched, now).Insert? <==>
              (fetched.errorCode.None? || fetched.errorCode.value == NoRowsCode) && fetched.existing.None?
    ensures PlanFor(userId, meta, fetched, now).Update? <==>
              (fetched.errorCode.None? || fetched.errorCode.value == NoRowsCode) && fetched.existing.Some?
    ensures PlanFor(userId, meta, fetched, now).Abort? ==> SetUserWith(PlanFor(userId, meta, fetched, now), true).None?
  {
  }

  /** Whatever is written carries the session user's id and a non-empty name. */
  lemma WrittenProfileShape(userId: string, meta: Metadata, fetched: ProfileFetch, now: string)
    ensures var plan := PlanFor(userId, meta, fetched, now);
            !plan.Abort? ==> plan.profile.userId == userId && plan.profile.fullName != ""
  {
  }

  /** Metadata wins over the stored row, field by field. */
  lemma MetadataFirst(userId: string, meta: Metadata, stored: StoredProfile, now: string)
    ensures var p := UpdatedProfile(userId, meta, stored, now);
            (Truthy(meta.fullName) ==> p.fullName == meta.fullName.value) &&
            (!Truthy(meta.fullName) && Truthy(meta.name) ==> p.fullName == meta.name.value) &&
            (Truthy(meta.avatarUrl) ==> p.avatarUrl == meta.avatarUrl) &&
            (!Truthy(meta.avatarUrl) && Truthy(meta.picture) ==> p.avatarUrl == meta.picture) &&
            (Truthy(meta.email) ==> p.email == meta.email.value) &&
            (Truthy(meta.createdAt) ==> p.createdAt == meta.createdAt.value)
    ensures var p := UpdatedProfile(userId, meta, stored, now);
            (Truthy(Or(meta.fullName, meta.name)) && Truthy(meta.email) && Truthy(meta.createdAt) &&
             Truthy(Or(meta.avatarUrl, meta.picture))) ==> p == NewProfile(userId, meta, now)
  {
  }

  /** The fallbacks: the stored value when the metadata lacks one, then "User", null, "" and the current time. */
  lemma Fallbacks(userId: string, meta: Metadata, stored: StoredProfile, now: string)
    requires !Truthy(meta.fullName) && !Truthy(meta.name) && !Truthy(meta.avatarUrl) && !Truthy(meta.picture)
    requires !Truthy(meta.email) && !Truthy(meta.createdAt)
    ensures NewProfile(userId, meta, now) == Profile(userId, "User", None, "", now)
    ensures UpdatedProfile(userId, meta, stored, now) ==
              Profile(userId, OrElse(stored.fullName, "User"), Or(stored.avatarUrl, None),
                      OrElse(stored.email, ""), OrElse(stored.createdAt, now))
  {
  }

  // ---------------------------------------------------------------------------
  // checkSession

  /** The answer to `getSession`. */
  datatype SessionAnswer = SessionError | NoSession | Signed(userId: string, meta: Metadata, token: string)

  /** What `checkSession` does. */
  datatype Effect =
    | Nothing
    | RemoveCookies(names: seq<string>)
    | StoreTokenAndSync(token: string, plan: Plan)

  const AuthCookies: seq<string> := ["access_token", "refresh_token", "provider_token"]

  function SessionEffect(answer: SessionAnswer, fetched: ProfileFetch, now: string): (r: Effect)
    ensures answer.SessionError? <==> r.Nothing?
    ensures answer.NoSession? <==> r == RemoveCookies(AuthCookies)
    ensures answer.Signed? ==> r == StoreTokenAndSync(answer.token, PlanFor(answer.userId, answer.meta, fetched, now))
  {
    match answer
    case SessionError => Nothing
    case NoSession => RemoveCookies(AuthCookies)
    case Signed(userId, meta, token) => StoreTokenAndSync(token, PlanFor(userId, meta, fetched, now))
  }
}
