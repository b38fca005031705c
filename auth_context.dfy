/**
 * The signed-in user (context/AuthContext.tsx). The demo starts signed in
 * as the host; `login` only chooses between two fixed users.
 */
module AuthContext {
  import opened Wrappers
  import opened Types

  const MOCK_HOST_USER := User("u1", "Jay Deep", "jay@example.com", Host, "JD", None)
  const MOCK_VENDOR_USER := User("v_user_1", "Ramesh Decorators", "ramesh@decor.com", VendorRole, "RD", Some("v_pending"))

  /** The user `login(role)` installs: the vendor user for the vendor role, the host user for every other role. */
  function LoginUser(role: UserRole): (u: User)
    ensures u.role == VendorRole <==> role == VendorRole
    ensures u == MOCK_VENDOR_USER || u == MOCK_HOST_USER
    ensures role == Admin ==> u.role == Host
  {
    if role == VendorRole then MOCK_VENDOR_USER else MOCK_HOST_USER
  }

  /** `Partial<User>`: the fields the update supplies. */
  datatype UserPatch = UserPatch(
    id: Option<string>,
    name: Option<string>,
    email: Option<string>,
    role: Option<UserRole>,
    avatar: Option<string>,
    vendorProfileId: Option<string>)

  const NO_CHANGES := UserPatch(None, None, None, None, None, None)

  /** `{ ...user, ...updates }`. */
  function Merge(u: User, patch: UserPatch): User {
    User(patch.id.GetOr(u.id), patch.name.GetOr(u.name), patch.email.GetOr(u.email),
         patch.role.GetOr(u.role), patch.avatar.GetOr(u.avatar),
         if patch.vendorProfileId.Some? then patch.vendorProfileId else u.vendorProfileId)
  }

  /** `{ ...p, ...q }` on patches: q's fields win. */
  function Then(p: UserPatch, q: UserPatch): UserPatch {
    UserPatch(if q.id.Some? then q.id else p.id, if q.name.Some? then q.name else p.name,
              if q.email.Some? then q.email else p.email, if q.role.Some? then q.role else p.role,
              if q.avatar.Some? then q.avatar else p.avatar,
              if q.vendorProfileId.Some? then q.vendorProfileId else p.vendorProfileId)
  }

  /** An empty update changes nothing; each supplied field is set and every other field is kept. */
  lemma MergeOverridesExactlySuppliedFields(u: User, patch: UserPatch)
    ensures Merge(u, NO_CHANGES) == u
    ensures Merge(u, patch).id == if patch.id.Some? then patch.id.value else u.id
    ensures Merge(u, patch).name == if patch.name.Some? then patch.name.value else u.name
    ensures Merge(u, patch).email == if patch.email.Some? then patch.email.value else u.email
    ensures Merge(u, patch).role == if patch.role.Some? then patch.role.value else u.role
    ensures Merge(u, patch).avatar == if patch.avatar.Some? then patch.avatar.value else u.avatar
    ensures Merge(u, patch).vendorProfileId ==
              if patch.vendorProfileId.Some? then patch.vendorProfileId else u.vendorProfileId
    ensures patch == NO_CHANGES.(avatar := patch.avatar) ==> Merge(u, patch) == u.(avatar := patch.avatar.GetOr(u.avatar))
  {
  }

  /** Applying the same update twice is applying it once. */
  lemma MergeIdempotent(u: User, patch: UserPatch)
    ensures Merge(Merge(u, patch), patch) == Merge(u, patch)
  {
  }

  /** Two successive updates are one update with the later fields winning. */
  lemma MergeThen(u: User, p: UserPatch, q: UserPatch)
    ensures Merge(Merge(u, p), q) == Merge(u, Then(p, q))
  {
  }

  class AuthStore {
    var user: Option<User>

    constructor ()
      ensures user == Some(MOCK_HOST_USER) && IsAuthenticated()
    {
      user := Some(MOCK_HOST_USER);
    }

    /** `!!user`. */
    predicate IsAuthenticated()
      reads this
    {
      user.Some?
    }

    method Login(role: UserRole)
      modifies this
      ensures user == Some(LoginUser(role)) && IsAuthenticated()
    {
      if role == VendorRole {
        user := Some(MOCK_VENDOR_USER);
      } else {
        user := Some(MOCK_HOST_USER);
      }
    }

    method Logout()
      modifies this
      ensures user == None && !IsAuthenticated()
    {
      user := None;
    }

    /** A no-op while signed out. */
    method UpdateUser(updates: UserPatch)
      modifies this
      ensures old(user).None? ==> user == None
      ensures old(user).Some? ==> user == Some(Merge(old(user).value, updates))
      ensures IsAuthenticated() == old(IsAuthenticated())
    {
      if user.Some? {
        user := Some(Merge(user.value, updates));
      }
    }
  }
}
