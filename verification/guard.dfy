/** The workspace guard (lib/auth/guard.ts): `requireAuth` sends a visitor
    without a session to the sign-in page, and `requireWorkspace` resolves the
    signed-in user's active workspace and role from their memberships and
    profile, redirecting to onboarding when there is none. */
module Guard {
  import opened Wrappers
  import opened Types

  /** What `requireWorkspace` ends in: the caller's user, workspace and role,
      a redirect (Next.js `redirect` throws and leaves the request), or a
      thrown Error with its message. */
  datatype GuardOutcome =
    | Granted(userId: Id, workspaceId: Id, role: Role)
    | GuardRedirect(path: string)
    | GuardThrow(message: string)

  const SignInPath := "/sign-in"
  const OnboardingPath := "/onboarding"
  const MembershipError := "Failed to verify workspace access"
  const ProfileError := "Failed to fetch user profile"
  const RoleError := "Failed to get workspace role"

  /** `requireAuth`: the session's user, or the sign-in redirect when the
      lookup failed or nobody is signed in (`None`). */
  function RequireAuth(user: Option<Id>): (r: Result<Id, string>)
    ensures r.Ok? <==> user.Some?
    ensures r.Ok? ==> r.value == user.value
    ensures r.Err? ==> r.error == SignInPath
  {
    if user.None? then Err(SignInPath) else Ok(user.value)
  }

  predicate IsMemberOf(memberships: seq<Membership>, ws: Id) {
    exists i :: 0 <= i < |memberships| && memberships[i].workspaceId == ws
  }

  /** `memberships.find(m => m.workspace_id === ws)`: the first match. */
  function FindMembership(memberships: seq<Membership>, ws: Id): (r: Option<Membership>)
    ensures r.None? <==> !IsMemberOf(memberships, ws)
    ensures r.Some? ==> r.value.workspaceId == ws
    ensures r.Some? ==> exists i :: (0 <= i < |memberships| && memberships[i] == r.value
      && forall j :: 0 <= j < i ==> memberships[j].workspaceId != ws)
    decreases |memberships|
  {
    if |memberships| == 0 then None
    else if memberships[0].workspaceId == ws then Some(memberships[0])
    else
      var r := FindMembership(memberships[1..], ws);
      assert IsMemberOf(memberships, ws) <==> IsMemberOf(memberships[1..], ws) by {
        if IsMemberOf(memberships, ws) {
          var i :| 0 <= i < |memberships| && memberships[i].workspaceId == ws;
          assert memberships[1..][i - 1] == memberships[i];
        }
        if IsMemberOf(memberships[1..], ws) {
          var i :| 0 <= i < |memberships[1..]| && memberships[1..][i].workspaceId == ws;
          assert memberships[i + 1] == memberships[1..][i];
        }
      }
      if r.Some? then
        assert exists i :: (0 <= i < |memberships| && memberships[i] == r.value
          && forall j :: 0 <= j < i ==> memberships[j].workspaceId != ws) by {
          var k :| 0 <= k < |memberships[1..]| && memberships[1..][k] == r.value
            && forall j :: 0 <= j < k ==> memberships[1..][j].workspaceId != ws;
          assert memberships[k + 1] == r.value;
          forall j | 0 <= j < k + 1 ensures memberships[j].workspaceId != ws {
            if j > 0 {
              assert memberships[j] == memberships[1..][j - 1];
            }
          }
        }
        r
      else r
  }

  /** `requireWorkspace`, given what its three lookups returned: the session
      user, the user's memberships (`None` when the query errs) and the
      profile (`None` when `.single()` errs, a missing profile included). */
  function RequireWorkspace(user: Option<Id>, memberships: Option<seq<Membership>>,
                            profile: Option<Profile>): (r: GuardOutcome)
    ensures r.Granted? ==> user == Some(r.userId)
  {
    match RequireAuth(user)
    case Err(path) => GuardRedirect(path)
    case Ok(uid) =>
      if memberships.None? then GuardThrow(MembershipError)
      else if |memberships.value| == 0 then GuardRedirect(OnboardingPath)
      else if profile.None? then GuardThrow(ProfileError)
      else
        var active := profile.value.activeWorkspaceId;
        if active.None? || active.value == "" || !IsMemberOf(memberships.value, active.value) then
          GuardRedirect(OnboardingPath)
        else
          match FindMembership(memberships.value, active.value)
          case None => GuardThrow(RoleError)
          case Some(m) => Granted(uid, active.value, m.role)
  }

  /** Access is granted exactly when the user is signed in, both lookups
      succeed, and the profile's active workspace is non-empty and one the
      user belongs to. */
  lemma GrantedIff(user: Option<Id>, memberships: Option<seq<Membership>>, profile: Option<Profile>)
    ensures RequireWorkspace(user, memberships, profile).Granted? <==>
      && user.Some? && memberships.Some? && |memberships.value| > 0 && profile.Some?
      && var active := profile.value.activeWorkspaceId;
         active.Some? && active.value != "" && IsMemberOf(memberships.value, active.value)
  {
  }

  /** A granted caller acts in their active workspace, with the role of the
      first membership row for it. */
  lemma GrantedRole(user: Option<Id>, memberships: Option<seq<Membership>>, profile: Option<Profile>)
    requires RequireWorkspace(user, memberships, profile).Granted?
    ensures var g := RequireWorkspace(user, memberships, profile);
      && Some(g.workspaceId) == profile.value.activeWorkspaceId
      && exists i :: 0 <= i < |memberships.value|
           && memberships.value[i] == Membership(g.workspaceId, g.role)
           && forall j :: 0 <= j < i ==> memberships.value[j].workspaceId != g.workspaceId
  {
  }

  /** The checks run in order: no session → sign-in; membership query error →
      throw; no memberships → onboarding, before the profile is read; profile
      error → throw; otherwise an unusable active workspace → onboarding. */
  lemma GuardOrder(user: Option<Id>, memberships: Option<seq<Membership>>, profile: Option<Profile>)
    ensures user.None? ==> RequireWorkspace(user, memberships, profile) == GuardRedirect(SignInPath)
    ensures user.Some? && memberships.None? ==> RequireWorkspace(user, memberships, profile) == GuardThrow(MembershipError)
    ensures user.Some? && memberships == Some([]) ==> RequireWorkspace(user, memberships, profile) == GuardRedirect(OnboardingPath)
    ensures user.Some? && memberships.Some? && |memberships.value| > 0 && profile.None? ==>
      RequireWorkspace(user, memberships, profile) == GuardThrow(ProfileError)
  {
  }

  /** The "Failed to get workspace role" error can never be thrown: the
      membership check just before it guarantees `find` succeeds. */
  lemma RoleErrorUnreachable(user: Option<Id>, memberships: Option<seq<Membership>>, profile: Option<Profile>)
    ensures RequireWorkspace(user, memberships, profile) != GuardThrow(RoleError)
  {
  }
}
