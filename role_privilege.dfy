/**
 * The `role_privilege` special case: a forbidden case for user entities. It
 * ranks the site's roles by storage order, leaving out the two baseline roles,
 * and forbids an update when the acting account's best role ranks below the
 * target user's best role.
 */
module RolePrivilegeCase {
  import opened Model
  import opened AccessSpecialCaseManager

  /** The plugin's annotation: type "forbidden", entity type "user" only. */
  const Definition := SpecialCaseDef("role_privilege", "forbidden", ["user"], [], RolePrivilegePlugin)

  /** Roles never ranked. */
  const DisabledRoles: seq<string> := ["anonymous", "authenticated"]

  /** The starting weight of the search for the best role: "no ranked role". */
  const NoRoleWeight := 100

  /** `roles` with every role listed in `removed` unset. */
  function Without(roles: seq<string>, removed: seq<string>): seq<string>
  {
    if roles == [] then []
    else
      var last := roles[|roles| - 1];
      Without(roles[..|roles| - 1], removed) + (if last in removed then [] else [last])
  }

  /** The ranking list: the stored roles in order, minus the baseline roles. */
  function RankedRoles(stored: seq<string>): seq<string>
  {
    Without(stored, DisabledRoles)
  }

  /** The position of the first occurrence of `x` in `s`. */
  function FirstIndex(s: seq<string>, x: string): (k: nat)
    requires x in s
    ensures k < |s| && s[k] == x
    ensures forall j :: 0 <= j < k ==> s[j] != x
  {
    if s[0] == x then 0 else 1 + FirstIndex(s[1..], x)
  }

  /** `(int) array_search($role, $this->roles)`: an unlisted role casts FALSE to 0. */
  function Weight(ranked: seq<string>, role: string): nat
  {
    if role in ranked then FirstIndex(ranked, role) else 0
  }

  /** `getHighestRole` on the roles seen so far: the smallest weight, starting from 100. */
  function HighestRole(ranked: seq<string>, roles: seq<string>): int
  {
    if roles == [] then NoRoleWeight
    else
      var best := HighestRole(ranked, roles[..|roles| - 1]);
      var role := roles[|roles| - 1];
      if role in DisabledRoles then best
      else if Weight(ranked, role) < best then Weight(ranked, role)
      else best
  }

  /** What `checkAccess` answers: true forbids the operation. */
  predicate Forbids(stored: seq<string>, operation: string, actorRoles: seq<string>, targetRoles: seq<string>)
  {
    && operation == "update"
    && HighestRole(RankedRoles(stored), actorRoles) > HighestRole(RankedRoles(stored), targetRoles)
  }

  /** A plugin instance; `roles` is the ranking list that `checkAccess` stores. */
  class RolePrivilege {
    /** The role ids `loadMultiple` returns from the user role storage, in order. */
    const storedRoles: seq<string>
    var roles: seq<string>

    constructor(storedRoles: seq<string>)
      ensures this.storedRoles == storedRoles && roles == []
    {
      this.storedRoles := storedRoles;
      roles := [];
    }

    method CheckAccess(entity: Entity, operation: string, account: Account) returns (forbidden: bool)
      modifies this
      ensures forbidden == Forbids(storedRoles, operation, account.roles, EntityRoles(entity))
      ensures roles == if operation == "update" then RankedRoles(storedRoles) else old(roles)
    {
      if operation != "update" {
        return false;
      }
      var allRoles := storedRoles;
      WithoutNothing(storedRoles);
      for k := 0 to |DisabledRoles|
        invariant allRoles == Without(storedRoles, DisabledRoles[..k])
      {
        WithoutOneMore(storedRoles, DisabledRoles[..k], DisabledRoles[k]);
        assert DisabledRoles[..k + 1] == DisabledRoles[..k] + [DisabledRoles[k]];
        allRoles := Without(allRoles, [DisabledRoles[k]]);
      }
      assert DisabledRoles[..|DisabledRoles|] == DisabledRoles;
      roles := allRoles;
      var userRoleWeight := GetHighestRole(account.roles);
      var entityRoleWeight := GetHighestRole(EntityRoles(entity));
      forbidden := userRoleWeight > entityRoleWeight;
    }

    method GetHighestRole(userRoles: seq<string>) returns (roleWeight: int)
      ensures roleWeight == HighestRole(roles, userRoles)
    {
      roleWeight := NoRoleWeight;
      for i := 0 to |userRoles|
        invariant roleWeight == HighestRole(roles, userRoles[..i])
      {
        assert userRoles[..i + 1][..i] == userRoles[..i];
        var role := userRoles[i];
        if role in DisabledRoles {
          continue;
        }
        var weight := Weight(roles, role);
        if weight < roleWeight {
          roleWeight := weight;
        }
      }
      assert userRoles[..|userRoles|] == userRoles;
    }
  }

  /** Unsetting nothing leaves the list as it was. */
  lemma {:induction false} WithoutNothing(roles: seq<string>)
    ensures Without(roles, []) == roles
  {
    if roles != [] {
      WithoutNothing(roles[..|roles| - 1]);
      assert roles == roles[..|roles| - 1] + [roles[|roles| - 1]];
    }
  }

  /** The last element of a list either survives unsetting, at the end, or is dropped. */
  lemma WithoutLast(roles: seq<string>, removed: seq<string>)
    requires roles != []
    ensures Without(roles, removed)
      == Without(roles[..|roles| - 1], removed) + (if roles[|roles| - 1] in removed then [] else [roles[|roles| - 1]])
  {
  }

  /** Unsetting one more role after a list of them. */
  lemma {:induction false} WithoutOneMore(roles: seq<string>, removed: seq<string>, x: string)
    ensures Without(Without(roles, removed), [x]) == Without(roles, removed + [x])
  {
    if roles != [] {
      var init := roles[..|roles| - 1];
      var last := roles[|roles| - 1];
      WithoutOneMore(init, removed, x);
      var a := Without(init, removed);
      WithoutLast(roles, removed);
      WithoutLast(roles, removed + [x]);
      if last in removed {
        assert last in removed + [x];
        assert a + [] == a;
      } else {
        var w := a + [last];
        assert w[..|w| - 1] == a;
        WithoutLast(w, [x]);
        assert last in removed + [x] <==> last in [x];
      }
    }
  }

  /** A role survives unsetting exactly when it was listed and is not unset. */
  lemma {:induction false} WithoutMembers(roles: seq<string>, removed: seq<string>, x: string)
    ensures x in Without(roles, removed) <==> x in roles && x !in removed
  {
    if roles != [] {
      var init := roles[..|roles| - 1];
      WithoutMembers(init, removed, x);
      assert roles == init + [roles[|roles| - 1]];
    }
  }

  /** Unsetting roles that are not listed leaves the list unchanged. */
  lemma {:induction false} WithoutAbsent(roles: seq<string>, removed: seq<string>)
    requires forall r :: r in roles ==> r !in removed
    ensures Without(roles, removed) == roles
  {
    if roles != [] {
      var init := roles[..|roles| - 1];
      assert forall r :: r in init ==> r in roles;
      WithoutAbsent(init, removed);
      assert roles == init + [roles[|roles| - 1]];
    }
  }

  /**
   * The best weight is the least weight of a held, non-baseline role, or 100
   * when that is smaller or no such role is held.
   */
  lemma {:induction false} HighestRoleIsLeast(ranked: seq<string>, roles: seq<string>)
    ensures var w := HighestRole(ranked, roles);
      && 0 <= w <= NoRoleWeight
      && (forall r :: r in roles && r !in DisabledRoles ==> w <= Weight(ranked, r))
      && (w == NoRoleWeight || exists r :: r in roles && r !in DisabledRoles && w == Weight(ranked, r))
  {
    if roles != [] {
      var init := roles[..|roles| - 1];
      HighestRoleIsLeast(ranked, init);
      assert roles == init + [roles[|roles| - 1]];
    }
  }

  /** Holding no ranked role gives the sentinel weight 100. */
  lemma NoRankedRoleWeighsSentinel(ranked: seq<string>, roles: seq<string>)
    requires forall r :: r in roles ==> r in DisabledRoles
    ensures HighestRole(ranked, roles) == NoRoleWeight
  {
    HighestRoleIsLeast(ranked, roles);
  }

  /** A held role that is missing from the ranking list ranks highest of all, via the `(int) FALSE` cast. */
  lemma UnlistedRoleRanksFirst(ranked: seq<string>, roles: seq<string>, role: string)
    requires role in roles && role !in DisabledRoles && role !in ranked
    ensures HighestRole(ranked, roles) == 0
  {
    HighestRoleIsLeast(ranked, roles);
  }

  /** Baseline roles have no effect on the ranking. */
  lemma {:induction false} BaselineRolesIgnored(ranked: seq<string>, roles: seq<string>)
    ensures HighestRole(ranked, roles) == HighestRole(ranked, Without(roles, DisabledRoles))
  {
    if roles != [] {
      var init := roles[..|roles| - 1];
      var last := roles[|roles| - 1];
      BaselineRolesIgnored(ranked, init);
      WithoutLast(roles, DisabledRoles);
      if last !in DisabledRoles {
        var w := Without(init, DisabledRoles) + [last];
        assert w[..|w| - 1] == Without(init, DisabledRoles);
        assert w[|w| - 1] == last;
        assert HighestRole(ranked, w) == HighestRole(ranked, roles);
      } else {
        assert Without(roles, DisabledRoles) == Without(init, DisabledRoles) + [];
        assert Without(init, DisabledRoles) + [] == Without(init, DisabledRoles);
      }
    }
  }

  /** With at most 100 ranked roles, holding a non-baseline role always beats the sentinel. */
  lemma HeldRoleBeatsSentinel(ranked: seq<string>, roles: seq<string>, role: string)
    requires |ranked| <= NoRoleWeight
    requires role in roles && role !in DisabledRoles
    ensures HighestRole(ranked, roles) < NoRoleWeight
  {
    HighestRoleIsLeast(ranked, roles);
  }

  /** Only updates are ever forbidden. */
  lemma OnlyUpdateForbidden(stored: seq<string>, operation: string, actorRoles: seq<string>, targetRoles: seq<string>)
    requires Forbids(stored, operation, actorRoles, targetRoles)
    ensures operation == "update"
  {
  }

  /**
   * With at most 100 ranked roles, an account holding a non-baseline role is
   * never forbidden from updating a user holding none.
   */
  lemma RankedActorNotForbiddenAgainstUnranked(stored: seq<string>, actorRoles: seq<string>, targetRoles: seq<string>, role: string)
    requires |RankedRoles(stored)| <= NoRoleWeight
    requires role in actorRoles && role !in DisabledRoles
    requires forall r :: r in targetRoles ==> r in DisabledRoles
    ensures !Forbids(stored, "update", actorRoles, targetRoles)
  {
    HeldRoleBeatsSentinel(RankedRoles(stored), actorRoles, role);
    NoRankedRoleWeighsSentinel(RankedRoles(stored), targetRoles);
  }

  /**
   * With at most 100 ranked roles, an account holding no non-baseline role is
   * always forbidden from updating a user who holds one.
   */
  lemma UnrankedActorForbiddenAgainstRanked(stored: seq<string>, actorRoles: seq<string>, targetRoles: seq<string>, role: string)
    requires |RankedRoles(stored)| <= NoRoleWeight
    requires forall r :: r in actorRoles ==> r in DisabledRoles
    requires role in targetRoles && role !in DisabledRoles
    ensures Forbids(stored, "update", actorRoles, targetRoles)
  {
    NoRankedRoleWeighsSentinel(RankedRoles(stored), actorRoles);
    HeldRoleBeatsSentinel(RankedRoles(stored), targetRoles, role);
  }

  /** Two users of equal best rank never forbid each other. */
  lemma EqualRanksNotForbidden(stored: seq<string>, actorRoles: seq<string>, targetRoles: seq<string>)
    requires HighestRole(RankedRoles(stored), actorRoles) == HighestRole(RankedRoles(stored), targetRoles)
    ensures !Forbids(stored, "update", actorRoles, targetRoles) && !Forbids(stored, "update", targetRoles, actorRoles)
  {
  }

  /** The manager returns this definition only for forbidden cases on user entities. */
  lemma AppliesOnlyToUsers(entityTypeId: string, caseType: string)
    ensures Applies(Definition, entityTypeId, caseType) <==> entityTypeId == "user" && caseType == "forbidden"
  {
  }

  /**
   * The sentinel 100 is also a real weight: when the site has more than 100
   * ranked roles, holding the role at position 100 or later weighs the same as
   * holding no ranked role, so an account with no ranked role is not
   * forbidden from updating such a user.
   */
  lemma SentinelCollision(stored: seq<string>, k: nat)
    requires forall i, j :: 0 <= i < j < |stored| ==> stored[i] != stored[j]
    requires forall r :: r in stored ==> r !in DisabledRoles
    requires NoRoleWeight <= k < |stored|
    ensures stored[k] in RankedRoles(stored) && stored[k] !in DisabledRoles
    ensures HighestRole(RankedRoles(stored), [stored[k]]) == NoRoleWeight
    ensures !Forbids(stored, "update", [], [stored[k]])
  {
    WithoutAbsent(stored, DisabledRoles);
    var w := FirstIndex(stored, stored[k]);
    assert w == k;
    assert [stored[k]][..0] == [];
  }
}
