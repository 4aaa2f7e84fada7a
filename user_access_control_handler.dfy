/**
 * The access control handler the module installs for user entities: the
 * user-specific shortcuts of core's handler, then the group access decision
 * for applicable users, and core's own decision for the rest.
 */
module UserAccessControlHandler {
  import opened OrderedMaps
  import opened Model
  import opened AccessSpecialCaseManager
  import opened AccessManager

  const AdministerUsers := "administer users"
  const CancelAccount := "cancel account"

  /**
   * `checkAccess` for a user entity. `parent` is what core's user access
   * handler would answer; it is not part of this model.
   */
  function CheckAccess(site: Site, entity: Entity, operation: string, account: Account, parent: AccessResult)
    : (r: Result<AccessResult, Failure>)
    requires entity.kind.UserEntity?
    ensures operation == "view label" ==> r == Ok(Allowed)
    ensures operation != "view label" && entity.kind.anonymous ==> r == Ok(Forbidden)
    ensures operation != "view label" && !entity.kind.anonymous && AdministerUsers in account.permissions ==> r == Ok(Allowed)
    ensures r.Err? ==> IsApplicable(site, entity)
    ensures r == Ok(Neutral) ==> (operation == "delete" && account.id == entity.id) || (!IsApplicable(site, entity) && parent == Neutral)
    ensures (operation != "view label" && !entity.kind.anonymous && AdministerUsers !in account.permissions
             && !(operation == "delete" && account.id == entity.id)) ==>
      r == if IsApplicable(site, entity) then AccessManager.CheckAccess(site, entity, operation, account) else Ok(parent)
  {
    if operation == "view label" then Ok(Allowed)
    else if entity.kind.anonymous then Ok(Forbidden)
    else if AdministerUsers in account.permissions then Ok(Allowed)
    else if operation == "delete" && account.id == entity.id then
      Ok(if CancelAccount in account.permissions then Allowed else Neutral)
    else if IsApplicable(site, entity) then AccessManager.CheckAccess(site, entity, operation, account)
    else Ok(parent)
  }

  /**
   * Deleting one's own (non-anonymous) account depends only on "cancel
   * account" (or "administer users"): never forbidden, and the same whatever
   * the groups, the special cases and core's decision.
   */
  lemma OwnDeleteIgnoresGroups(site1: Site, site2: Site, entity: Entity, account: Account, parent1: AccessResult, parent2: AccessResult)
    requires entity.kind.UserEntity? && !entity.kind.anonymous
    requires account.id == entity.id
    ensures CheckAccess(site1, entity, "delete", account, parent1) == CheckAccess(site2, entity, "delete", account, parent2)
    ensures CheckAccess(site1, entity, "delete", account, parent1) != Ok(Forbidden)
    ensures CheckAccess(site1, entity, "delete", account, parent1) == Ok(Allowed)
      <==> CancelAccount in account.permissions || AdministerUsers in account.permissions
  {
  }

  /**
   * An applicable user is never left Neutral past the shortcuts: the group
   * decision either allows or forbids, so core's handler is never consulted.
   */
  lemma ApplicableUsersDecided(site: Site, entity: Entity, operation: string, account: Account, parent: AccessResult)
    requires entity.kind.UserEntity? && !entity.kind.anonymous
    requires operation != "view label"
    requires !(operation == "delete" && account.id == entity.id)
    requires IsApplicable(site, entity)
    ensures CheckAccess(site, entity, operation, account, parent).Ok? ==>
      CheckAccess(site, entity, operation, account, parent).value != Neutral
  {
  }

  /**
   * With the role privilege case installed, an account without "administer
   * users" may not update an applicable user whose best role outranks its
   * own, whatever groups it shares with that user.
   */
  lemma HigherRankedUsersProtected(site: Site, entity: Entity, account: Account, parent: AccessResult)
    requires entity.kind.UserEntity? && !entity.kind.anonymous && entity.typeId == "user"
    requires AdministerUsers !in account.permissions
    requires IsApplicable(site, entity)
    requires RolePrivilegeCase.Definition in site.definitions
    requires RolePrivilegeCase.Forbids(site.roles, "update", account.roles, EntityRoles(entity))
    ensures CheckAccess(site, entity, "update", account, parent) == Ok(Forbidden)
  {
    RolePrivilegeOverridesGroups(site, entity, account);
  }

  /** Group's own membership plugin, the only plugin of a site without the module's user plugin. */
  const MembershipPlugin := PluginItem("group_membership", "group_membership", "user", None)
  const MembershipSite := Site(
    map[1 := [Group(3, "team")], 2 := [Group(3, "team")]],
    {},
    [MembershipPlugin],
    map["team" := [MembershipPlugin]],
    [], [])
  const Member := Entity(2, "user", "user", UserEntity(true, false, []), None)
  const Colleague := Account(1, {}, [])

  /**
   * A user is applicable through `group_membership` alone, but the plugin
   * lookup skips that plugin: once the viewer shares a group with the user,
   * `getPluginId()` is called on FALSE and viewing the user fails.
   */
  lemma MembershipOnlyUserFails(parent: AccessResult)
    ensures IsApplicable(MembershipSite, Member)
    ensures PluginFor(MembershipSite.installed, Member) == None
    ensures CheckAccess(MembershipSite, Member, "view", Colleague, parent) == Err(MissingPlugin)
  {
    MembershipOnlyApplicable();
    MembershipManagerFails();
  }

  /** The manager's check fails: the colleague shares the team with the user and no plugin matches. */
  lemma MembershipManagerFails()
    ensures PluginFor(MembershipSite.installed, Member) == None
    ensures AccessManager.CheckAccess(MembershipSite, Member, "view", Colleague) == Err(MissingPlugin)
  {
    PluginForFirstMatch(MembershipSite.installed, Member);
    MembershipSharedTeam();
    assert EntitySpecialCases(MembershipSite.definitions, "user", "forbidden") == [];
    assert EntitySpecialCases(MembershipSite.definitions, "user", "allowed") == [];
    CheckAccessByGroups(MembershipSite, Member, "view", Colleague);
  }

  /** The colleague and the user are both members of the team. */
  lemma MembershipSharedTeam()
    ensures ConsistentGroups(MembershipSite)
    ensures SharedGroup(MembershipSite, Colleague, 2, Group(3, "team"))
  {
  }

  /** The membership plugin records the "user" bundle for users. */
  lemma MembershipOnlyApplicable()
    ensures IsApplicable(MembershipSite, Member)
  {
    var installed := MembershipSite.installed;
    assert installed[..0] == [];
    var none: PluginTable := [];
    var noTypes: Assoc<string, seq<string>> := [];
    assert PluginDefinitions(installed) == AddPlugin(none, MembershipPlugin);
    assert CompiledBundle(MembershipPlugin) == "user";
    var noBundles: seq<string> := [];
    assert noBundles + ["user"] == ["user"];
    assert Put(noTypes, "user", noBundles + ["user"]) == [("user", ["user"])];
    assert PluginDefinitions(installed) == [("group_membership", [("user", ["user"])])];
  }
}
