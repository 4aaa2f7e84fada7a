# group_permissions: a Dafny model of the group access decision

`group_permissions` is a Drupal module. It decides who may view, download,
update or delete an entity (a node, a media item, a user) according to the
groups of the Group module. An account may act on an entity when it shares a
group with the entity's author and that group grants it the matching group
permission. The permissions come from the group content enabler plugin of the
entity's type and bundle: "view P entity", "view own P entity",
"view unpublished P entity" and "update/delete any P entity". Two kinds of
"special case" plugins come before the group check. An *allowed* case grants
access outright; the bypass permission is one. A *forbidden* case denies
access outright; the role-privilege rule for user updates is one. The module
also takes over the access handler of user entities. Its Search API processor
does two things. It indexes each item's author groups, bundle and author. It
compiles the same decision into a query filter, so that search results only
hold what the viewer may see.

The project models this in eight Dafny modules:

- `OrderedMaps` models PHP's ordered arrays as association lists. It gives
  `$a[$k] = $v`, lookup, `array_keys`, `array_values` and
  `array_intersect_key`.
- `Model` holds the shared values: entities, accounts, groups, plugins,
  special case definitions, and the `Site`. The `Site` stands for the stores
  the module reads: memberships, group permission grants, installed plugins,
  discovered special cases and the stored user roles.
- `AccessManager` is the per-entity decision engine.
- `AccessSpecialCaseManager` selects which special case definitions apply.
- `PermissionBypass` and `RolePrivilegeCase` are the two built-in special
  cases. The role privilege plugin is a class, because its `checkAccess`
  stores the ranking list in a field.
- `UserAccessControlHandler` is the ladder of rules for user entities.
- `GroupAccess` is the Search API processor.
  - `Query` and `IndexItem` are classes that its methods update.
  - The filter is a condition tree with the meaning a search backend gives it.
  - Its main theorem says the (corrected) filter admits an indexed item
    exactly when `checkAccess` allows "view" of it, under stated carve-outs.

Loops in the source become methods. Each is proved equal to a recursive
function over the prefix it has processed. The lemmas are about those
functions.

## Model

All source paths are under `web/modules/custom/group_permissions/src/`.

| member | source | states |
|---|---|---|
| OrderedMaps.Keys | web/modules/custom/group_permissions/src/Access/AccessManager.php:250 | `array_keys` lists the i-th entry's key at position i |
| OrderedMaps.Get | web/modules/custom/group_permissions/src/Access/AccessManager.php:164-165 | a lookup finds a value exactly when the key is stored, and the value found is stored under that key |
| OrderedMaps.Put | web/modules/custom/group_permissions/src/Access/AccessManager.php:412 | assignment keeps the key order when the key exists and appends the key otherwise |
| OrderedMaps.Values | web/modules/custom/group_permissions/src/Access/AccessManager.php:306 | `foreach` over an array visits the i-th entry's value at position i |
| OrderedMaps.PutGet | web/modules/custom/group_permissions/src/Access/AccessManager.php:412 | after `$a[$k] = $v`, key k holds v and every other key holds what it held |
| OrderedMaps.PutMembers | web/modules/custom/group_permissions/src/Access/AccessManager.php:412 | every entry after an assignment is the new one or an old one |
| OrderedMaps.PutKeepsUnique | web/modules/custom/group_permissions/src/Access/AccessManager.php:412 | assignment never stores a key twice |
| OrderedMaps.GetOfMember | web/modules/custom/group_permissions/src/Access/AccessManager.php:412 | in an array without repeated keys, a stored entry is what a lookup of its key finds |
| OrderedMaps.PutAppends | web/modules/custom/group_permissions/src/Access/AccessManager.php:436 | assigning to a new key appends the entry at the end |
| OrderedMaps.IntersectKeyMembers | web/modules/custom/group_permissions/src/Access/AccessManager.php:250 | `array_intersect_key` keeps exactly the entries of the first array whose key the second array has |
| OrderedMaps.IntersectKeyGet | web/modules/custom/group_permissions/src/Access/AccessManager.php:250 | a key looks up in the intersection to the first array's value when the second array has the key, and to nothing otherwise |
| OrderedMaps.IntersectKeepsUnique | web/modules/custom/group_permissions/src/Access/AccessManager.php:250 | the intersection stores no key twice |
| AccessSpecialCaseManager.GetEntitySpecialCases | web/modules/custom/group_permissions/src/Plugin/AccessSpecialCaseManager.php:43-64 | the loop, including its `isset` guard, returns exactly the applying definitions in discovery order |
| AccessSpecialCaseManager.EntitySpecialCasesMembers | web/modules/custom/group_permissions/src/Plugin/AccessSpecialCaseManager.php:47-58 | a definition is returned iff it is discovered, has the requested type, lists the entity type or no type at all, and does not exclude the entity type |
| AccessSpecialCaseManager.SubsequenceExtend | web/modules/custom/group_permissions/src/Plugin/AccessSpecialCaseManager.php:58 | appending a definition to the input keeps a kept list a subsequence, with or without keeping the new definition |
| AccessSpecialCaseManager.SubsequenceOfSingleton | web/modules/custom/group_permissions/src/Plugin/AccessSpecialCaseManager.php:58 | a lone kept definition is a subsequence of any input that ends with it |
| AccessSpecialCaseManager.EntitySpecialCasesOrdered | web/modules/custom/group_permissions/src/Plugin/AccessSpecialCaseManager.php:46-63 | the result is an order-preserving selection of the discovered definitions |
| PermissionBypass.IgnoresEntityAndOperation | web/modules/custom/group_permissions/src/Plugin/AccessSpecialCase/PermissionBypass.php:25-27 | the bypass check gives the same answer for every entity and operation |
| PermissionBypass.AppliesToEveryEntityType | web/modules/custom/group_permissions/src/Plugin/AccessSpecialCase/PermissionBypass.php:12-18 | the bypass case is consulted as an allowed case for every entity type and never as a forbidden case |
| RolePrivilegeCase.FirstIndex | web/modules/custom/group_permissions/src/Plugin/AccessSpecialCase/RolePrivilege.php:137 | `array_search` finds the first position holding the role |
| RolePrivilegeCase.RolePrivilege.constructor | web/modules/custom/group_permissions/src/Plugin/AccessSpecialCase/RolePrivilege.php:67-75 | a new instance reads the given role storage and has no ranking list yet |
| RolePrivilegeCase.RolePrivilege.CheckAccess | web/modules/custom/group_permissions/src/Plugin/AccessSpecialCase/RolePrivilege.php:92-113 | forbids exactly an update whose actor's best rank is worse than the target's; an update stores the stored roles minus the baseline roles in `roles`, and other operations change nothing |
| RolePrivilegeCase.RolePrivilege.GetHighestRole | web/modules/custom/group_permissions/src/Plugin/AccessSpecialCase/RolePrivilege.php:124-144 | the loop computes the rank `HighestRole` defines over the stored ranking list |
| RolePrivilegeCase.WithoutNothing | web/modules/custom/group_permissions/src/Plugin/AccessSpecialCase/RolePrivilege.php:100-102 | unsetting no role leaves the list unchanged |
| RolePrivilegeCase.WithoutLast | web/modules/custom/group_permissions/src/Plugin/AccessSpecialCase/RolePrivilege.php:100-102 | the last role of a list either survives unsetting, at the end, or is dropped |
| RolePrivilegeCase.WithoutOneMore | web/modules/custom/group_permissions/src/Plugin/AccessSpecialCase/RolePrivilege.php:100-102 | unsetting the disabled roles one at a time equals unsetting them all at once |
| RolePrivilegeCase.WithoutMembers | web/modules/custom/group_permissions/src/Plugin/AccessSpecialCase/RolePrivilege.php:99-103 | a role is ranked iff it is stored and is not unset |
| RolePrivilegeCase.WithoutAbsent | web/modules/custom/group_permissions/src/Plugin/AccessSpecialCase/RolePrivilege.php:100-102 | unsetting roles that are not stored changes nothing |
| RolePrivilegeCase.HighestRoleIsLeast | web/modules/custom/group_permissions/src/Plugin/AccessSpecialCase/RolePrivilege.php:124-143 | the rank lies between 0 and 100; it is at most the weight of every held non-baseline role, and equals one of those weights or 100 |
| RolePrivilegeCase.NoRankedRoleWeighsSentinel | web/modules/custom/group_permissions/src/Plugin/AccessSpecialCase/RolePrivilege.php:126-133 | a user holding only baseline roles ranks 100 |
| RolePrivilegeCase.UnlistedRoleRanksFirst | web/modules/custom/group_permissions/src/Plugin/AccessSpecialCase/RolePrivilege.php:137 | holding a non-baseline role missing from the list ranks 0, the best rank, through the `(int) FALSE` cast |
| RolePrivilegeCase.BaselineRolesIgnored | web/modules/custom/group_permissions/src/Plugin/AccessSpecialCase/RolePrivilege.php:131-133 | "anonymous" and "authenticated" do not affect a user's rank |
| RolePrivilegeCase.HeldRoleBeatsSentinel | web/modules/custom/group_permissions/src/Plugin/AccessSpecialCase/RolePrivilege.php:126-140 | with at most 100 ranked roles, holding any non-baseline role ranks better than 100 |
| RolePrivilegeCase.OnlyUpdateForbidden | web/modules/custom/group_permissions/src/Plugin/AccessSpecialCase/RolePrivilege.php:94-96 | only an update is ever forbidden by this case |
| RolePrivilegeCase.RankedActorNotForbiddenAgainstUnranked | web/modules/custom/group_permissions/src/Plugin/AccessSpecialCase/RolePrivilege.php:107-112 | with at most 100 ranked roles, an actor holding a non-baseline role may update a user holding none |
| RolePrivilegeCase.UnrankedActorForbiddenAgainstRanked | web/modules/custom/group_permissions/src/Plugin/AccessSpecialCase/RolePrivilege.php:107-112 | with at most 100 ranked roles, an actor holding no non-baseline role is forbidden to update a user holding one |
| RolePrivilegeCase.EqualRanksNotForbidden | web/modules/custom/group_permissions/src/Plugin/AccessSpecialCase/RolePrivilege.php:112 | equal ranks forbid neither user from updating the other |
| RolePrivilegeCase.AppliesOnlyToUsers | web/modules/custom/group_permissions/src/Plugin/AccessSpecialCase/RolePrivilege.php:19-27 | the manager consults the case exactly for forbidden checks on user entities |
| RolePrivilegeCase.SentinelCollision | web/modules/custom/group_permissions/src/Plugin/AccessSpecialCase/RolePrivilege.php:126 | with more than 100 ranked roles, the role at position 100 or later weighs the same as no role, so an actor with no role is not forbidden against its holder |
| AccessManager.GetUserGroups | web/modules/custom/group_permissions/src/Access/AccessManager.php:404-420 | the loop builds the id-keyed group array `UserGroups` defines |
| AccessManager.CollectGroups | web/modules/custom/group_permissions/src/Access/AccessManager.php:408-418 | the loop over the memberships keeps every group for NULL and the same-bundle groups for a type, each assigned under its id |
| AccessManager.UserGroupsShape | web/modules/custom/group_permissions/src/Access/AccessManager.php:404-420 | each kept group is stored once under its own id, and an id is a key iff a kept membership has it (all groups for NULL, same-bundle groups for a type) |
| AccessManager.UserGroupsUnique | web/modules/custom/group_permissions/src/Access/AccessManager.php:408-418 | no group id is stored twice in the returned array |
| AccessManager.UserGroupsKeys | web/modules/custom/group_permissions/src/Access/AccessManager.php:408-418 | an id is a key of the returned array iff a kept membership has that id |
| AccessManager.UserGroupsPairs | web/modules/custom/group_permissions/src/Access/AccessManager.php:408-418 | every stored group is a kept membership, stored under its own id |
| AccessManager.UserGroupsFalsyType | web/modules/custom/group_permissions/src/Access/AccessManager.php:411-416 | a falsy non-NULL type such as "" or "0" keeps no group |
| AccessManager.SharedGroupsMeaning | web/modules/custom/group_permissions/src/Access/AccessManager.php:232-251 | fails exactly for an entity without author; otherwise it yields the viewer's groups, keyed by id, whose id the author's groups also have |
| AccessManager.GetPluginDefinitions | web/modules/custom/group_permissions/src/Access/AccessManager.php:430-440 | the loop builds the base id, entity type and bundles table `PluginDefinitions` defines |
| AccessManager.AddPluginLookup | web/modules/custom/group_permissions/src/Access/AccessManager.php:436 | adding a plugin appends its bundle (or entity type) under its base id and type, and changes no other entry |
| AccessManager.PluginTableKeys | web/modules/custom/group_permissions/src/Access/AccessManager.php:430-440 | the table lists each installed base id once, in order of first appearance |
| AccessManager.PluginTableEntries | web/modules/custom/group_permissions/src/Access/AccessManager.php:436 | every base id entry records at least one entity type |
| AccessManager.PluginTableBundles | web/modules/custom/group_permissions/src/Access/AccessManager.php:430-440 | the bundles under a base id and type are those of its installed plugins in order, and the type is recorded iff there is one |
| AccessManager.BaseIdsMembers | web/modules/custom/group_permissions/src/Access/AccessManager.php:436 | a base id is listed iff some installed plugin has it |
| AccessManager.BundlesOfMembers | web/modules/custom/group_permissions/src/Access/AccessManager.php:436 | a bundle is recorded iff an installed plugin with that base id and type compiles to it |
| AccessManager.GetEntityTypes | web/modules/custom/group_permissions/src/Access/AccessManager.php:145-151 | the loop lists the first entity type of each base id entry |
| AccessManager.EntityTypesLoop | web/modules/custom/group_permissions/src/Access/AccessManager.php:147-149 | the loop collects, per base id entry in order, its first entity type key |
| AccessManager.EntityTypesAppend | web/modules/custom/group_permissions/src/Access/AccessManager.php:147-149 | a new entry adds its first entity type at the end |
| AccessManager.EntityTypesReplace | web/modules/custom/group_permissions/src/Access/AccessManager.php:147-149 | replacing an entry by one with the same first type keeps the list |
| AccessManager.EntityTypesAddKnown | web/modules/custom/group_permissions/src/Access/AccessManager.php:436 | installing another plugin of a known base id keeps the entity type list |
| AccessManager.EntityTypesAddNew | web/modules/custom/group_permissions/src/Access/AccessManager.php:436 | installing a plugin of a new base id appends its entity type |
| AccessManager.EntityTypesAreFirstTypes | web/modules/custom/group_permissions/src/Access/AccessManager.php:145-151 | `getEntityTypes` lists, per base id, the type of the first plugin installed with it |
| AccessManager.FirstTypesMembers | web/modules/custom/group_permissions/src/Access/AccessManager.php:145-151 | a type is listed iff it is the type of the first plugin of some base id |
| AccessManager.GetEntityBundles | web/modules/custom/group_permissions/src/Access/AccessManager.php:162-170 | the loop with its early return yields the bundles of the first base id recording the type, or nothing |
| AccessManager.EntityBundlesFrom | web/modules/custom/group_permissions/src/Access/AccessManager.php:162-170 | every returned bundle is recorded under one base id for that type |
| AccessManager.EntityBundlesSole | web/modules/custom/group_permissions/src/Access/AccessManager.php:162-170 | when a single base id records the type, its bundles are returned |
| AccessManager.IsApplicableSound | web/modules/custom/group_permissions/src/Access/AccessManager.php:199-201 | an applicable entity has an installed plugin of its type whose bundle (or type) is its bundle |
| AccessManager.IsApplicableWithOneProvider | web/modules/custom/group_permissions/src/Access/AccessManager.php:199-201 | when one base id provides the type, an entity is applicable iff some plugin of its type compiles to its bundle |
| AccessManager.IsApplicableEntityTypeMeans | web/modules/custom/group_permissions/src/Access/AccessManager.php:212-214 | a type is applicable iff it is the type of the first plugin installed under some base id |
| AccessManager.SecondProviderIgnored | web/modules/custom/group_permissions/src/Access/AccessManager.php:162-170 | a bundle enabled only by a second base id of the same entity type is not applicable |
| AccessManager.EntityBundlesFirst | web/modules/custom/group_permissions/src/Access/AccessManager.php:162-169 | for any plugin table, the bundles found for an entity type are those of the first base id that records the type; later base ids are never consulted |
| AccessManager.FirstProviderDecides | web/modules/custom/group_permissions/src/Access/AccessManager.php:162-170 | for every site and entity, applicability is decided by the installed plugins of the first base id recording the entity's type alone: it holds iff one of them has the entity's type and bundle |
| AccessManager.SecondProviderBundles | web/modules/custom/group_permissions/src/Access/AccessManager.php:162-169 | with "group_node" installed before "extra_node", the bundles found for nodes are only "article" |
| AccessManager.GetPluginDefinition | web/modules/custom/group_permissions/src/Access/AccessManager.php:453-478 | the loop returns the plugin `PluginFor` picks, or none |
| AccessManager.PluginForFirstMatch | web/modules/custom/group_permissions/src/Access/AccessManager.php:453-478 | the result is the first installed plugin that is not `group_membership` and matches the type and bundle (the type alone for an unbundled plugin); there is none iff no plugin matches |
| AccessManager.GroupPermitted | web/modules/custom/group_permissions/src/Access/AccessManager.php:307-360 | the `switch` grants exactly what the permission strings of `GroupPermits` grant |
| AccessManager.CheckGroupPermissions | web/modules/custom/group_permissions/src/Access/AccessManager.php:297-391 | the loop with early return computes `GroupPermissions`: NULL without a shared group, a failure without author or plugin, otherwise whether a group grants |
| AccessManager.AnyGroupPermitted | web/modules/custom/group_permissions/src/Access/AccessManager.php:306-389 | the loop over the shared groups returns true iff one of them grants the operation |
| AccessManager.GroupPermissionsMeaning | web/modules/custom/group_permissions/src/Access/AccessManager.php:297-391 | the result is NULL iff no group is shared; when groups are shared and a plugin matches the entity, it is true iff some shared group grants the operation, whatever the order of the groups; when groups are shared and no plugin matches, `getPluginId()` on FALSE fails (`MissingPlugin`) |
| AccessManager.SharedValuesMembers | web/modules/custom/group_permissions/src/Access/AccessManager.php:232-251 | the groups `hasSharedGroups` returns are exactly those both the viewer and the author belong to |
| AccessManager.CheckSpecialCases | web/modules/custom/group_permissions/src/Access/AccessManager.php:516-551 | the loop fires iff some returned case fires, stopping at the first one |
| AccessManager.SpecialCasesFireMeans | web/modules/custom/group_permissions/src/Access/AccessManager.php:516-551 | a case type fires iff some discovered definition that applies to the entity type fires |
| AccessManager.CheckAccess | web/modules/custom/group_permissions/src/Access/AccessManager.php:268-282 | the manager never answers neutral |
| AccessManager.ForbiddenCaseWins | web/modules/custom/group_permissions/src/Access/AccessManager.php:268-272 | a firing forbidden case forbids, whatever the allowed cases and the groups say |
| AccessManager.AllowedCaseWins | web/modules/custom/group_permissions/src/Access/AccessManager.php:274-277 | with no forbidden case firing, a firing allowed case allows |
| AccessManager.CheckAccessByGroups | web/modules/custom/group_permissions/src/Access/AccessManager.php:279-281 | with no case firing, no shared group forbids (the NULL result at lines 390-391 becomes forbidden at line 492); with shared groups and a matching plugin, access is allowed iff a shared group grants; with shared groups and no matching plugin, the check fails with `MissingPlugin` |
| AccessManager.OtherOperationsNeverGranted | web/modules/custom/group_permissions/src/Access/AccessManager.php:308-360 | an operation other than view, download, update and delete is allowed only by an allowed case |
| AccessManager.UnpublishedNeedsUnpublishedPermission | web/modules/custom/group_permissions/src/Access/AccessManager.php:349-352 | viewing an unpublished entity through groups needs "view unpublished P entity" in a shared group |
| AccessManager.ViewOwnOnlyForOwner | web/modules/custom/group_permissions/src/Access/AccessManager.php:329-347 | without "view P entity" in any shared group, viewing is allowed only to the owner through "view own P entity" |
| AccessManager.BypassAllowsAll | web/modules/custom/group_permissions/src/Access/AccessManager.php:274-277 | with the bypass case installed, its permission allows every operation unless a forbidden case fires |
| AccessManager.RolePrivilegeOverridesGroups | web/modules/custom/group_permissions/src/Access/AccessManager.php:268-272 | with the role privilege case installed, updating a better-ranked user is forbidden whatever the groups and the bypass permission |
| UserAccessControlHandler.CheckAccess | web/modules/custom/group_permissions/src/Access/UserAccessControlHandler.php:23-56 | "view label" is allowed; otherwise the anonymous user is forbidden and "administer users" allows; it fails only for applicable users; it is neutral only for one's own deletion or through core's answer for a non-applicable user; past those shortcuts an applicable user gets the manager's answer and any other user gets core's |
| UserAccessControlHandler.MembershipOnlyUserFails | web/modules/custom/group_permissions/src/Access/AccessManager.php:297-302 | with "group_membership" as the only installed plugin, a user entity is applicable, no plugin definition matches it, and a user sharing a group with it gets a `MissingPlugin` failure for "view" |
| UserAccessControlHandler.MembershipOnlyApplicable | web/modules/custom/group_permissions/src/Access/AccessManager.php:145-170 | "group_membership" records the entity type "user" with bundle "user", so a user entity is applicable when it is the only installed plugin |
| UserAccessControlHandler.OwnDeleteIgnoresGroups | web/modules/custom/group_permissions/src/Access/UserAccessControlHandler.php:44-46 | deleting one's own account is never forbidden, ignores groups, cases and core, and is allowed iff the account may cancel its account or administer users |
| UserAccessControlHandler.ApplicableUsersDecided | web/modules/custom/group_permissions/src/Access/UserAccessControlHandler.php:49-51 | an applicable user is never left neutral past the shortcuts |
| UserAccessControlHandler.HigherRankedUsersProtected | web/modules/custom/group_permissions/src/Access/UserAccessControlHandler.php:49-51 | without "administer users", updating an applicable, better-ranked user is forbidden |
| GroupAccess.PartitionDatasources | web/modules/custom/group_permissions/src/Plugin/search_api/processor/GroupAccess.php:320-330 | the loop builds the partition `Partitioned` defines |
| GroupAccess.PartitionUnaffected | web/modules/custom/group_permissions/src/Plugin/search_api/processor/GroupAccess.php:327-329 | an id is unaffected iff it belongs to a datasource whose type is not applicable |
| GroupAccess.PartitionAffected | web/modules/custom/group_permissions/src/Plugin/search_api/processor/GroupAccess.php:323-326 | an entity type has an entry iff an affected datasource has that type, and the entry lists exactly their ids |
| GroupAccess.PartitionAffectedTypes | web/modules/custom/group_permissions/src/Plugin/search_api/processor/GroupAccess.php:322-329 | an entity type has an entry iff some affected datasource has that type |
| GroupAccess.PartitionAffectedIds | web/modules/custom/group_permissions/src/Plugin/search_api/processor/GroupAccess.php:322-329 | a datasource id is listed under an entity type iff an affected datasource of that type has that id |
| GroupAccess.PartitionUniqueTypes | web/modules/custom/group_permissions/src/Plugin/search_api/processor/GroupAccess.php:325 | each affected entity type is stored once |
| GroupAccess.PartitionEmpty | web/modules/custom/group_permissions/src/Plugin/search_api/processor/GroupAccess.php:320-330 | both sides are empty iff the index has no datasource |
| GroupAccess.DatasourceConditions | web/modules/custom/group_permissions/src/Plugin/search_api/processor/GroupAccess.php:345-347 | one `search_api_datasource = id` condition per unaffected id, in order |
| GroupAccess.ItemConditionsMembers | web/modules/custom/group_permissions/src/Plugin/search_api/processor/GroupAccess.php:389-426 | a condition group comes from a group's plugins iff one plugin of the datasource type yields it |
| GroupAccess.GroupConditionsMembers | web/modules/custom/group_permissions/src/Plugin/search_api/processor/GroupAccess.php:378-429 | a condition group is emitted for a type iff some viewer group and plugin installed on its group type yield it |
| GroupAccess.AccessConditionsMembers | web/modules/custom/group_permissions/src/Plugin/search_api/processor/GroupAccess.php:373-430 | a condition group is emitted iff some affected type, viewer group and plugin installed on its group type yield it |
| GroupAccess.Query.constructor | web/modules/custom/group_permissions/src/Plugin/search_api/processor/GroupAccess.php:282-283 | a query carries its bypass and account options and starts without conditions, not aborted |
| GroupAccess.AddGroupAccess | web/modules/custom/group_permissions/src/Plugin/search_api/processor/GroupAccess.php:312-431 | appends exactly the filter as written to the query, and aborts it exactly when that filter aborts |
| GroupAccess.DatasourcesLoop | web/modules/custom/group_permissions/src/Plugin/search_api/processor/GroupAccess.php:345-347 | the loop adds one `search_api_datasource` equality per unaffected datasource, in order |
| GroupAccess.AccessGroupsLoop | web/modules/custom/group_permissions/src/Plugin/search_api/processor/GroupAccess.php:373-430 | the loop over affected types emits `AccessConditions` |
| GroupAccess.GroupsLoop | web/modules/custom/group_permissions/src/Plugin/search_api/processor/GroupAccess.php:378-429 | the loop over viewer groups emits `GroupConditions` |
| GroupAccess.PluginsLoop | web/modules/custom/group_permissions/src/Plugin/search_api/processor/GroupAccess.php:389-428 | the loop over a group type's plugins emits, per viewable plugin of the type, the AND group of group id, bundle and (view own only) author |
| GroupAccess.WithValues | web/modules/custom/group_permissions/src/Plugin/search_api/processor/GroupAccess.php:230-235 | every field, in place, gets the values when it indexes the property path |
| GroupAccess.IdValues | web/modules/custom/group_permissions/src/Plugin/search_api/processor/GroupAccess.php:221-223 | each group id becomes one integer value, in order |
| GroupAccess.IndexItem.constructor | web/modules/custom/group_permissions/src/Plugin/search_api/processor/GroupAccess.php:199-214 | an item carries its datasource type, original object and fields |
| GroupAccess.AddToFields | web/modules/custom/group_permissions/src/Plugin/search_api/processor/GroupAccess.php:230-235 | the field loop appends the values to exactly the fields indexing the path and leaves the others |
| GroupAccess.AddFieldValues | web/modules/custom/group_permissions/src/Plugin/search_api/processor/GroupAccess.php:197-245 | the item's fields become `IndexedFields` of the old fields |
| GroupAccess.IndexedFieldsValues | web/modules/custom/group_permissions/src/Plugin/search_api/processor/GroupAccess.php:197-245 | items of other types, or that are not entities, keep their fields; otherwise the ids, bundle and author fields get the author's group ids, the bundle and the author id (nothing from the author when there is none), and other fields are kept |
| GroupAccess.IndexedField | web/modules/custom/group_permissions/src/Plugin/search_api/processor/GroupAccess.php:218-243 | the three loops over the fields leave a field of a datasource unchanged and append to a field of no datasource exactly the values its property path indexes |
| GroupAccess.GroupConditionHolds | web/modules/custom/group_permissions/src/Plugin/search_api/processor/GroupAccess.php:413-423 | an AND group holds iff the item is in the group, has the plugin's bundle and, for view own only, is the viewer's |
| GroupAccess.IdValuesMembers | web/modules/custom/group_permissions/src/Plugin/search_api/processor/GroupAccess.php:221-223 | a group id is indexed iff it is among the ids |
| GroupAccess.ViewerGroupsMembers | web/modules/custom/group_permissions/src/Plugin/search_api/processor/GroupAccess.php:368-369 | with consistent group ids, the groups looped over are exactly the viewer's memberships |
| GroupAccess.SameIdSameDatasource | web/modules/custom/group_permissions/src/Plugin/search_api/processor/GroupAccess.php:322 | datasources are keyed by id, so one id names one datasource |
| GroupAccess.CorrectedFilterIsAccessGroups | web/modules/custom/group_permissions/src/Plugin/search_api/processor/GroupAccess.php:342-353 | an item of an affected datasource passes the corrected filter iff one access condition group holds |
| GroupAccess.AccessBranchDecides | web/modules/custom/group_permissions/src/Plugin/search_api/processor/GroupAccess.php:342-350 | for an item of none of the unaffected datasources, the outer OR holds iff one access condition group holds |
| GroupAccess.OrHolds | web/modules/custom/group_permissions/src/Plugin/search_api/processor/GroupAccess.php:343 | an OR condition group holds iff one of its members holds |
| GroupAccess.AdmitsOne | web/modules/custom/group_permissions/src/Plugin/search_api/processor/GroupAccess.php:344 | a query with one condition group admits what that group holds for |
| GroupAccess.AccessGroupsArePermits | web/modules/custom/group_permissions/src/Plugin/search_api/processor/GroupAccess.php:392-425 | some access condition group holds for the indexed entity iff a group shared by viewer and author grants "view", under the single-plugin carve-outs |
| GroupAccess.PermittingGroupAdmits | web/modules/custom/group_permissions/src/Plugin/search_api/processor/GroupAccess.php:373-428 | a shared group granting "view" makes some emitted access condition group hold for the indexed entity |
| GroupAccess.AccessConditionIn | web/modules/custom/group_permissions/src/Plugin/search_api/processor/GroupAccess.php:373-425 | an AND group for an affected type, a viewer group and one of its plugins is emitted |
| GroupAccess.SomeHoldingConditionPermits | web/modules/custom/group_permissions/src/Plugin/search_api/processor/GroupAccess.php:404-423 | a holding access condition group names a shared group that grants "view" |
| GroupAccess.HoldingConditionPermits | web/modules/custom/group_permissions/src/Plugin/search_api/processor/GroupAccess.php:404-423 | one holding AND group from a given group and plugin names a shared group that grants "view" |
| GroupAccess.HoldingGroupConditionOfAuthor | web/modules/custom/group_permissions/src/Plugin/search_api/processor/GroupAccess.php:413-423 | a holding AND group names a group of the author, the entity's bundle and, for view own only, the viewer as author |
| GroupAccess.PublishedViewPermits | web/modules/custom/group_permissions/src/Access/AccessManager.php:325-346 | for a published entity with an author, a group grants "view" iff it grants "view any", or "view own" and the viewer is the author |
| GroupAccess.PermittingGroupHolds | web/modules/custom/group_permissions/src/Plugin/search_api/processor/GroupAccess.php:404-423 | a shared group granting "view" yields an emitted AND group that holds for the indexed entity |
| GroupAccess.AuthorGroupConditionHolds | web/modules/custom/group_permissions/src/Plugin/search_api/processor/GroupAccess.php:413-423 | the AND group for a group of the author holds for the author's indexed entity of the plugin's bundle, and for view own only when the viewer is the author |
| GroupAccess.SearchFilterAgreesWithCheckAccess | web/modules/custom/group_permissions/src/Plugin/search_api/processor/GroupAccess.php:332-341 | under the carve-outs, the corrected filter admits an indexed entity iff `checkAccess` allows viewing it |
| GroupAccess.AbortsOnlyWithoutDatasources | web/modules/custom/group_permissions/src/Plugin/search_api/processor/GroupAccess.php:357-365 | the query is aborted iff the viewer lacks the bypass permission and the index has no datasource |
| GroupAccess.UnaffectedItemsPass | web/modules/custom/group_permissions/src/Plugin/search_api/processor/GroupAccess.php:342-347 | an item of an unaffected datasource passes whatever the viewer's groups |
| GroupAccess.AsWrittenAgreesWithUnaffected | web/modules/custom/group_permissions/src/Plugin/search_api/processor/GroupAccess.php:342-350 | with an unaffected datasource, or the bypass permission, the filter as written is the corrected one |
| GroupAccess.AsWrittenConjoinsAccessGroups | web/modules/custom/group_permissions/src/Plugin/search_api/processor/GroupAccess.php:351-353 | without unaffected datasources, the filter as written needs every access condition group to hold, and with none it admits every item where the corrected filter admits none |
| GroupAccess.AsWrittenAdmitsWithoutGrants | web/modules/custom/group_permissions/src/Plugin/search_api/processor/GroupAccess.php:351-353 | a node-only index and a viewer in no group: `checkAccess` forbids the article, the filter as written admits it, the corrected filter does not |
| GroupAccess.DraftsPassFilter | web/modules/custom/group_permissions/src/Plugin/search_api/processor/GroupAccess.php:332-341 | an unpublished node article passes the corrected filter for a viewer holding "view" on node articles in a shared group, while `checkAccess` forbids viewing it |
| GroupAccess.DraftForbidden | web/modules/custom/group_permissions/src/Access/AccessManager.php:325-346 | the shared group grants only "view", so viewing the unpublished article is forbidden |
| GroupAccess.DraftFilterAdmits | web/modules/custom/group_permissions/src/Plugin/search_api/processor/GroupAccess.php:401-425 | the shared group's condition group for node articles holds for the unpublished article, so the corrected filter admits it |
| GroupAccess.BundleNamesCollide | web/modules/custom/group_permissions/src/Plugin/search_api/processor/GroupAccess.php:413-416 | a media bundle named like a node bundle lets the filter admit a node article that `checkAccess` forbids |
| GroupAccess.TeamForbidsArticle | web/modules/custom/group_permissions/src/Access/AccessManager.php:326-346 | the team grants only the media permission, so viewing the node article is forbidden |
| GroupAccess.TeamGroups | web/modules/custom/group_permissions/src/Access/AccessManager.php:404-420 | viewer and author both belong to the team group alone |
| GroupAccess.TeamFilterAdmitsArticle | web/modules/custom/group_permissions/src/Plugin/search_api/processor/GroupAccess.php:413-416 | the media grant's AND group holds for the node article |
| GroupAccess.TeamMediaCondition | web/modules/custom/group_permissions/src/Plugin/search_api/processor/GroupAccess.php:401-425 | the team and media plugin yield an emitted AND group |
| GroupAccess.PreprocessSearchQuery | web/modules/custom/group_permissions/src/Plugin/search_api/processor/GroupAccess.php:280-302 | a bypassing query, or one whose account option names no loadable account, is left unchanged; otherwise the group access filter for that account is added |

## Left out

- Debug messages and logging are not modelled. This covers `showDebuggingMessage`, the messenger and logger calls in `checkGroupPermissions` and `checkSpecialCases`, and the illegal-UID warning in `preprocessSearchQuery`. They are output only and do not affect any decision.
- Cache metadata on access results is not modelled: `cachePerPermissions`, `cachePerUser` and `addCacheableDependency`. A result is one of allowed, neutral or forbidden.
- Storage and framework lookups are inputs held in `Site`. This covers `User::load`, `loadByUser`, `Group::hasPermission`, `getInstalled()`, `getInstalled($group_type)`, plugin discovery and the `user_role` storage order. `User::load` of an account or author id is assumed to succeed, and an unknown user has no memberships.
- The plugin manager's `createInstance` is a match on the definition's plugin kind. Special cases other than the two built-in ones are given by the set of (entity, operation, account) triples on which they fire.
- The answer of core's user access handler (`parent::checkAccess`) is a parameter of `UserAccessControlHandler.CheckAccess`. Core's code is not part of this model.
- NodeAccessControlHandler.php, MediaAccessControlHandler.php, AccessControlTrait.php and `getEntityAccessHandler` are not part of this model. They dispatch to parent handlers whose code is not available. Their "applicable goes to the manager, the rest to the parent" rule is the one `UserAccessControlHandler` shows.
- The plugin and form boilerplate is not part of this model: `create`, constructors of services, `supportsIndex`, `getPropertyDefinitions` and `preIndexSave`. The three indexed property paths appear only as constants, and `getEntity` is an `Option<Entity>` on the item.
- `GroupAccess.AddGroupAccess` assembles the condition tree as a value. The source instead mutates condition-group objects that the query already holds, so the model does not capture object identity or aliasing of those groups.
- A query condition is read as a search backend reads it. `=` holds when the field has that value. `IN` with a single group id holds when the field holds the id. An AND group holds when all members hold and an OR group when one does; an empty OR group holds for no item.
- PHP's loose `==` is modelled only for the owner id compared with the account id, where NULL equals 0. The string comparisons of the special-case filter and of the plugin lookup (`Applies`, `MatchesEntity`, `GetPluginDefinition`) are taken as strict string equality. That agrees with PHP except when both strings are numeric, as in `"10" == "1e1"` or `"1" == "01"`. Other loose comparisons are taken as strict too.
- Calling `getOwner()` on an entity that is neither a user nor owned, and `getPluginId()` on FALSE, are PHP errors. They are the `Failure` results `UndefinedGetOwner` and `MissingPlugin`, and they propagate.
- A non-user entity has no roles (`EntityRoles` is empty). The role privilege case only reaches user entities anyway.
- `addFieldValues` calls `addValue` once per group id; the model appends the list of ids at once. Only fields whose datasource is NULL receive values, as `filterForPropertyPath($fields, NULL, …)` selects.
- GroupAccess.SearchFilterAgreesWithCheckAccess is stated for published entities that have an author. It assumes no forbidden case fires for "view", the bypass permission is the only allowed case, and the document holds the indexed values under the field ids the conditions name. The index derives a field id from a property path by dropping "search_api_", which `IndexedDocument` assumes. It also assumes the entity's plugin is the only one of its bundle name on the viewer's group types and is installed on every viewer group that grants viewing it. `GroupAccess.BundleNamesCollide` shows the last assumption is needed: the filter names bundles without entity types. `GroupAccess.DraftsPassFilter` shows the published carve-out is needed: the filter never looks at the status, so an unpublished item passes it for a viewer who may view published items of the type, while `checkAccess` forbids it without "view unpublished".
- The property paths `search_api_group_access_*` and the condition fields `group_access_*` are kept as the source writes them.
- Three behaviours are kept as the source has them and not corrected. First, only the first base id recording an entity type is consulted for its bundles (`AccessManager.FirstProviderDecides`, with the example `AccessManager.SecondProviderIgnored`). Second, when groups are shared but no plugin definition matches the entity, `checkGroupPermissions` calls `getPluginId()` on FALSE and fails (`AccessManager.CheckAccessByGroups`). With the module's own user plugin uninstalled and "group_membership" installed, every user entity reaches this failure (`UserAccessControlHandler.MembershipOnlyUserFails`). Third, the sentinel 100 collides with real ranks past 100 roles (`RolePrivilegeCase.SentinelCollision`).
- For role privilege, what the code does differs from a reading of "an unranked user can never be forbidden". The model follows the code. With at most 100 ranked roles, an actor holding no ranked role IS forbidden to update a user who holds one (`RolePrivilegeCase.UnrankedActorForbiddenAgainstRanked`). A ranked actor is never forbidden to update an unranked user (`RolePrivilegeCase.RankedActorNotForbiddenAgainstUnranked`).

## Findings

| source | as written | input that shows it | evidently intended | confidence | as-written member | corrected member |
|---|---|---|---|---|---|---|
| web/modules/custom/group_permissions/src/Plugin/search_api/processor/GroupAccess.php:342-353 | Without unaffected datasources, the access condition groups are added to the query itself. The query's root group is a conjunction, so an item must satisfy every access group, and a viewer with no access group gets no condition at all. | An index whose only datasource is `entity:node`, one installed node plugin, and a viewer in no group searching for a node article owned by another user. `checkAccess` forbids viewing it, yet the query as written admits it and every other item. | The access groups are alternatives, as the comment at lines 332-341 says. An item passes when one of them holds, and a viewer with none sees nothing from the affected datasources. | not executed | GroupAccess.AsWrittenAdmitsWithoutGrants | GroupAccess.SearchFilterAgreesWithCheckAccess |
