/**
 * The values the group access decision works on: entities, accounts, groups,
 * group content enabler plugins, special case definitions, and the site whose
 * stores answer membership, permission, plugin and role lookups.
 */
module Model {
  import opened OrderedMaps

  type UserId = nat
  type GroupId = nat

  datatype Result<T, E> = Ok(value: T) | Err(error: E)

  /** PHP truthiness of a value that is NULL or a string: NULL, "" and "0" are false. */
  predicate Truthy(s: Option<string>)
  {
    s.Some? && s.value != "" && s.value != "0"
  }

  /** Which entity interfaces an entity implements, and what they expose. */
  datatype EntityKind =
    | UserEntity(active: bool, anonymous: bool, roles: seq<string>) // UserInterface
    | OwnedEntity(ownerId: UserId)                                  // EntityOwnerInterface
    | PlainEntity                                                   // neither

  /**
   * A content entity. `published` is `Some` exactly when the entity implements
   * EntityPublishedInterface. For a user entity `id` is the user id.
   */
  datatype Entity = Entity(
    id: nat,
    typeId: string,
    bundle: string,
    kind: EntityKind,
    published: Option<bool>)

  /** The acting account: its id, its global permissions and its role ids. */
  datatype Account = Account(id: UserId, permissions: set<string>, roles: seq<string>)

  /** A group; `bundle` is its group type. */
  datatype Group = Group(id: GroupId, bundle: string)

  /** An installed group content enabler plugin. */
  datatype PluginItem = PluginItem(
    pluginId: string,
    baseId: string,
    entityTypeId: string,
    entityBundle: Option<string>)

  /** `$group->hasPermission($permission, $account)` holds for each recorded grant. */
  datatype Grant = Grant(group: GroupId, permission: string, account: UserId)

  /** A firing of a special case plugin other than the two built-in ones. */
  datatype Firing = Firing(entityTypeId: string, entityId: nat, operation: string, account: UserId)

  /** The check a special case definition instantiates. */
  datatype CasePlugin =
    | PermissionBypassPlugin
    | RolePrivilegePlugin
    | OtherPlugin(fires: set<Firing>)

  /** A discovered AccessSpecialCase annotation. */
  datatype SpecialCaseDef = SpecialCaseDef(
    id: string,
    caseType: string,
    entityTypeIds: seq<string>,
    excludedEntityTypeIds: seq<string>,
    plugin: CasePlugin)

  /**
   * The stores the module reads: memberships per user (`loadByUser`), group
   * permission grants, the installed plugins (all of them, and per group
   * type), the special case definitions in discovery order, and the user role
   * ids in storage order.
   */
  datatype Site = Site(
    memberships: map<UserId, seq<Group>>,
    grants: set<Grant>,
    installed: seq<PluginItem>,
    installedOn: map<string, seq<PluginItem>>,
    definitions: seq<SpecialCaseDef>,
    roles: seq<string>)

  datatype AccessResult = Allowed | Neutral | Forbidden

  /** Runtime errors the PHP code would raise. */
  datatype Failure =
    | UndefinedGetOwner  // getOwner() called on an entity without an owner
    | MissingPlugin      // getPluginId() called on FALSE

  const BypassPermission := "bypass group access checks"

  /** The groups of a user, in the order the membership loader returns them. */
  function MembershipsOf(site: Site, user: UserId): seq<Group>
  {
    if user in site.memberships then site.memberships[user] else []
  }

  /** `$group->getGroupType()` installed plugins: `getInstalled($group_type)`. */
  function InstalledOn(site: Site, groupType: string): seq<PluginItem>
  {
    if groupType in site.installedOn then site.installedOn[groupType] else []
  }

  /** `Group::hasPermission`. */
  predicate HasPermission(site: Site, g: Group, permission: string, account: Account)
  {
    Grant(g.id, permission, account.id) in site.grants
  }

  /** The author: the entity itself for users, the owner for owned entities. */
  function Author(e: Entity): Option<UserId>
  {
    match e.kind
    case UserEntity(_, _, _) => Some(e.id)
    case OwnedEntity(owner) => Some(owner)
    case PlainEntity => None
  }

  /** The role ids of a user entity; other entities have none. */
  function EntityRoles(e: Entity): seq<string>
  {
    if e.kind.UserEntity? then e.kind.roles else []
  }

  /** `$item->getEntityBundle() ?: $item->getEntityTypeId()`. */
  function CompiledBundle(item: PluginItem): string
  {
    if Truthy(item.entityBundle) then item.entityBundle.value else item.entityTypeId
  }

  function ViewPermission(pluginId: string): string
  {
    "view " + pluginId + " entity"
  }

  function ViewOwnPermission(pluginId: string): string
  {
    "view own " + pluginId + " entity"
  }

  function ViewUnpublishedPermission(pluginId: string): string
  {
    "view unpublished " + pluginId + " entity"
  }

  /** `"$operation any $plugin_id entity"`. */
  function AnyPermission(operation: string, pluginId: string): string
  {
    operation + " any " + pluginId + " entity"
  }

  /** An element of a nonempty sequence is one of the earlier ones or the last. */
  lemma InitLastMembers<T>(s: seq<T>)
    requires s != []
    ensures forall x :: x in s <==> x in s[..|s| - 1] || x == s[|s| - 1]
  {
    assert s == s[..|s| - 1] + [s[|s| - 1]];
  }
}
