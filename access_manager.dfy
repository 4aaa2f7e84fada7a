/**
 * The AccessManager service: group memberships, installed group content
 * enabler plugins, shared groups, per-group permission checks, special cases,
 * and the combined access decision for one entity, operation and account.
 */
module AccessManager {
  import opened OrderedMaps
  import opened Model
  import opened AccessSpecialCaseManager
  import PermissionBypass
  import RolePrivilegeCase

  /*
   * ---------------------------------------------------------------------
   * getUserGroups
   * ---------------------------------------------------------------------
   */

  /** Whether `getUserGroups` keeps a group for its `$type` argument. */
  predicate KeepsGroup(g: Group, groupType: Option<string>)
  {
    (Truthy(groupType) && g.bundle == groupType.value) || groupType == None
  }

  /** The kept groups of the memberships seen so far, keyed by group id. */
  function UserGroups(memberships: seq<Group>, groupType: Option<string>): Assoc<GroupId, Group>
  {
    if memberships == [] then []
    else
      var groups := UserGroups(memberships[..|memberships| - 1], groupType);
      var g := memberships[|memberships| - 1];
      if KeepsGroup(g, groupType) then Put(groups, g.id, g) else groups
  }

  /** `getUserGroups($user, $type)`. */
  method GetUserGroups(site: Site, user: UserId, groupType: Option<string>) returns (groups: Assoc<GroupId, Group>)
    ensures groups == UserGroups(MembershipsOf(site, user), groupType)
  {
    groups := CollectGroups(MembershipsOf(site, user), groupType);
  }

  /** The loop of `getUserGroups` over the memberships `loadByUser` returns. */
  method CollectGroups(memberships: seq<Group>, groupType: Option<string>) returns (groups: Assoc<GroupId, Group>)
    ensures groups == UserGroups(memberships, groupType)
  {
    groups := [];
    for i := 0 to |memberships|
      invariant groups == UserGroups(memberships[..i], groupType)
    {
      var g := memberships[i];
      UserGroupsStep(memberships, i, groupType);
      if Truthy(groupType) && g.bundle == groupType.value {
        groups := Put(groups, g.id, g);
      } else if groupType == None {
        groups := Put(groups, g.id, g);
      }
    }
    assert memberships[..|memberships|] == memberships;
  }

  /** One more membership either assigns its group under its id or is skipped. */
  lemma UserGroupsStep(memberships: seq<Group>, i: nat, groupType: Option<string>)
    requires i < |memberships|
    ensures UserGroups(memberships[..i + 1], groupType)
      == if KeepsGroup(memberships[i], groupType)
         then Put(UserGroups(memberships[..i], groupType), memberships[i].id, memberships[i])
         else UserGroups(memberships[..i], groupType)
  {
    assert memberships[..i + 1][..i] == memberships[..i];
  }

  /**
   * Each kept group is stored once, under its own id; an id is a key exactly
   * when some kept membership has it.
   */
  lemma UserGroupsShape(memberships: seq<Group>, groupType: Option<string>)
    ensures UniqueKeys(UserGroups(memberships, groupType))
    ensures forall k :: (k in Keys(UserGroups(memberships, groupType))
      <==> exists g :: g in memberships && g.id == k && KeepsGroup(g, groupType))
    ensures forall p :: (p in UserGroups(memberships, groupType)
      ==> p.1 in memberships && p.1.id == p.0 && KeepsGroup(p.1, groupType))
  {
    UserGroupsUnique(memberships, groupType);
    UserGroupsKeys(memberships, groupType);
    UserGroupsPairs(memberships, groupType);
  }

  /** No id is stored twice. */
  lemma {:induction false} UserGroupsUnique(memberships: seq<Group>, groupType: Option<string>)
    ensures UniqueKeys(UserGroups(memberships, groupType))
  {
    if memberships != [] {
      var init := memberships[..|memberships| - 1];
      var g := memberships[|memberships| - 1];
      UserGroupsUnique(init, groupType);
      if KeepsGroup(g, groupType) {
        PutKeepsUnique(UserGroups(init, groupType), g.id, g);
      }
    }
  }

  /** An id is a key exactly when some kept membership has it. */
  lemma {:induction false} UserGroupsKeys(memberships: seq<Group>, groupType: Option<string>)
    ensures forall k :: (k in Keys(UserGroups(memberships, groupType))
      <==> exists g :: g in memberships && g.id == k && KeepsGroup(g, groupType))
  {
    if memberships != [] {
      var init := memberships[..|memberships| - 1];
      var g := memberships[|memberships| - 1];
      UserGroupsKeys(init, groupType);
      InitLastMembers(memberships);
    }
  }

  /** Each stored group is a kept membership, stored under its own id. */
  lemma {:induction false} UserGroupsPairs(memberships: seq<Group>, groupType: Option<string>)
    ensures forall p :: (p in UserGroups(memberships, groupType)
      ==> p.1 in memberships && p.1.id == p.0 && KeepsGroup(p.1, groupType))
  {
    if memberships != [] {
      var init := memberships[..|memberships| - 1];
      var g := memberships[|memberships| - 1];
      UserGroupsPairs(init, groupType);
      InitLastMembers(memberships);
      if KeepsGroup(g, groupType) {
        PutMembers(UserGroups(init, groupType), g.id, g);
      }
    }
  }

  /** A falsy type other than NULL, such as "" or "0", keeps no group at all. */
  lemma {:induction false} UserGroupsFalsyType(memberships: seq<Group>, groupType: Option<string>)
    requires groupType.Some? && !Truthy(groupType)
    ensures UserGroups(memberships, groupType) == []
  {
    if memberships != [] {
      UserGroupsFalsyType(memberships[..|memberships| - 1], groupType);
    }
  }

  /*
   * ---------------------------------------------------------------------
   * hasSharedGroups
   * ---------------------------------------------------------------------
   */

  /**
   * The viewer's groups whose id is also one of the author's groups. The
   * author is the entity itself for a user, its owner otherwise; an entity
   * with neither has no `getOwner` and the call fails.
   */
  function HasSharedGroups(site: Site, account: Account, entity: Entity, groupType: Option<string>): Result<Assoc<GroupId, Group>, Failure>
  {
    match Author(entity)
    case None => Err(UndefinedGetOwner)
    case Some(author) =>
      Ok(IntersectKey(UserGroups(MembershipsOf(site, account.id), groupType),
                      UserGroups(MembershipsOf(site, author), groupType)))
  }

  /**
   * Shared groups are keyed by id, come from the viewer's memberships, and
   * an id is shared exactly when both the viewer and the author have a kept
   * membership with that id.
   */
  lemma SharedGroupsMeaning(site: Site, account: Account, entity: Entity, groupType: Option<string>)
    ensures HasSharedGroups(site, account, entity, groupType).Err? <==> Author(entity) == None
    ensures HasSharedGroups(site, account, entity, groupType).Ok? ==>
      var shared := HasSharedGroups(site, account, entity, groupType).value;
      && UniqueKeys(shared)
      && (forall p :: p in shared ==> p.1 in MembershipsOf(site, account.id) && p.1.id == p.0)
      && (forall k :: k in Keys(shared) <==>
            (exists g :: g in MembershipsOf(site, account.id) && g.id == k && KeepsGroup(g, groupType))
            && (exists g :: g in MembershipsOf(site, Author(entity).value) && g.id == k && KeepsGroup(g, groupType)))
  {
    if Author(entity).Some? {
      var viewer := UserGroups(MembershipsOf(site, account.id), groupType);
      var author := UserGroups(MembershipsOf(site, Author(entity).value), groupType);
      UserGroupsShape(MembershipsOf(site, account.id), groupType);
      UserGroupsShape(MembershipsOf(site, Author(entity).value), groupType);
      IntersectKeepsUnique(viewer, author);
      IntersectKeyMembers(viewer, author);
      var shared := IntersectKey(viewer, author);
      forall k ensures k in Keys(shared) <==> k in Keys(viewer) && k in Keys(author) {
        IntersectKeyGet(viewer, author, k);
      }
    }
  }

  /*
   * ---------------------------------------------------------------------
   * getPluginDefinitions, getEntityTypes, getEntityBundles
   * ---------------------------------------------------------------------
   */

  /** `$plugins[$base_id][$entity_type]` lists bundles, one per installed plugin. */
  type PluginTable = Assoc<string, Assoc<string, seq<string>>>

  /** `$plugins[$item->getBaseId()][$entity][] = $item->getEntityBundle() ?: $entity`. */
  function AddPlugin(plugins: PluginTable, item: PluginItem): PluginTable
  {
    var byType := GetOr(Get(plugins, item.baseId), []);
    var bundles := GetOr(Get(byType, item.entityTypeId), []);
    Put(plugins, item.baseId, Put(byType, item.entityTypeId, bundles + [CompiledBundle(item)]))
  }

  /** The table built from the installed plugins seen so far. */
  function PluginDefinitions(installed: seq<PluginItem>): PluginTable
  {
    if installed == [] then []
    else AddPlugin(PluginDefinitions(installed[..|installed| - 1]), installed[|installed| - 1])
  }

  /** `getPluginDefinitions()`. */
  method GetPluginDefinitions(site: Site) returns (plugins: PluginTable)
    ensures plugins == PluginDefinitions(site.installed)
  {
    var installed := site.installed;
    plugins := [];
    for i := 0 to |installed|
      invariant plugins == PluginDefinitions(installed[..i])
    {
      PluginDefinitionsStep(installed, i);
      var item := installed[i];
      var entity := item.entityTypeId;
      var bundle := if Truthy(item.entityBundle) then item.entityBundle.value else entity;
      var byType := GetOr(Get(plugins, item.baseId), []);
      var bundles := GetOr(Get(byType, entity), []);
      plugins := Put(plugins, item.baseId, Put(byType, entity, bundles + [bundle]));
    }
    assert installed[..|installed|] == installed;
  }

  /** One more installed plugin adds its compiled bundle to the table of the earlier ones. */
  lemma PluginDefinitionsStep(installed: seq<PluginItem>, i: nat)
    requires i < |installed|
    ensures PluginDefinitions(installed[..i + 1]) == AddPlugin(PluginDefinitions(installed[..i]), installed[i])
  {
    assert installed[..i + 1][..i] == installed[..i];
  }

  /** The base ids of the installed plugins, each once, in order of first appearance. */
  function BaseIds(installed: seq<PluginItem>): seq<string>
  {
    if installed == [] then []
    else
      var ids := BaseIds(installed[..|installed| - 1]);
      var b := installed[|installed| - 1].baseId;
      ids + (if b in ids then [] else [b])
  }

  /** The compiled bundles of the installed plugins with this base id and entity type, in order. */
  function BundlesOf(installed: seq<PluginItem>, baseId: string, entityTypeId: string): seq<string>
  {
    if installed == [] then []
    else
      var item := installed[|installed| - 1];
      BundlesOf(installed[..|installed| - 1], baseId, entityTypeId)
        + (if item.baseId == baseId && item.entityTypeId == entityTypeId then [CompiledBundle(item)] else [])
  }

  /** `$plugins[$base_id][$entity_type] ?? []`. */
  function Bundles(plugins: PluginTable, baseId: string, entityTypeId: string): seq<string>
  {
    GetOr(Get(GetOr(Get(plugins, baseId), []), entityTypeId), [])
  }

  /** `isset($plugins[$base_id][$entity_type])`. */
  predicate HasType(plugins: PluginTable, baseId: string, entityTypeId: string)
  {
    Get(plugins, baseId).Some? && entityTypeId in Keys(Get(plugins, baseId).value)
  }

  /** Adding a plugin appends its compiled bundle under its base id and type, and nowhere else. */
  lemma AddPluginLookup(plugins: PluginTable, item: PluginItem, b: string, t: string)
    ensures Bundles(AddPlugin(plugins, item), b, t)
      == Bundles(plugins, b, t) + (if b == item.baseId && t == item.entityTypeId then [CompiledBundle(item)] else [])
    ensures HasType(AddPlugin(plugins, item), b, t)
      <==> HasType(plugins, b, t) || (b == item.baseId && t == item.entityTypeId)
  {
    var byType := GetOr(Get(plugins, item.baseId), []);
    var bundles := GetOr(Get(byType, item.entityTypeId), []);
    var entry := Put(byType, item.entityTypeId, bundles + [CompiledBundle(item)]);
    var r := Put(plugins, item.baseId, entry);
    assert AddPlugin(plugins, item) == r;
    PutGet(plugins, item.baseId, entry, b);
    PutGet(byType, item.entityTypeId, bundles + [CompiledBundle(item)], t);
  }

  /** The table lists each base id once, in order of first appearance. */
  lemma {:induction false} PluginTableKeys(installed: seq<PluginItem>)
    ensures Keys(PluginDefinitions(installed)) == BaseIds(installed)
    ensures UniqueKeys(PluginDefinitions(installed))
  {
    if installed != [] {
      var init := installed[..|installed| - 1];
      var item := installed[|installed| - 1];
      PluginTableKeys(init);
      var plugins := PluginDefinitions(init);
      var byType := GetOr(Get(plugins, item.baseId), []);
      var bundles := GetOr(Get(byType, item.entityTypeId), []);
      PutKeepsUnique(plugins, item.baseId, Put(byType, item.entityTypeId, bundles + [CompiledBundle(item)]));
    }
  }

  /** No entry of the table is empty: each records at least one entity type. */
  lemma {:induction false} PluginTableEntries(installed: seq<PluginItem>)
    ensures forall k :: 0 <= k < |PluginDefinitions(installed)| ==> |PluginDefinitions(installed)[k].1| > 0
  {
    if installed != [] {
      var init := installed[..|installed| - 1];
      var item := installed[|installed| - 1];
      PluginTableEntries(init);
      var plugins := PluginDefinitions(init);
      var byType := GetOr(Get(plugins, item.baseId), []);
      var bundles := GetOr(Get(byType, item.entityTypeId), []);
      var entry := Put(byType, item.entityTypeId, bundles + [CompiledBundle(item)]);
      assert |Keys(entry)| > 0;
      PutMembers(plugins, item.baseId, entry);
      var r := PluginDefinitions(installed);
      forall k | 0 <= k < |r| ensures |r[k].1| > 0 {
        assert r[k] in r;
        if r[k] != (item.baseId, entry) {
          var j :| 0 <= j < |plugins| && plugins[j] == r[k];
        }
      }
    }
  }

  /**
   * The bundles under a base id and entity type are the compiled bundles of
   * exactly the installed plugins with that base id and type, in order, and
   * the pair is recorded exactly when there is one.
   */
  lemma {:induction false} PluginTableBundles(installed: seq<PluginItem>, b: string, t: string)
    ensures Bundles(PluginDefinitions(installed), b, t) == BundlesOf(installed, b, t)
    ensures HasType(PluginDefinitions(installed), b, t) <==> BundlesOf(installed, b, t) != []
  {
    if installed != [] {
      var init := installed[..|installed| - 1];
      var item := installed[|installed| - 1];
      PluginTableBundles(init, b, t);
      AddPluginLookup(PluginDefinitions(init), item, b, t);
    }
  }

  /** A base id is listed exactly when some installed plugin has it. */
  lemma {:induction false} BaseIdsMembers(installed: seq<PluginItem>, b: string)
    ensures b in BaseIds(installed) <==> exists k :: 0 <= k < |installed| && installed[k].baseId == b
  {
    if installed != [] {
      var init := installed[..|installed| - 1];
      BaseIdsMembers(init, b);
      assert forall k :: 0 <= k < |init| ==> installed[k] == init[k];
    }
  }

  /** A bundle is recorded exactly when an installed plugin with that base id and type compiles to it. */
  lemma {:induction false} BundlesOfMembers(installed: seq<PluginItem>, b: string, t: string, x: string)
    ensures x in BundlesOf(installed, b, t) <==>
      exists item :: item in installed && item.baseId == b && item.entityTypeId == t && CompiledBundle(item) == x
  {
    if installed != [] {
      var init := installed[..|installed| - 1];
      BundlesOfMembers(init, b, t, x);
      assert installed == init + [installed[|installed| - 1]];
    }
  }

  /** `key($plugin)` for each base id: the first entity type recorded under it. */
  function EntityTypes(plugins: PluginTable): seq<string>
  {
    if plugins == [] then []
    else (if plugins[0].1 == [] then [] else [plugins[0].1[0].0]) + EntityTypes(plugins[1..])
  }

  /** `getEntityTypes()`. */
  method GetEntityTypes(site: Site) returns (entities: seq<string>)
    ensures entities == EntityTypes(PluginDefinitions(site.installed))
  {
    var plugins := GetPluginDefinitions(site);
    PluginTableEntries(site.installed);
    entities := EntityTypesLoop(plugins);
  }

  /** The loop of `getEntityTypes()`: the first entity type key of each base id's entry. */
  method EntityTypesLoop(plugins: PluginTable) returns (entities: seq<string>)
    requires forall i :: 0 <= i < |plugins| ==> plugins[i].1 != []
    ensures entities == EntityTypes(plugins)
  {
    entities := [];
    for i := 0 to |plugins|
      invariant entities + EntityTypes(plugins[i..]) == EntityTypes(plugins)
    {
      var plugin := plugins[i];
      assert plugins[i..][1..] == plugins[i + 1..];
      entities := entities + [plugin.1[0].0];
    }
  }

  lemma {:induction false} EntityTypesAppend(plugins: PluginTable, b: string, byType: Assoc<string, seq<string>>)
    requires byType != []
    ensures EntityTypes(plugins + [(b, byType)]) == EntityTypes(plugins) + [byType[0].0]
  {
    if plugins != [] {
      assert (plugins + [(b, byType)])[1..] == plugins[1..] + [(b, byType)];
      EntityTypesAppend(plugins[1..], b, byType);
    }
  }

  /** Replacing an entry by one with the same first entity type leaves the entity types unchanged. */
  lemma {:induction false} EntityTypesReplace(plugins: PluginTable, b: string, byType: Assoc<string, seq<string>>)
    requires Get(plugins, b).Some? && Get(plugins, b).value != []
    requires byType != [] && byType[0].0 == Get(plugins, b).value[0].0
    ensures EntityTypes(Put(plugins, b, byType)) == EntityTypes(plugins)
  {
    if plugins[0].0 != b {
      EntityTypesReplace(plugins[1..], b, byType);
    }
  }

  /** The entity type of each base id's first installed plugin, in order of first appearance. */
  function FirstTypes(installed: seq<PluginItem>): seq<string>
  {
    if installed == [] then []
    else
      var init := installed[..|installed| - 1];
      var item := installed[|installed| - 1];
      FirstTypes(init) + (if item.baseId in BaseIds(init) then [] else [item.entityTypeId])
  }

  /** Adding a plugin under a base id already listed keeps the first entity type of every entry. */
  lemma EntityTypesAddKnown(plugins: PluginTable, item: PluginItem)
    requires item.baseId in Keys(plugins)
    requires forall k :: 0 <= k < |plugins| ==> |plugins[k].1| > 0
    ensures EntityTypes(AddPlugin(plugins, item)) == EntityTypes(plugins)
  {
    var byType := Get(plugins, item.baseId).value;
    var j :| 0 <= j < |plugins| && plugins[j] == (item.baseId, byType);
    var bundles := GetOr(Get(byType, item.entityTypeId), []);
    var entry := Put(byType, item.entityTypeId, bundles + [CompiledBundle(item)]);
    assert Keys(entry)[0] == Keys(byType)[0];
    EntityTypesReplace(plugins, item.baseId, entry);
  }

  /** Adding a plugin under a new base id appends its entity type. */
  lemma EntityTypesAddNew(plugins: PluginTable, item: PluginItem)
    requires item.baseId !in Keys(plugins)
    ensures EntityTypes(AddPlugin(plugins, item)) == EntityTypes(plugins) + [item.entityTypeId]
  {
    var entry := [(item.entityTypeId, [CompiledBundle(item)])];
    var none: Assoc<string, seq<string>> := [];
    var noBundles: seq<string> := [];
    assert GetOr(Get(plugins, item.baseId), none) == none;
    assert GetOr(Get(none, item.entityTypeId), noBundles) == noBundles;
    assert noBundles + [CompiledBundle(item)] == [CompiledBundle(item)];
    assert Put(none, item.entityTypeId, [CompiledBundle(item)]) == entry;
    assert AddPlugin(plugins, item) == Put(plugins, item.baseId, entry);
    PutAppends(plugins, item.baseId, entry);
    EntityTypesAppend(plugins, item.baseId, entry);
  }

  /** `getEntityTypes` lists, per base id, the entity type of the first plugin installed with it. */
  lemma {:induction false} EntityTypesAreFirstTypes(installed: seq<PluginItem>)
    ensures EntityTypes(PluginDefinitions(installed)) == FirstTypes(installed)
  {
    if installed != [] {
      var init := installed[..|installed| - 1];
      var item := installed[|installed| - 1];
      EntityTypesAreFirstTypes(init);
      PluginTableKeys(init);
      if item.baseId in BaseIds(init) {
        PluginTableEntries(init);
        EntityTypesAddKnown(PluginDefinitions(init), item);
      } else {
        EntityTypesAddNew(PluginDefinitions(init), item);
      }
    }
  }

  /** The plugin at position `k` is the first installed with its base id. */
  predicate FirstOfBase(installed: seq<PluginItem>, k: int)
  {
    0 <= k < |installed| && forall j :: 0 <= j < k ==> installed[j].baseId != installed[k].baseId
  }

  /** Whether a plugin before the last is the first of its base id does not depend on the last. */
  lemma FirstOfBaseInit(installed: seq<PluginItem>, k: int)
    requires 0 <= k < |installed| - 1
    ensures FirstOfBase(installed, k) == FirstOfBase(installed[..|installed| - 1], k)
  {
    assert forall j :: 0 <= j <= k ==> installed[j] == installed[..|installed| - 1][j];
  }

  /** The last plugin is the first of its base id exactly when no earlier plugin has that base id. */
  lemma FirstOfBaseLast(installed: seq<PluginItem>)
    requires installed != []
    ensures FirstOfBase(installed, |installed| - 1)
      <==> installed[|installed| - 1].baseId !in BaseIds(installed[..|installed| - 1])
  {
    var init := installed[..|installed| - 1];
    BaseIdsMembers(init, installed[|installed| - 1].baseId);
    assert forall j :: 0 <= j < |init| ==> installed[j] == init[j];
  }

  /** An entity type is listed exactly when it is the type of the first plugin of some base id. */
  lemma {:induction false} FirstTypesMembers(installed: seq<PluginItem>, t: string)
    ensures t in FirstTypes(installed) <==>
      exists k :: FirstOfBase(installed, k) && installed[k].entityTypeId == t
  {
    if installed != [] {
      var init := installed[..|installed| - 1];
      var n := |init|;
      var item := installed[n];
      var extra := if item.baseId in BaseIds(init) then [] else [item.entityTypeId];
      assert FirstTypes(installed) == FirstTypes(init) + extra;
      FirstTypesMembers(init, t);
      FirstOfBaseLast(installed);
      if t in FirstTypes(init) {
        var k :| FirstOfBase(init, k) && init[k].entityTypeId == t;
        FirstOfBaseInit(installed, k);
        assert installed[k] == init[k];
      } else if t in extra {
        assert FirstOfBase(installed, n) && installed[n].entityTypeId == t;
      }
      if exists k :: FirstOfBase(installed, k) && installed[k].entityTypeId == t {
        var k :| FirstOfBase(installed, k) && installed[k].entityTypeId == t;
        if k < n {
          FirstOfBaseInit(installed, k);
          assert installed[k] == init[k];
          assert FirstOfBase(init, k) && init[k].entityTypeId == t;
        } else {
          assert k == n && item.baseId !in BaseIds(init);
          assert extra == [t];
        }
      }
    }
  }

  /** `getEntityBundles($entity_type)`: the list under the first base id that records the type. */
  function EntityBundles(plugins: PluginTable, entityTypeId: string): seq<string>
  {
    if plugins == [] then []
    else if entityTypeId in Keys(plugins[0].1) then GetOr(Get(plugins[0].1, entityTypeId), [])
    else EntityBundles(plugins[1..], entityTypeId)
  }

  /** `getEntityBundles($entity_type)`, with its early return. */
  method GetEntityBundles(site: Site, entityTypeId: string) returns (bundles: seq<string>)
    ensures bundles == EntityBundles(PluginDefinitions(site.installed), entityTypeId)
  {
    var plugins := GetPluginDefinitions(site);
    for i := 0 to |plugins|
      invariant EntityBundles(plugins[i..], entityTypeId) == EntityBundles(plugins, entityTypeId)
    {
      assert plugins[i..][1..] == plugins[i + 1..];
      var plugin := plugins[i].1;
      if entityTypeId in Keys(plugin) {
        return GetOr(Get(plugin, entityTypeId), []);
      }
    }
    return [];
  }

  /** Whatever `getEntityBundles` returns comes from one base id that records the type. */
  lemma {:induction false} EntityBundlesFrom(plugins: PluginTable, t: string, x: string)
    requires UniqueKeys(plugins)
    requires x in EntityBundles(plugins, t)
    ensures exists b :: HasType(plugins, b, t) && x in Bundles(plugins, b, t)
  {
    var b := plugins[0].0;
    if t in Keys(plugins[0].1) {
      assert HasType(plugins, b, t) && x in Bundles(plugins, b, t);
    } else {
      EntityBundlesFrom(plugins[1..], t, x);
      var b' :| HasType(plugins[1..], b', t) && x in Bundles(plugins[1..], b', t);
      TailKeyNotHead(plugins, b');
      LookupPastHead(plugins, b', t);
    }
  }

  /** In a table without duplicate base ids, a base id of the tail is not the head's. */
  lemma TailKeyNotHead(plugins: PluginTable, b: string)
    requires UniqueKeys(plugins) && plugins != []
    requires b in Keys(plugins[1..])
    ensures b != plugins[0].0
  {
    var j :| 0 <= j < |plugins[1..]| && plugins[1..][j].0 == b;
    assert plugins[j + 1].0 == b;
  }

  /** A lookup of a base id other than the head's is a lookup in the tail. */
  lemma LookupPastHead(plugins: PluginTable, b: string, t: string)
    requires plugins != [] && plugins[0].0 != b
    ensures HasType(plugins, b, t) == HasType(plugins[1..], b, t)
    ensures Bundles(plugins, b, t) == Bundles(plugins[1..], b, t)
  {
  }

  /** When a single base id records the type, `getEntityBundles` returns its list. */
  lemma {:induction false} EntityBundlesSole(plugins: PluginTable, t: string, b: string)
    requires UniqueKeys(plugins)
    requires forall b' :: HasType(plugins, b', t) ==> b' == b
    ensures EntityBundles(plugins, t) == Bundles(plugins, b, t)
  {
    if plugins == [] {
    } else if t in Keys(plugins[0].1) {
      assert HasType(plugins, plugins[0].0, t);
    } else {
      forall b' | HasType(plugins[1..], b', t) ensures b' == b {
        TailKeyNotHead(plugins, b');
        LookupPastHead(plugins, b', t);
      }
      EntityBundlesSole(plugins[1..], t, b);
    }
  }

  /*
   * ---------------------------------------------------------------------
   * isApplicable, isApplicableEntityType
   * ---------------------------------------------------------------------
   */

  /** `in_array($entity->bundle(), getEntityBundles($entity->getEntityTypeId()))`. */
  predicate IsApplicable(site: Site, entity: Entity)
  {
    entity.bundle in EntityBundles(PluginDefinitions(site.installed), entity.typeId)
  }

  /** `in_array($entity_type, getEntityTypes())`. */
  predicate IsApplicableEntityType(site: Site, entityTypeId: string)
  {
    entityTypeId in EntityTypes(PluginDefinitions(site.installed))
  }

  /** An applicable entity has an installed plugin of its type compiling to its bundle. */
  lemma IsApplicableSound(site: Site, entity: Entity)
    requires IsApplicable(site, entity)
    ensures exists item :: item in site.installed && item.entityTypeId == entity.typeId && CompiledBundle(item) == entity.bundle
  {
    PluginTableKeys(site.installed);
    EntityBundlesFrom(PluginDefinitions(site.installed), entity.typeId, entity.bundle);
    var b :| HasType(PluginDefinitions(site.installed), b, entity.typeId)
      && entity.bundle in Bundles(PluginDefinitions(site.installed), b, entity.typeId);
    PluginTableBundles(site.installed, b, entity.typeId);
    BundlesOfMembers(site.installed, b, entity.typeId, entity.bundle);
  }

  /**
   * When every installed plugin of the entity's type shares one base id, the
   * entity is applicable exactly when one of them compiles to its bundle.
   */
  lemma IsApplicableWithOneProvider(site: Site, entity: Entity, b: string)
    requires forall item :: item in site.installed && item.entityTypeId == entity.typeId ==> item.baseId == b
    ensures IsApplicable(site, entity) <==>
      exists item :: item in site.installed && item.entityTypeId == entity.typeId && CompiledBundle(item) == entity.bundle
  {
    var plugins := PluginDefinitions(site.installed);
    PluginTableKeys(site.installed);
    forall b' | HasType(plugins, b', entity.typeId) ensures b' == b {
      PluginTableBundles(site.installed, b', entity.typeId);
      assert BundlesOf(site.installed, b', entity.typeId) != [];
      var x := BundlesOf(site.installed, b', entity.typeId)[0];
      BundlesOfMembers(site.installed, b', entity.typeId, x);
    }
    EntityBundlesSole(plugins, entity.typeId, b);
    PluginTableBundles(site.installed, b, entity.typeId);
    BundlesOfMembers(site.installed, b, entity.typeId, entity.bundle);
  }

  /** An entity type is applicable exactly when it is the type of the first plugin installed under some base id. */
  lemma IsApplicableEntityTypeMeans(site: Site, entityTypeId: string)
    ensures IsApplicableEntityType(site, entityTypeId) <==>
      exists k :: FirstOfBase(site.installed, k) && site.installed[k].entityTypeId == entityTypeId
  {
    EntityTypesAreFirstTypes(site.installed);
    FirstTypesMembers(site.installed, entityTypeId);
  }

  /**
   * Only the first base id that records an entity type is consulted: a
   * bundle enabled by a later plugin of another base id is not applicable.
   */
  lemma SecondProviderIgnored(site: Site, entity: Entity)
    requires site.installed == [
      PluginItem("group_node:article", "group_node", "node", Some("article")),
      PluginItem("extra_node:page", "extra_node", "node", Some("page"))]
    requires entity.typeId == "node" && entity.bundle == "page"
    ensures site.installed[1].entityTypeId == entity.typeId && CompiledBundle(site.installed[1]) == entity.bundle
    ensures !IsApplicable(site, entity)
  {
    SecondProviderBundles(site.installed);
  }

  /** `getEntityBundles` returns the list of the first entry that records the type. */
  lemma {:induction false} EntityBundlesFirst(plugins: PluginTable, i: nat, t: string)
    requires i < |plugins| && t in Keys(plugins[i].1)
    requires forall j :: 0 <= j < i ==> t !in Keys(plugins[j].1)
    ensures EntityBundles(plugins, t) == GetOr(Get(plugins[i].1, t), [])
  {
    if i > 0 {
      assert t !in Keys(plugins[0].1);
      forall j | 0 <= j < i - 1 ensures t !in Keys(plugins[1..][j].1) {
        assert plugins[1..][j] == plugins[j + 1];
      }
      assert plugins[1..][i - 1] == plugins[i];
      EntityBundlesFirst(plugins[1..], i - 1, t);
    }
  }

  /**
   * Only the first base id that records an entity type decides which of its
   * bundles are applicable: an entity of the type is applicable exactly when
   * a plugin of that base id and type compiles to its bundle, whatever the
   * plugins of later base ids provide.
   */
  lemma FirstProviderDecides(site: Site, entity: Entity, i: nat)
    requires i < |PluginDefinitions(site.installed)|
    requires entity.typeId in Keys(PluginDefinitions(site.installed)[i].1)
    requires forall j :: 0 <= j < i ==> entity.typeId !in Keys(PluginDefinitions(site.installed)[j].1)
    ensures IsApplicable(site, entity) <==>
      exists item :: item in site.installed && item.baseId == PluginDefinitions(site.installed)[i].0
        && item.entityTypeId == entity.typeId && CompiledBundle(item) == entity.bundle
  {
    var plugins := PluginDefinitions(site.installed);
    var b := plugins[i].0;
    EntityBundlesFirst(plugins, i, entity.typeId);
    PluginTableKeys(site.installed);
    assert plugins[i] in plugins;
    GetOfMember(plugins, b, plugins[i].1);
    PluginTableBundles(site.installed, b, entity.typeId);
    BundlesOfMembers(site.installed, b, entity.typeId, entity.bundle);
  }

  /** With the node plugin installed first, the bundles looked up for nodes are the first base id's alone. */
  lemma SecondProviderBundles(installed: seq<PluginItem>)
    requires installed == [
      PluginItem("group_node:article", "group_node", "node", Some("article")),
      PluginItem("extra_node:page", "extra_node", "node", Some("page"))]
    ensures EntityBundles(PluginDefinitions(installed), "node") == ["article"]
  {
    var plugins := PluginDefinitions(installed);
    PluginTableKeys(installed);
    PluginTableBundles(installed, "group_node", "node");
    assert installed[..1][..0] == [];
    assert BundlesOf(installed[..1], "group_node", "node") == ["article"];
    assert BundlesOf(installed, "group_node", "node") == ["article"];
    assert HasType(plugins, "group_node", "node");
    assert plugins[0].0 == "group_node" by {
      assert BaseIds(installed[..1]) == ["group_node"];
      assert Keys(plugins)[0] == "group_node";
    }
  }

  /*
   * ---------------------------------------------------------------------
   * getPluginDefinition
   * ---------------------------------------------------------------------
   */

  /**
   * Whether `getPluginDefinition` returns this plugin for the entity: never a
   * `group_membership` plugin; a bundled plugin must match type and bundle,
   * an unbundled one the type alone.
   */
  predicate MatchesEntity(item: PluginItem, entity: Entity)
  {
    && item.baseId != "group_membership"
    && if Truthy(item.entityBundle) then
         item.entityTypeId == entity.typeId && item.entityBundle.value == entity.bundle
       else
         item.entityTypeId == entity.typeId
  }

  /** The plugin `getPluginDefinition` returns, or None for its FALSE. */
  function PluginFor(installed: seq<PluginItem>, entity: Entity): Option<PluginItem>
  {
    if installed == [] then None
    else if MatchesEntity(installed[0], entity) then Some(installed[0])
    else PluginFor(installed[1..], entity)
  }

  /** `getPluginDefinition($entity)`, with its `continue` and early returns. */
  method GetPluginDefinition(site: Site, entity: Entity) returns (plugin: Option<PluginItem>)
    ensures plugin == PluginFor(site.installed, entity)
  {
    var installed := site.installed;
    for i := 0 to |installed|
      invariant PluginFor(installed[i..], entity) == PluginFor(installed, entity)
    {
      assert installed[i..][1..] == installed[i + 1..];
      var item := installed[i];
      if item.baseId == "group_membership" {
        continue;
      }
      if Truthy(item.entityBundle) {
        if item.entityTypeId == entity.typeId && item.entityBundle.value == entity.bundle {
          return Some(item);
        }
      } else {
        if item.entityTypeId == entity.typeId {
          return Some(item);
        }
      }
    }
    return None;
  }

  /** The result is the first matching plugin in installed order, and None exactly when none matches. */
  lemma {:induction false} PluginForFirstMatch(installed: seq<PluginItem>, entity: Entity)
    ensures PluginFor(installed, entity).None? <==> forall k :: 0 <= k < |installed| ==> !MatchesEntity(installed[k], entity)
    ensures PluginFor(installed, entity).Some? ==>
      exists k :: 0 <= k < |installed| && installed[k] == PluginFor(installed, entity).value
        && MatchesEntity(installed[k], entity)
        && forall j :: 0 <= j < k ==> !MatchesEntity(installed[j], entity)
  {
    if installed != [] && !MatchesEntity(installed[0], entity) {
      var rest := installed[1..];
      PluginForFirstMatch(rest, entity);
      assert forall k :: 0 < k < |installed| ==> installed[k] == rest[k - 1];
      if PluginFor(rest, entity).Some? {
        var k :| 0 <= k < |rest| && rest[k] == PluginFor(rest, entity).value
          && MatchesEntity(rest[k], entity)
          && forall j :: 0 <= j < k ==> !MatchesEntity(rest[j], entity);
        assert installed[k + 1] == rest[k];
      }
    } else if installed != [] {
      assert MatchesEntity(installed[0], entity);
    }
  }

  /*
   * ---------------------------------------------------------------------
   * checkGroupPermissions
   * ---------------------------------------------------------------------
   */

  /** Published state: `isPublished` when the entity has it, `isActive` for users, TRUE otherwise. */
  predicate IsPublished(entity: Entity)
  {
    if entity.published.Some? then entity.published.value
    else if entity.kind.UserEntity? then entity.kind.active
    else true
  }

  /** The owner id checked for "view own": the owner for owned entities, the id for users, NULL otherwise. */
  function OwnerId(entity: Entity): Option<UserId>
  {
    match entity.kind
    case OwnedEntity(owner) => Some(owner)
    case UserEntity(_, _, _) => Some(entity.id)
    case PlainEntity => None
  }

  /** `$owner_id == $account->id()`, where a NULL owner id loosely equals only the id 0. */
  predicate OwnerMatches(entity: Entity, account: Account)
  {
    match OwnerId(entity)
    case None => account.id == 0
    case Some(owner) => owner == account.id
  }

  /** Whether one group grants the operation on the entity, per the permission strings of the `switch`. */
  predicate GroupPermits(site: Site, entity: Entity, operation: string, account: Account, pluginId: string, g: Group)
  {
    if operation == "view" || operation == "download" then
      if IsPublished(entity) then
        || HasPermission(site, g, ViewPermission(pluginId), account)
        || (OwnerMatches(entity, account) && HasPermission(site, g, ViewOwnPermission(pluginId), account))
      else
        HasPermission(site, g, ViewUnpublishedPermission(pluginId), account)
    else if operation == "update" || operation == "delete" then
      HasPermission(site, g, AnyPermission(operation, pluginId), account)
    else
      false
  }

  /** Whether one of the groups grants the operation. */
  predicate AnyGroupPermits(site: Site, entity: Entity, operation: string, account: Account, pluginId: string, groups: seq<Group>)
  {
    exists i :: 0 <= i < |groups| && GroupPermits(site, entity, operation, account, pluginId, groups[i])
  }

  /**
   * `checkGroupPermissions`: None when no group is shared (the function falls
   * off its end), otherwise whether some shared group grants the operation.
   * It fails when the entity has no author or no plugin matches it.
   */
  function GroupPermissions(site: Site, entity: Entity, operation: string, account: Account): Result<Option<bool>, Failure>
  {
    match HasSharedGroups(site, account, entity, None)
    case Err(e) => Err(e)
    case Ok(shared) =>
      if shared == [] then Ok(None)
      else
        match PluginFor(site.installed, entity)
        case None => Err(MissingPlugin)
        case Some(plugin) =>
          Ok(Some(AnyGroupPermits(site, entity, operation, account, plugin.pluginId, Values(shared))))
  }

  /** The body of the loop over shared groups: the `switch` on the operation for one group. */
  method GroupPermitted(site: Site, entity: Entity, operation: string, account: Account, pluginId: string, group: Group)
    returns (permitted: bool)
    ensures permitted == GroupPermits(site, entity, operation, account, pluginId, group)
  {
    permitted := false;
    if operation == "view" || operation == "download" {
      var isPublished;
      if entity.published.Some? {
        isPublished := entity.published.value;
      } else if entity.kind.UserEntity? {
        isPublished := entity.kind.active;
      } else {
        isPublished := true;
      }
      if isPublished {
        permitted := HasPermission(site, group, ViewPermission(pluginId), account);
        if !permitted {
          var ownerId: Option<UserId> := None;
          if entity.kind.OwnedEntity? {
            ownerId := Some(entity.kind.ownerId);
          } else if entity.kind.UserEntity? {
            ownerId := Some(entity.id);
          }
          if (ownerId.None? && account.id == 0) || (ownerId.Some? && ownerId.value == account.id) {
            permitted := HasPermission(site, group, ViewOwnPermission(pluginId), account);
          }
        }
      } else {
        permitted := HasPermission(site, group, ViewUnpublishedPermission(pluginId), account);
      }
    } else if operation == "update" || operation == "delete" {
      permitted := HasPermission(site, group, AnyPermission(operation, pluginId), account);
    }
  }

  /** `checkGroupPermissions`, stopping at the first shared group that grants. */
  method CheckGroupPermissions(site: Site, entity: Entity, operation: string, account: Account)
    returns (access: Result<Option<bool>, Failure>)
    ensures access == GroupPermissions(site, entity, operation, account)
  {
    var shared := HasSharedGroups(site, account, entity, None);
    if shared.Err? {
      return Err(shared.error);
    }
    if shared.value == [] {
      return Ok(None);
    }
    var definition := GetPluginDefinition(site, entity);
    if definition.None? {
      return Err(MissingPlugin);
    }
    var permitted := AnyGroupPermitted(site, entity, operation, account, definition.value.pluginId, Values(shared.value));
    return Ok(Some(permitted));
  }

  /** The loop over the shared groups, returning at the first group that grants. */
  method AnyGroupPermitted(site: Site, entity: Entity, operation: string, account: Account, pluginId: string, groups: seq<Group>)
    returns (permitted: bool)
    ensures permitted == AnyGroupPermits(site, entity, operation, account, pluginId, groups)
  {
    for i := 0 to |groups|
      invariant forall j :: 0 <= j < i ==> !GroupPermits(site, entity, operation, account, pluginId, groups[j])
    {
      permitted := GroupPermitted(site, entity, operation, account, pluginId, groups[i]);
      if permitted {
        return;
      }
    }
    return false;
  }

  /** A group id names one group: every membership record with that id carries the same group. */
  ghost predicate ConsistentGroups(site: Site)
  {
    forall u1, u2, g1, g2 :: g1 in MembershipsOf(site, u1) && g2 in MembershipsOf(site, u2) && g1.id == g2.id ==> g1 == g2
  }

  /** A group both the viewer and the author belong to. */
  predicate SharedGroup(site: Site, account: Account, author: UserId, g: Group)
  {
    g in MembershipsOf(site, account.id) && g in MembershipsOf(site, author)
  }

  /**
   * The group check grants exactly when some group shared by the viewer and
   * the author grants the operation, whatever the order of the groups; it
   * answers None exactly when no group is shared.
   */
  lemma GroupPermissionsMeaning(site: Site, entity: Entity, operation: string, account: Account)
    requires ConsistentGroups(site)
    requires Author(entity).Some?
    ensures GroupPermissions(site, entity, operation, account) == Ok(None)
      <==> !exists g :: SharedGroup(site, account, Author(entity).value, g)
    ensures PluginFor(site.installed, entity).Some? ==>
      (GroupPermissions(site, entity, operation, account) == Ok(Some(true)) <==>
         exists g :: SharedGroup(site, account, Author(entity).value, g)
           && GroupPermits(site, entity, operation, account, PluginFor(site.installed, entity).value.pluginId, g))
    ensures PluginFor(site.installed, entity).None? && (exists g :: SharedGroup(site, account, Author(entity).value, g)) ==>
      GroupPermissions(site, entity, operation, account) == Err(MissingPlugin)
  {
    var author := Author(entity).value;
    SharedValuesMembers(site, account, entity);
    var shared := HasSharedGroups(site, account, entity, None).value;
    var groups := Values(shared);
    if shared != [] {
      assert groups[0] in groups;
      if PluginFor(site.installed, entity).Some? {
        var pluginId := PluginFor(site.installed, entity).value.pluginId;
        assert GroupPermissions(site, entity, operation, account) == Ok(Some(AnyGroupPermits(site, entity, operation, account, pluginId, groups)));
        if AnyGroupPermits(site, entity, operation, account, pluginId, groups) {
          var i :| 0 <= i < |groups| && GroupPermits(site, entity, operation, account, pluginId, groups[i]);
          assert groups[i] in groups;
        }
        if exists g :: SharedGroup(site, account, author, g) && GroupPermits(site, entity, operation, account, pluginId, g) {
          var g :| SharedGroup(site, account, author, g) && GroupPermits(site, entity, operation, account, pluginId, g);
          var i :| 0 <= i < |groups| && groups[i] == g;
        }
      }
    }
  }

  /** The groups `hasSharedGroups` lists are exactly the groups the viewer and the author share. */
  lemma SharedValuesMembers(site: Site, account: Account, entity: Entity)
    requires ConsistentGroups(site)
    requires Author(entity).Some?
    ensures HasSharedGroups(site, account, entity, None).Ok?
    ensures forall g ::
      (g in Values(HasSharedGroups(site, account, entity, None).value) <==> SharedGroup(site, account, Author(entity).value, g))
  {
    var author := Author(entity).value;
    var authorGroups := MembershipsOf(site, author);
    SharedGroupsMeaning(site, account, entity, None);
    var shared := HasSharedGroups(site, account, entity, None).value;
    var groups := Values(shared);
    forall g | g in groups ensures SharedGroup(site, account, author, g) {
      var i :| 0 <= i < |groups| && groups[i] == g;
      assert shared[i] in shared;
      assert g.id in Keys(shared);
      var g2 :| g2 in authorGroups && g2.id == g.id && KeepsGroup(g2, None);
    }
    forall g | SharedGroup(site, account, author, g) ensures g in groups {
      assert KeepsGroup(g, None);
      assert g.id in Keys(shared);
      var i :| 0 <= i < |shared| && shared[i].0 == g.id;
      assert shared[i] in shared;
      assert groups[i] == g;
    }
  }

  /*
   * ---------------------------------------------------------------------
   * checkSpecialCases
   * ---------------------------------------------------------------------
   */

  /** What a special case plugin's `checkAccess` answers. */
  predicate CaseFires(site: Site, definition: SpecialCaseDef, entity: Entity, operation: string, account: Account)
  {
    match definition.plugin
    case PermissionBypassPlugin => PermissionBypass.CheckAccess(entity, operation, account)
    case RolePrivilegePlugin => RolePrivilegeCase.Forbids(site.roles, operation, account.roles, EntityRoles(entity))
    case OtherPlugin(fires) => Firing(entity.typeId, entity.id, operation, account.id) in fires
  }

  /** Whether some special case of the type, among those returned for the entity type, fires. */
  predicate SpecialCasesFire(site: Site, entity: Entity, operation: string, account: Account, caseType: string)
  {
    var cases := EntitySpecialCases(site.definitions, entity.typeId, caseType);
    exists i :: 0 <= i < |cases| && CaseFires(site, cases[i], entity, operation, account)
  }

  /** `checkSpecialCases`: instantiates each returned case in order and stops at the first that fires. */
  method CheckSpecialCases(site: Site, entity: Entity, operation: string, account: Account, caseType: string)
    returns (fired: bool)
    requires UniqueIds(site.definitions)
    ensures fired == SpecialCasesFire(site, entity, operation, account, caseType)
  {
    var specialCases := GetEntitySpecialCases(site.definitions, entity.typeId, caseType);
    for i := 0 to |specialCases|
      invariant forall j :: 0 <= j < i ==> !CaseFires(site, specialCases[j], entity, operation, account)
    {
      var definition := specialCases[i];
      var result: bool;
      match definition.plugin {
        case PermissionBypassPlugin =>
          result := PermissionBypass.CheckAccess(entity, operation, account);
        case RolePrivilegePlugin =>
          var accessSpecialCase := new RolePrivilegeCase.RolePrivilege(site.roles);
          result := accessSpecialCase.CheckAccess(entity, operation, account);
        case OtherPlugin(fires) =>
          result := Firing(entity.typeId, entity.id, operation, account.id) in fires;
      }
      if result {
        return true;
      }
    }
    return false;
  }

  /** A case type fires exactly when some discovered definition of it applies to the entity type and fires. */
  lemma SpecialCasesFireMeans(site: Site, entity: Entity, operation: string, account: Account, caseType: string)
    ensures SpecialCasesFire(site, entity, operation, account, caseType) <==>
      exists d :: d in site.definitions && Applies(d, entity.typeId, caseType) && CaseFires(site, d, entity, operation, account)
  {
    var cases := EntitySpecialCases(site.definitions, entity.typeId, caseType);
    forall d | d in site.definitions && Applies(d, entity.typeId, caseType) && CaseFires(site, d, entity, operation, account)
      ensures SpecialCasesFire(site, entity, operation, account, caseType)
    {
      EntitySpecialCasesMembers(site.definitions, entity.typeId, caseType, d);
      var i :| 0 <= i < |cases| && cases[i] == d;
    }
    if SpecialCasesFire(site, entity, operation, account, caseType) {
      var i :| 0 <= i < |cases| && CaseFires(site, cases[i], entity, operation, account);
      EntitySpecialCasesMembers(site.definitions, entity.typeId, caseType, cases[i]);
    }
  }

  /*
   * ---------------------------------------------------------------------
   * access, checkAccess
   * ---------------------------------------------------------------------
   */

  /** `access($access)`: a truthy value allows, anything else (FALSE or NULL) forbids. */
  function Access(access: Option<bool>): AccessResult
  {
    if access == Some(true) then Allowed else Forbidden
  }

  /** `checkAccess`: forbidden cases, then allowed cases, then the group check. */
  function CheckAccess(site: Site, entity: Entity, operation: string, account: Account): (r: Result<AccessResult, Failure>)
    ensures r.Ok? ==> r.value != Neutral
  {
    if SpecialCasesFire(site, entity, operation, account, "forbidden") then Ok(Access(Some(false)))
    else if SpecialCasesFire(site, entity, operation, account, "allowed") then Ok(Access(Some(true)))
    else
      match GroupPermissions(site, entity, operation, account)
      case Err(e) => Err(e)
      case Ok(access) => Ok(Access(access))
  }

  /** A firing forbidden case decides, whatever allowed cases or group permissions say. */
  lemma ForbiddenCaseWins(site: Site, entity: Entity, operation: string, account: Account, d: SpecialCaseDef)
    requires d in site.definitions && Applies(d, entity.typeId, "forbidden") && CaseFires(site, d, entity, operation, account)
    ensures CheckAccess(site, entity, operation, account) == Ok(Forbidden)
  {
    SpecialCasesFireMeans(site, entity, operation, account, "forbidden");
  }

  /** With no forbidden case firing, a firing allowed case decides. */
  lemma AllowedCaseWins(site: Site, entity: Entity, operation: string, account: Account, d: SpecialCaseDef)
    requires !SpecialCasesFire(site, entity, operation, account, "forbidden")
    requires d in site.definitions && Applies(d, entity.typeId, "allowed") && CaseFires(site, d, entity, operation, account)
    ensures CheckAccess(site, entity, operation, account) == Ok(Allowed)
  {
    SpecialCasesFireMeans(site, entity, operation, account, "allowed");
  }

  /**
   * With no special case firing, access is allowed exactly when a group
   * shared by the viewer and the author grants the operation, and forbidden
   * when none does, including when no group is shared at all. When groups
   * are shared but no plugin matches the entity, `getPluginId()` is called
   * on FALSE and the check fails.
   */
  lemma CheckAccessByGroups(site: Site, entity: Entity, operation: string, account: Account)
    requires ConsistentGroups(site)
    requires !SpecialCasesFire(site, entity, operation, account, "forbidden")
    requires !SpecialCasesFire(site, entity, operation, account, "allowed")
    requires Author(entity).Some?
    ensures (!exists g :: SharedGroup(site, account, Author(entity).value, g))
      ==> CheckAccess(site, entity, operation, account) == Ok(Forbidden)
    ensures PluginFor(site.installed, entity).Some? ==>
      CheckAccess(site, entity, operation, account)
        == if exists g :: SharedGroup(site, account, Author(entity).value, g)
                 && GroupPermits(site, entity, operation, account, PluginFor(site.installed, entity).value.pluginId, g)
           then Ok(Allowed) else Ok(Forbidden)
    ensures PluginFor(site.installed, entity).None? && (exists g :: SharedGroup(site, account, Author(entity).value, g)) ==>
      CheckAccess(site, entity, operation, account) == Err(MissingPlugin)
  {
    GroupPermissionsMeaning(site, entity, operation, account);
    SharedGroupsMeaning(site, account, entity, None);
  }

  /** An operation other than view, download, update and delete is never allowed by the group check. */
  lemma OtherOperationsNeverGranted(site: Site, entity: Entity, operation: string, account: Account)
    requires operation !in {"view", "download", "update", "delete"}
    requires !SpecialCasesFire(site, entity, operation, account, "allowed")
    ensures CheckAccess(site, entity, operation, account) != Ok(Allowed)
  {
    assert operation != "view" && operation != "download" && operation != "update" && operation != "delete";
    forall pluginId, g ensures !GroupPermits(site, entity, operation, account, pluginId, g) {
    }
    assert GroupPermissions(site, entity, operation, account) != Ok(Some(true));
  }

  /** Viewing an unpublished entity through groups needs "view unpublished P entity" in a shared group. */
  lemma UnpublishedNeedsUnpublishedPermission(site: Site, entity: Entity, operation: string, account: Account)
    requires ConsistentGroups(site)
    requires operation == "view" || operation == "download"
    requires !IsPublished(entity)
    requires !SpecialCasesFire(site, entity, operation, account, "forbidden")
    requires !SpecialCasesFire(site, entity, operation, account, "allowed")
    requires CheckAccess(site, entity, operation, account) == Ok(Allowed)
    ensures Author(entity).Some? && PluginFor(site.installed, entity).Some?
    ensures exists g :: (SharedGroup(site, account, Author(entity).value, g)
      && HasPermission(site, g, ViewUnpublishedPermission(PluginFor(site.installed, entity).value.pluginId), account))
  {
    CheckAccessByGroups(site, entity, operation, account);
  }

  /**
   * Viewing a published entity through a group that lacks "view P entity"
   * needs "view own P entity" there, and only works for the entity's owner.
   */
  lemma ViewOwnOnlyForOwner(site: Site, entity: Entity, account: Account)
    requires ConsistentGroups(site)
    requires IsPublished(entity)
    requires !SpecialCasesFire(site, entity, "view", account, "forbidden")
    requires !SpecialCasesFire(site, entity, "view", account, "allowed")
    requires CheckAccess(site, entity, "view", account) == Ok(Allowed)
    requires forall g :: (SharedGroup(site, account, Author(entity).value, g)
      ==> !HasPermission(site, g, ViewPermission(PluginFor(site.installed, entity).value.pluginId), account))
    ensures Author(entity) == Some(account.id)
    ensures exists g :: (SharedGroup(site, account, account.id, g)
      && HasPermission(site, g, ViewOwnPermission(PluginFor(site.installed, entity).value.pluginId), account))
  {
    CheckAccessByGroups(site, entity, "view", account);
  }

  /** With the bypass case installed, an account holding the bypass permission is allowed unless a forbidden case fires. */
  lemma BypassAllowsAll(site: Site, entity: Entity, operation: string, account: Account)
    requires PermissionBypass.Definition in site.definitions
    requires BypassPermission in account.permissions
    requires !SpecialCasesFire(site, entity, operation, account, "forbidden")
    ensures CheckAccess(site, entity, operation, account) == Ok(Allowed)
  {
    PermissionBypass.AppliesToEveryEntityType(entity.typeId);
    AllowedCaseWins(site, entity, operation, account, PermissionBypass.Definition);
  }

  /**
   * With the role privilege case installed, updating a user whose best role
   * outranks the actor's is forbidden, even for an account that may bypass
   * group checks or holds group permissions.
   */
  lemma RolePrivilegeOverridesGroups(site: Site, entity: Entity, account: Account)
    requires RolePrivilegeCase.Definition in site.definitions
    requires entity.typeId == "user"
    requires RolePrivilegeCase.Forbids(site.roles, "update", account.roles, EntityRoles(entity))
    ensures CheckAccess(site, entity, "update", account) == Ok(Forbidden)
  {
    RolePrivilegeCase.AppliesOnlyToUsers(entity.typeId, "forbidden");
    ForbiddenCaseWins(site, entity, "update", account, RolePrivilegeCase.Definition);
  }
}
