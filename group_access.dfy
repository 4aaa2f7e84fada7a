/**
 * The `group_access` Search API processor: the per-item fields it indexes
 * (the author's group ids, the bundle and the author id) and the filter it
 * adds to search queries so that results follow the group permissions.
 */
module GroupAccess {
  import opened OrderedMaps
  import opened Model
  import opened AccessManager
  import opened AccessSpecialCaseManager

  /*
   * ---------------------------------------------------------------------
   * Conditions and their meaning on an indexed document
   * ---------------------------------------------------------------------
   */

  datatype Value = IntV(i: int) | StrV(s: string)

  datatype Operator = Equals | In

  datatype Conjunction = And | Or

  /** A query condition, or a condition group with its conjunction, tags and members. */
  datatype Cond =
    | Condition(field: string, value: Value, op: Operator)
    | ConditionGroup(conjunction: Conjunction, tags: seq<string>, children: seq<Cond>)

  /** The values an indexed item holds, per field id. */
  type Document = map<string, seq<Value>>

  /**
   * Whether a document satisfies a condition. A field holding several values
   * satisfies `=` and `IN` with a single value when one of its values is it.
   */
  predicate Holds(c: Cond, doc: Document)
    decreases c
  {
    match c
    case Condition(field, value, _) => field in doc && value in doc[field]
    case ConditionGroup(conjunction, _, children) =>
      if conjunction == And then forall i :: 0 <= i < |children| ==> Holds(children[i], doc)
      else exists i :: 0 <= i < |children| && Holds(children[i], doc)
  }

  /** What the processor adds to a query: conditions for its root (an AND group), and whether it aborts it. */
  datatype Filter = Filter(conditions: seq<Cond>, abort: bool)

  /** A document is a result of the query when the query is not aborted and every root condition holds. */
  predicate Admits(f: Filter, doc: Document)
  {
    !f.abort && forall i :: 0 <= i < |f.conditions| ==> Holds(f.conditions[i], doc)
  }

  /*
   * ---------------------------------------------------------------------
   * Affected and unaffected datasources
   * ---------------------------------------------------------------------
   */

  /** A datasource of the index, with the entity type of its items when it has one. */
  datatype Datasource = Datasource(id: string, entityTypeId: Option<string>)

  /** The datasource ids of an index are its keys. */
  predicate UniqueDatasourceIds(datasources: seq<Datasource>)
  {
    forall i, j :: 0 <= i < j < |datasources| ==> datasources[i].id != datasources[j].id
  }

  /** A datasource is affected when its entity type is one the installed plugins cover. */
  predicate Affected(site: Site, d: Datasource)
  {
    d.entityTypeId.Some? && IsApplicableEntityType(site, d.entityTypeId.value)
  }

  /** Affected datasource ids grouped by entity type, and the unaffected ids. */
  datatype Partition = Partition(affected: Assoc<string, seq<string>>, unaffected: seq<string>)

  /** The partition built from the datasources seen so far. */
  function Partitioned(site: Site, datasources: seq<Datasource>): Partition
  {
    if datasources == [] then Partition([], [])
    else
      var p := Partitioned(site, datasources[..|datasources| - 1]);
      var d := datasources[|datasources| - 1];
      if Affected(site, d) then
        var t := d.entityTypeId.value;
        Partition(Put(p.affected, t, GetOr(Get(p.affected, t), []) + [d.id]), p.unaffected)
      else Partition(p.affected, p.unaffected + [d.id])
  }

  /** The first loop of `addGroupAccess`. */
  method PartitionDatasources(site: Site, datasources: seq<Datasource>) returns (affected: Assoc<string, seq<string>>, unaffected: seq<string>)
    ensures Partition(affected, unaffected) == Partitioned(site, datasources)
  {
    affected, unaffected := [], [];
    for i := 0 to |datasources|
      invariant Partition(affected, unaffected) == Partitioned(site, datasources[..i])
    {
      assert datasources[..i + 1][..i] == datasources[..i];
      var datasource := datasources[i];
      var entityType := datasource.entityTypeId;
      if entityType.Some? && IsApplicableEntityType(site, entityType.value) {
        var ids := GetOr(Get(affected, entityType.value), []);
        affected := Put(affected, entityType.value, ids + [datasource.id]);
      } else {
        unaffected := unaffected + [datasource.id];
      }
    }
    assert datasources[..|datasources|] == datasources;
  }

  /** An id is unaffected exactly when it is the id of a datasource that is not affected. */
  lemma {:induction false} PartitionUnaffected(site: Site, datasources: seq<Datasource>, id: string)
    ensures id in Partitioned(site, datasources).unaffected <==>
      exists d :: d in datasources && d.id == id && !Affected(site, d)
  {
    if datasources != [] {
      var init := datasources[..|datasources| - 1];
      PartitionUnaffected(site, init, id);
      assert datasources == init + [datasources[|datasources| - 1]];
    }
  }

  /**
   * The affected entry of an entity type lists exactly the ids of the
   * affected datasources of that type, and there is an entry exactly when
   * one exists.
   */
  lemma PartitionAffected(site: Site, datasources: seq<Datasource>, t: string, id: string)
    ensures t in Keys(Partitioned(site, datasources).affected) <==>
      exists d :: d in datasources && Affected(site, d) && d.entityTypeId == Some(t)
    ensures id in GetOr(Get(Partitioned(site, datasources).affected, t), []) <==>
      exists d :: d in datasources && Affected(site, d) && d.entityTypeId == Some(t) && d.id == id
  {
    PartitionAffectedTypes(site, datasources, t);
    PartitionAffectedIds(site, datasources, t, id);
  }

  /** There is an affected entry for an entity type exactly when an affected datasource has that type. */
  lemma {:induction false} PartitionAffectedTypes(site: Site, datasources: seq<Datasource>, t: string)
    ensures t in Keys(Partitioned(site, datasources).affected) <==>
      exists d :: d in datasources && Affected(site, d) && d.entityTypeId == Some(t)
  {
    if datasources != [] {
      PartitionAffectedTypes(site, datasources[..|datasources| - 1], t);
      PartitionStepTypes(site, datasources, t);
      InitLastMembers(datasources);
    }
  }

  /** One more datasource adds an entry for its type when it is affected, and no other entry. */
  lemma PartitionStepTypes(site: Site, datasources: seq<Datasource>, t: string)
    requires datasources != []
    ensures var d := datasources[|datasources| - 1];
      (t in Keys(Partitioned(site, datasources).affected)) <==>
        (t in Keys(Partitioned(site, datasources[..|datasources| - 1]).affected) || (Affected(site, d) && d.entityTypeId == Some(t)))
  {
  }

  /** The affected entry of an entity type lists exactly the ids of the affected datasources of that type. */
  lemma {:induction false} PartitionAffectedIds(site: Site, datasources: seq<Datasource>, t: string, id: string)
    ensures id in GetOr(Get(Partitioned(site, datasources).affected, t), []) <==>
      exists d :: d in datasources && Affected(site, d) && d.entityTypeId == Some(t) && d.id == id
  {
    if datasources != [] {
      PartitionAffectedIds(site, datasources[..|datasources| - 1], t, id);
      PartitionStepIds(site, datasources, t, id);
      InitLastMembers(datasources);
    }
  }

  /** One more datasource adds its id to the entry of its type when it is affected, and nothing else. */
  lemma PartitionStepIds(site: Site, datasources: seq<Datasource>, t: string, id: string)
    requires datasources != []
    ensures var init := datasources[..|datasources| - 1];
      var d := datasources[|datasources| - 1];
      (id in GetOr(Get(Partitioned(site, datasources).affected, t), [])) <==>
        (id in GetOr(Get(Partitioned(site, init).affected, t), []) || (Affected(site, d) && d.entityTypeId == Some(t) && d.id == id))
  {
    var init := datasources[..|datasources| - 1];
    var d := datasources[|datasources| - 1];
    var p := Partitioned(site, init);
    if Affected(site, d) {
      var u := d.entityTypeId.value;
      PutGet(p.affected, u, GetOr(Get(p.affected, u), []) + [d.id], t);
    }
  }

  /** The entity types of the affected entries are stored once each. */
  lemma {:induction false} PartitionUniqueTypes(site: Site, datasources: seq<Datasource>)
    ensures UniqueKeys(Partitioned(site, datasources).affected)
  {
    if datasources != [] {
      var init := datasources[..|datasources| - 1];
      var d := datasources[|datasources| - 1];
      PartitionUniqueTypes(site, init);
      var p := Partitioned(site, init);
      if Affected(site, d) {
        var u := d.entityTypeId.value;
        PutKeepsUnique(p.affected, u, GetOr(Get(p.affected, u), []) + [d.id]);
      }
    }
  }

  /*
   * ---------------------------------------------------------------------
   * The access condition groups
   * ---------------------------------------------------------------------
   */

  /** The condition on the datasource of an item. */
  function DatasourceConditions(ids: seq<string>): (cs: seq<Cond>)
    ensures |cs| == |ids|
    ensures forall i :: 0 <= i < |ids| ==> cs[i] == Condition("search_api_datasource", StrV(ids[i]), Equals)
  {
    if ids == [] then [] else [Condition("search_api_datasource", StrV(ids[0]), Equals)] + DatasourceConditions(ids[1..])
  }

  /**
   * The AND group for a group and a plugin the viewer may view through it:
   * the item lists the group id and has the plugin's bundle, and, when the
   * viewer may only view its own items, the viewer is the author.
   */
  function GroupCondition(g: Group, item: PluginItem, account: Account, viewOwn: bool, viewAny: bool): Cond
  {
    ConditionGroup(And, ["group_access_group"],
      [Condition("group_access_ids", IntV(g.id), In), Condition("group_access_bundle", StrV(CompiledBundle(item)), Equals)]
      + if viewOwn && !viewAny then [Condition("group_access_author", IntV(account.id), Equals)] else [])
  }

  /** The condition group, if any, that one plugin installed on a group contributes for an entity type. */
  function ItemCondition(site: Site, g: Group, item: PluginItem, entityType: string, account: Account): seq<Cond>
  {
    var viewOwn := HasPermission(site, g, ViewOwnPermission(item.pluginId), account);
    var viewAny := HasPermission(site, g, ViewPermission(item.pluginId), account);
    if item.entityTypeId == entityType && (viewOwn || viewAny) then [GroupCondition(g, item, account, viewOwn, viewAny)]
    else []
  }

  /** The innermost loop: over the plugins installed on one group. */
  function ItemConditions(site: Site, g: Group, items: seq<PluginItem>, entityType: string, account: Account): seq<Cond>
  {
    if items == [] then []
    else
      ItemConditions(site, g, items[..|items| - 1], entityType, account)
        + ItemCondition(site, g, items[|items| - 1], entityType, account)
  }

  /** The middle loop: over the viewer's groups. */
  function GroupConditions(site: Site, groups: seq<Group>, entityType: string, account: Account): seq<Cond>
  {
    if groups == [] then []
    else
      var g := groups[|groups| - 1];
      GroupConditions(site, groups[..|groups| - 1], entityType, account)
        + ItemConditions(site, g, InstalledOn(site, g.bundle), entityType, account)
  }

  /** The outer loop: over the affected entity types. */
  function AccessConditions(site: Site, types: seq<string>, groups: seq<Group>, account: Account): seq<Cond>
  {
    if types == [] then []
    else
      AccessConditions(site, types[..|types| - 1], groups, account)
        + GroupConditions(site, groups, types[|types| - 1], account)
  }

  lemma {:induction false} ItemConditionsMembers(site: Site, g: Group, items: seq<PluginItem>, entityType: string, account: Account, c: Cond)
    ensures c in ItemConditions(site, g, items, entityType, account) <==>
      exists item :: item in items && c in ItemCondition(site, g, item, entityType, account)
  {
    if items != [] {
      var init := items[..|items| - 1];
      ItemConditionsMembers(site, g, init, entityType, account, c);
      assert items == init + [items[|items| - 1]];
    }
  }

  lemma {:induction false} GroupConditionsMembers(site: Site, groups: seq<Group>, entityType: string, account: Account, c: Cond)
    ensures c in GroupConditions(site, groups, entityType, account) <==>
      exists g, item :: g in groups && item in InstalledOn(site, g.bundle) && c in ItemCondition(site, g, item, entityType, account)
  {
    if groups != [] {
      var init := groups[..|groups| - 1];
      var last := groups[|groups| - 1];
      GroupConditionsMembers(site, init, entityType, account, c);
      ItemConditionsMembers(site, last, InstalledOn(site, last.bundle), entityType, account, c);
      assert groups == init + [last];
    }
  }

  /**
   * A condition group is emitted exactly for an affected entity type, a
   * viewer group and a plugin of that type installed on the group's type
   * that the viewer may view (own or any) through the group.
   */
  lemma {:induction false} AccessConditionsMembers(site: Site, types: seq<string>, groups: seq<Group>, account: Account, c: Cond)
    ensures c in AccessConditions(site, types, groups, account) <==>
      exists t, g, item :: t in types && g in groups && item in InstalledOn(site, g.bundle) && c in ItemCondition(site, g, item, t, account)
  {
    if types != [] {
      var init := types[..|types| - 1];
      var last := types[|types| - 1];
      AccessConditionsMembers(site, init, groups, account, c);
      GroupConditionsMembers(site, groups, last, account, c);
      assert types == init + [last];
    }
  }

  /*
   * ---------------------------------------------------------------------
   * The filter of addGroupAccess
   * ---------------------------------------------------------------------
   */

  /** The viewer's groups, keyed by id, in membership order. */
  function ViewerGroups(site: Site, account: Account): seq<Group>
  {
    Values(UserGroups(MembershipsOf(site, account.id), None))
  }

  /** The access condition groups for the affected entity types. */
  function AccessGroups(site: Site, datasources: seq<Datasource>, account: Account): seq<Cond>
  {
    AccessConditions(site, Keys(Partitioned(site, datasources).affected), ViewerGroups(site, account), account)
  }

  /**
   * The filter `addGroupAccess` adds, as written: with unaffected datasources
   * an OR of their datasource conditions and an OR of the access groups;
   * without them the access groups themselves on the query's root, and an
   * abort when there is no datasource at all.
   */
  function CompiledFilter(site: Site, datasources: seq<Datasource>, account: Account): Filter
  {
    if BypassPermission in account.permissions then Filter([], false)
    else
      var p := Partitioned(site, datasources);
      var access := AccessGroups(site, datasources, account);
      if p.unaffected != [] then
        Filter([ConditionGroup(Or, ["group_access"], DatasourceConditions(p.unaffected) + [ConditionGroup(Or, [], access)])], false)
      else if p.affected == [] then Filter([], true)
      else Filter(access, false)
  }

  /**
   * The filter the comments of `addGroupAccess` describe: without unaffected
   * datasources the access groups are still alternatives (one OR group), and
   * a viewer with no access group sees nothing.
   */
  function CorrectedFilter(site: Site, datasources: seq<Datasource>, account: Account): Filter
  {
    if BypassPermission in account.permissions then Filter([], false)
    else
      var p := Partitioned(site, datasources);
      var access := AccessGroups(site, datasources, account);
      if p.unaffected != [] then
        Filter([ConditionGroup(Or, ["group_access"], DatasourceConditions(p.unaffected) + [ConditionGroup(Or, [], access)])], false)
      else if access == [] then Filter([], true)
      else Filter([ConditionGroup(Or, ["group_access"], access)], false)
  }

  /** A search query: its options and the conditions and abort flag the processor sets. */
  class Query {
    const bypassAccess: bool
    const accessAccount: AccountOption
    var conditions: seq<Cond>
    var aborted: bool

    constructor (bypassAccess: bool, accessAccount: AccountOption)
      ensures this.bypassAccess == bypassAccess && this.accessAccount == accessAccount
      ensures conditions == [] && !aborted
    {
      this.bypassAccess := bypassAccess;
      this.accessAccount := accessAccount;
      conditions := [];
      aborted := false;
    }
  }

  /** `addGroupAccess`: adds the compiled filter to the query. */
  method AddGroupAccess(query: Query, site: Site, datasources: seq<Datasource>, account: Account)
    modifies query
    ensures query.conditions == old(query.conditions) + CompiledFilter(site, datasources, account).conditions
    ensures query.aborted == (old(query.aborted) || CompiledFilter(site, datasources, account).abort)
  {
    if BypassPermission in account.permissions {
      return;
    }
    var affected, unaffected := PartitionDatasources(site, datasources);
    var outer: seq<Cond> := [];
    if unaffected != [] {
      outer := DatasourcesLoop(unaffected);
    }
    if affected == [] {
      if unaffected != [] {
        query.conditions := query.conditions + [ConditionGroup(Or, ["group_access"], outer + [ConditionGroup(Or, [], [])])];
      } else {
        query.aborted := true;
      }
      return;
    }
    var userGroups := GetUserGroups(site, account.id, None);
    var access := AccessGroupsLoop(site, Keys(affected), Values(userGroups), account);
    if unaffected != [] {
      query.conditions := query.conditions + [ConditionGroup(Or, ["group_access"], outer + [ConditionGroup(Or, [], access)])];
    } else {
      query.conditions := query.conditions + access;
    }
  }

  /** The loop adding one datasource condition per unaffected datasource to the outer OR group. */
  method DatasourcesLoop(unaffected: seq<string>) returns (outer: seq<Cond>)
    ensures outer == DatasourceConditions(unaffected)
  {
    outer := [];
    for i := 0 to |unaffected|
      invariant outer == DatasourceConditions(unaffected[..i])
    {
      assert DatasourceConditions(unaffected[..i + 1]) == DatasourceConditions(unaffected[..i]) + [Condition("search_api_datasource", StrV(unaffected[i]), Equals)];
      outer := outer + [Condition("search_api_datasource", StrV(unaffected[i]), Equals)];
    }
    assert unaffected[..|unaffected|] == unaffected;
  }

  /** The three nested loops of `addGroupAccess` that collect the access groups: the outer one, over the affected entity types. */
  method AccessGroupsLoop(site: Site, types: seq<string>, groups: seq<Group>, account: Account) returns (access: seq<Cond>)
    ensures access == AccessConditions(site, types, groups, account)
  {
    access := [];
    for i := 0 to |types|
      invariant access == AccessConditions(site, types[..i], groups, account)
    {
      assert types[..i + 1][..i] == types[..i];
      var forType := GroupsLoop(site, groups, types[i], account);
      access := access + forType;
    }
    assert types[..|types|] == types;
  }

  /** The middle loop, over the viewer's groups. */
  method GroupsLoop(site: Site, groups: seq<Group>, entityType: string, account: Account) returns (access: seq<Cond>)
    ensures access == GroupConditions(site, groups, entityType, account)
  {
    access := [];
    for j := 0 to |groups|
      invariant access == GroupConditions(site, groups[..j], entityType, account)
    {
      assert groups[..j + 1][..j] == groups[..j];
      var group := groups[j];
      var plugins := InstalledOn(site, group.bundle);
      var forGroup := PluginsLoop(site, group, plugins, entityType, account);
      access := access + forGroup;
    }
    assert groups[..|groups|] == groups;
  }

  /** The inner loop, over the plugins installed on a group's type. */
  method PluginsLoop(site: Site, group: Group, plugins: seq<PluginItem>, entityType: string, account: Account) returns (access: seq<Cond>)
    ensures access == ItemConditions(site, group, plugins, entityType, account)
  {
    access := [];
    for k := 0 to |plugins|
      invariant access == ItemConditions(site, group, plugins[..k], entityType, account)
    {
      assert plugins[..k + 1][..k] == plugins[..k];
      var item := plugins[k];
      assert ItemConditions(site, group, plugins[..k + 1], entityType, account)
        == ItemConditions(site, group, plugins[..k], entityType, account) + ItemCondition(site, group, item, entityType, account);
      if item.entityTypeId == entityType {
        var pluginId := item.pluginId;
        var viewOwn := HasPermission(site, group, ViewOwnPermission(pluginId), account);
        var viewAny := HasPermission(site, group, ViewPermission(pluginId), account);
        if viewOwn || viewAny {
          var bundle := if Truthy(item.entityBundle) then item.entityBundle.value else item.entityTypeId;
          var groupConditions := [Condition("group_access_ids", IntV(group.id), In), Condition("group_access_bundle", StrV(bundle), Equals)];
          if viewOwn && !viewAny {
            groupConditions := groupConditions + [Condition("group_access_author", IntV(account.id), Equals)];
          }
          assert ConditionGroup(And, ["group_access_group"], groupConditions) == GroupCondition(group, item, account, viewOwn, viewAny) by {
            if !(viewOwn && !viewAny) {
              assert groupConditions + [] == groupConditions;
            }
          }
          access := access + [ConditionGroup(And, ["group_access_group"], groupConditions)];
        }
      }
    }
    assert plugins[..|plugins|] == plugins;
  }

  /*
   * ---------------------------------------------------------------------
   * addFieldValues
   * ---------------------------------------------------------------------
   */

  /** The property paths the processor defines and indexes. */
  const IdsProperty := "search_api_group_access_ids"
  const BundleProperty := "search_api_group_access_bundle"
  const AuthorProperty := "search_api_group_access_author"

  /** A field of an indexed item: its field id, the datasource and property path it indexes, and its values. */
  datatype Field = Field(id: string, datasourceId: Option<string>, propertyPath: string, values: seq<Value>)

  /** `addValue` of each value, on a field that indexes the datasource-independent property `path`. */
  function AddedTo(f: Field, path: string, vals: seq<Value>): Field
  {
    if f.datasourceId.None? && f.propertyPath == path then f.(values := f.values + vals) else f
  }

  /** Every field `filterForPropertyPath(fields, NULL, path)` keeps gets the values appended. */
  function WithValues(fields: seq<Field>, path: string, vals: seq<Value>): (r: seq<Field>)
    ensures |r| == |fields|
    ensures forall i :: 0 <= i < |fields| ==> r[i] == AddedTo(fields[i], path, vals)
  {
    if fields == [] then [] else [AddedTo(fields[0], path, vals)] + WithValues(fields[1..], path, vals)
  }

  /** Group ids as indexed integer values. */
  function IdValues(ids: seq<GroupId>): (vs: seq<Value>)
    ensures |vs| == |ids|
    ensures forall i :: 0 <= i < |ids| ==> vs[i] == IntV(ids[i])
  {
    if ids == [] then [] else [IntV(ids[0])] + IdValues(ids[1..])
  }

  /** The ids of the groups of a user, as `getUserGroups($author)` lists them. */
  function AuthorGroupIds(site: Site, author: UserId): seq<Value>
  {
    IdValues(Keys(UserGroups(MembershipsOf(site, author), None)))
  }

  /** An item being indexed: the entity type of its datasource, its original object if that is an entity, and its fields. */
  class IndexItem {
    const entityTypeId: Option<string>
    const original: Option<Entity>
    var fields: seq<Field>

    constructor (entityTypeId: Option<string>, original: Option<Entity>, fields: seq<Field>)
      ensures this.entityTypeId == entityTypeId && this.original == original && this.fields == fields
    {
      this.entityTypeId := entityTypeId;
      this.original := original;
      this.fields := fields;
    }
  }

  /** The fields after `addFieldValues`. */
  function IndexedFields(site: Site, entityTypeId: Option<string>, original: Option<Entity>, fields: seq<Field>): seq<Field>
  {
    if !(entityTypeId.Some? && IsApplicableEntityType(site, entityTypeId.value)) || original.None? then fields
    else
      var entity := original.value;
      var author := Author(entity);
      var withIds := if author.Some? then WithValues(fields, IdsProperty, AuthorGroupIds(site, author.value)) else fields;
      var withBundle := WithValues(withIds, BundleProperty, [StrV(entity.bundle)]);
      if author.Some? then WithValues(withBundle, AuthorProperty, [IntV(author.value)]) else withBundle
  }

  /** One of the field loops of `addFieldValues`. */
  method AddToFields(item: IndexItem, path: string, vals: seq<Value>)
    modifies item
    ensures item.fields == WithValues(old(item.fields), path, vals)
  {
    ghost var before := item.fields;
    for i := 0 to |item.fields|
      invariant |item.fields| == |before|
      invariant forall j :: 0 <= j < i ==> item.fields[j] == AddedTo(before[j], path, vals)
      invariant forall j :: i <= j < |before| ==> item.fields[j] == before[j]
    {
      var field := item.fields[i];
      if field.datasourceId.None? && field.propertyPath == path {
        item.fields := item.fields[i := field.(values := field.values + vals)];
      }
    }
  }

  /** `addFieldValues`. */
  method AddFieldValues(item: IndexItem, site: Site)
    modifies item
    ensures item.fields == IndexedFields(site, item.entityTypeId, item.original, old(item.fields))
  {
    var entityTypeId := item.entityTypeId;
    if !(entityTypeId.Some? && IsApplicableEntityType(site, entityTypeId.value)) {
      return;
    }
    if item.original.None? {
      return;
    }
    var entity := item.original.value;
    var author := Author(entity);
    if author.Some? {
      var groups := GetUserGroups(site, author.value, None);
      AddToFields(item, IdsProperty, IdValues(Keys(groups)));
    }
    AddToFields(item, BundleProperty, [StrV(entity.bundle)]);
    if author.Some? {
      AddToFields(item, AuthorProperty, [IntV(author.value)]);
    }
  }

  /** The values `addFieldValues` appends to a field indexing `path` for an entity. */
  function PropertyValues(site: Site, entity: Entity, path: string): seq<Value>
  {
    var author := Author(entity);
    if path == IdsProperty then (if author.Some? then AuthorGroupIds(site, author.value) else [])
    else if path == BundleProperty then [StrV(entity.bundle)]
    else if path == AuthorProperty then (if author.Some? then [IntV(author.value)] else [])
    else []
  }

  /**
   * For an entity of an applicable type, the ids field gets the ids of the
   * author's groups, the bundle field the bundle and the author field the
   * author id (nothing for an entity without author); every other field is
   * left as it was. Items of other types, or that are not entities, are not
   * changed.
   */
  lemma IndexedFieldsValues(site: Site, entityTypeId: Option<string>, original: Option<Entity>, fields: seq<Field>)
    ensures |IndexedFields(site, entityTypeId, original, fields)| == |fields|
    ensures !(entityTypeId.Some? && IsApplicableEntityType(site, entityTypeId.value)) || original.None? ==>
      IndexedFields(site, entityTypeId, original, fields) == fields
    ensures (entityTypeId.Some? && IsApplicableEntityType(site, entityTypeId.value)) && original.Some? ==>
      forall i :: 0 <= i < |fields| ==>
        IndexedFields(site, entityTypeId, original, fields)[i]
          == if fields[i].datasourceId.None? then
               fields[i].(values := fields[i].values + PropertyValues(site, original.value, fields[i].propertyPath))
             else fields[i]
  {
    if (entityTypeId.Some? && IsApplicableEntityType(site, entityTypeId.value)) && original.Some? {
      var entity := original.value;
      var author := Author(entity);
      var withIds := if author.Some? then WithValues(fields, IdsProperty, AuthorGroupIds(site, author.value)) else fields;
      var withBundle := WithValues(withIds, BundleProperty, [StrV(entity.bundle)]);
      var r := if author.Some? then WithValues(withBundle, AuthorProperty, [IntV(author.value)]) else withBundle;
      assert r == IndexedFields(site, entityTypeId, original, fields);
      forall i | 0 <= i < |fields|
        ensures r[i] == if fields[i].datasourceId.None? then
            fields[i].(values := fields[i].values + PropertyValues(site, entity, fields[i].propertyPath))
          else fields[i]
      {
        IndexedField(site, entity, fields[i]);
      }
    }
  }

  /** The three field loops, seen from one field. */
  lemma IndexedField(site: Site, entity: Entity, f: Field)
    ensures var author := Author(entity);
      var withIds := if author.Some? then AddedTo(f, IdsProperty, AuthorGroupIds(site, author.value)) else f;
      var withBundle := AddedTo(withIds, BundleProperty, [StrV(entity.bundle)]);
      var r := if author.Some? then AddedTo(withBundle, AuthorProperty, [IntV(author.value)]) else withBundle;
      r == if f.datasourceId.None? then f.(values := f.values + PropertyValues(site, entity, f.propertyPath)) else f
  {
    if f.datasourceId.None? {
      assert f.values + [] == f.values;
    }
  }

  /*
   * ---------------------------------------------------------------------
   * The filter against the per-entity decision
   * ---------------------------------------------------------------------
   */

  /**
   * The document of an entity indexed from datasource `d`: the fields the
   * processor fills, under the field ids the query conditions name (the
   * index derives a field id from a property path by dropping its
   * "search_api_" prefix), and the item's datasource.
   */
  predicate IndexedDocument(site: Site, d: Datasource, e: Entity, doc: Document)
  {
    && "search_api_datasource" in doc && doc["search_api_datasource"] == [StrV(d.id)]
    && "group_access_ids" in doc && doc["group_access_ids"] == PropertyValues(site, e, IdsProperty)
    && "group_access_bundle" in doc && doc["group_access_bundle"] == PropertyValues(site, e, BundleProperty)
    && "group_access_author" in doc && doc["group_access_author"] == PropertyValues(site, e, AuthorProperty)
  }

  /** Some condition of the list holds. */
  predicate AnyHolds(cs: seq<Cond>, doc: Document)
  {
    exists i :: 0 <= i < |cs| && Holds(cs[i], doc)
  }

  /** An access condition group holds when the item is in the group, has the plugin's bundle and, for "view own" only, is the viewer's. */
  lemma GroupConditionHolds(g: Group, item: PluginItem, account: Account, viewOwn: bool, viewAny: bool, doc: Document)
    ensures Holds(GroupCondition(g, item, account, viewOwn, viewAny), doc) <==>
      && "group_access_ids" in doc && IntV(g.id) in doc["group_access_ids"]
      && "group_access_bundle" in doc && StrV(CompiledBundle(item)) in doc["group_access_bundle"]
      && (viewOwn && !viewAny ==> "group_access_author" in doc && IntV(account.id) in doc["group_access_author"])
  {
    var children := GroupCondition(g, item, account, viewOwn, viewAny).children;
    assert children[0] == Condition("group_access_ids", IntV(g.id), In);
    assert children[1] == Condition("group_access_bundle", StrV(CompiledBundle(item)), Equals);
    if viewOwn && !viewAny {
      assert children[2] == Condition("group_access_author", IntV(account.id), Equals);
    } else {
      assert |children| == 2;
    }
  }

  lemma IdValuesMembers(ids: seq<GroupId>, x: GroupId)
    ensures IntV(x) in IdValues(ids) <==> x in ids
  {
    var vs := IdValues(ids);
    if IntV(x) in vs {
      var i :| 0 <= i < |vs| && vs[i] == IntV(x);
      assert ids[i] == x;
    }
    if x in ids {
      var i :| 0 <= i < |ids| && ids[i] == x;
      assert vs[i] == IntV(x);
    }
  }

  /** With consistent group records, the viewer's groups are exactly its memberships. */
  lemma ViewerGroupsMembers(site: Site, account: Account, g: Group)
    requires ConsistentGroups(site)
    ensures g in ViewerGroups(site, account) <==> g in MembershipsOf(site, account.id)
  {
    var memberships := MembershipsOf(site, account.id);
    var a := UserGroups(memberships, None);
    var groups := ViewerGroups(site, account);
    UserGroupsShape(memberships, None);
    if g in groups {
      var i :| 0 <= i < |groups| && groups[i] == g;
      assert a[i] in a;
    }
    if g in memberships {
      assert KeepsGroup(g, None);
      assert g.id in Keys(a);
      var i :| 0 <= i < |a| && a[i].0 == g.id;
      assert a[i] in a;
      assert groups[i] == g;
    }
  }

  /** Two datasources of an index with the same id are the same datasource. */
  lemma SameIdSameDatasource(datasources: seq<Datasource>, d1: Datasource, d2: Datasource)
    requires UniqueDatasourceIds(datasources)
    requires d1 in datasources && d2 in datasources && d1.id == d2.id
    ensures d1 == d2
  {
    var a :| 0 <= a < |datasources| && datasources[a] == d1;
    var b :| 0 <= b < |datasources| && datasources[b] == d2;
    assert a == b;
  }

  /**
   * An item of an affected datasource passes the corrected filter exactly
   * when one of the access condition groups holds for it.
   */
  lemma CorrectedFilterIsAccessGroups(site: Site, datasources: seq<Datasource>, d: Datasource, account: Account, doc: Document)
    requires UniqueDatasourceIds(datasources)
    requires d in datasources && Affected(site, d)
    requires BypassPermission !in account.permissions
    requires "search_api_datasource" in doc && doc["search_api_datasource"] == [StrV(d.id)]
    ensures Admits(CorrectedFilter(site, datasources, account), doc) <==> AnyHolds(AccessGroups(site, datasources, account), doc)
  {
    var p := Partitioned(site, datasources);
    var access := AccessGroups(site, datasources, account);
    var f := CorrectedFilter(site, datasources, account);
    if p.unaffected != [] {
      forall d2 | d2 in datasources && d2.id == d.id ensures Affected(site, d2) {
        SameIdSameDatasource(datasources, d, d2);
      }
      PartitionUnaffected(site, datasources, d.id);
      var children := DatasourceConditions(p.unaffected) + [ConditionGroup(Or, [], access)];
      assert f == Filter([ConditionGroup(Or, ["group_access"], children)], false);
      AdmitsOne(ConditionGroup(Or, ["group_access"], children), doc);
      OrHolds(["group_access"], children, doc);
      AccessBranchDecides(p.unaffected, access, doc);
    } else if access != [] {
      assert f == Filter([ConditionGroup(Or, ["group_access"], access)], false);
      AdmitsOne(ConditionGroup(Or, ["group_access"], access), doc);
      OrHolds(["group_access"], access, doc);
    }
  }

  /** When the item's datasource is not among the unaffected ones, only the OR of the access groups can hold. */
  lemma AccessBranchDecides(unaffected: seq<string>, access: seq<Cond>, doc: Document)
    requires "search_api_datasource" in doc && forall id :: id in unaffected ==> StrV(id) !in doc["search_api_datasource"]
    ensures AnyHolds(DatasourceConditions(unaffected) + [ConditionGroup(Or, [], access)], doc) <==> AnyHolds(access, doc)
  {
    var ds := DatasourceConditions(unaffected);
    var children := ds + [ConditionGroup(Or, [], access)];
    OrHolds([], access, doc);
    forall k | 0 <= k < |ds| ensures !Holds(children[k], doc) {
      assert children[k] == Condition("search_api_datasource", StrV(unaffected[k]), Equals);
      assert unaffected[k] in unaffected;
    }
    assert children[|ds|] == ConditionGroup(Or, [], access);
    if AnyHolds(children, doc) {
      var k :| 0 <= k < |children| && Holds(children[k], doc);
      assert k == |ds|;
    }
  }

  lemma OrHolds(tags: seq<string>, cs: seq<Cond>, doc: Document)
    ensures Holds(ConditionGroup(Or, tags, cs), doc) <==> AnyHolds(cs, doc)
  {
  }

  lemma AdmitsOne(c: Cond, doc: Document)
    ensures Admits(Filter([c], false), doc) <==> Holds(c, doc)
  {
    assert [c][0] == c;
  }

  /**
   * With the published entity's plugin `p` the only plugin of the entity's
   * bundle installed on the viewer's group types, and installed on every
   * viewer group that grants viewing it, some access condition group holds
   * for the indexed entity exactly when a group shared by the viewer and the
   * author grants "view" to the per-entity decision.
   */
  lemma AccessGroupsArePermits(site: Site, e: Entity, account: Account, p: PluginItem, types: seq<string>, d: Datasource, doc: Document)
    requires ConsistentGroups(site)
    requires IsPublished(e) && Author(e).Some?
    requires p.entityTypeId in types && CompiledBundle(p) == e.bundle
    requires forall g, item :: (g in MembershipsOf(site, account.id) && item in InstalledOn(site, g.bundle) && CompiledBundle(item) == e.bundle
      ==> item.pluginId == p.pluginId)
    requires forall g :: (g in MembershipsOf(site, account.id)
      && (HasPermission(site, g, ViewPermission(p.pluginId), account) || HasPermission(site, g, ViewOwnPermission(p.pluginId), account))
      ==> p in InstalledOn(site, g.bundle))
    requires IndexedDocument(site, d, e, doc)
    ensures AnyHolds(AccessConditions(site, types, ViewerGroups(site, account), account), doc) <==>
      exists g :: SharedGroup(site, account, Author(e).value, g) && GroupPermits(site, e, "view", account, p.pluginId, g)
  {
    var author := Author(e).value;
    var groups := ViewerGroups(site, account);
    var access := AccessConditions(site, types, groups, account);
    if AnyHolds(access, doc) {
      var g := SomeHoldingConditionPermits(site, e, account, p, types, d, doc);
      assert SharedGroup(site, account, author, g) && GroupPermits(site, e, "view", account, p.pluginId, g);
    }
    if exists g :: SharedGroup(site, account, author, g) && GroupPermits(site, e, "view", account, p.pluginId, g) {
      var g :| SharedGroup(site, account, author, g) && GroupPermits(site, e, "view", account, p.pluginId, g);
      PermittingGroupAdmits(site, e, account, p, types, g, d, doc);
    }
  }

  /** A shared group granting "view" makes one of the access condition groups hold. */
  lemma PermittingGroupAdmits(site: Site, e: Entity, account: Account, p: PluginItem, types: seq<string>, g: Group, d: Datasource, doc: Document)
    requires ConsistentGroups(site)
    requires IsPublished(e) && Author(e).Some?
    requires p.entityTypeId in types && CompiledBundle(p) == e.bundle
    requires forall g :: (g in MembershipsOf(site, account.id)
      && (HasPermission(site, g, ViewPermission(p.pluginId), account) || HasPermission(site, g, ViewOwnPermission(p.pluginId), account))
      ==> p in InstalledOn(site, g.bundle))
    requires IndexedDocument(site, d, e, doc)
    requires SharedGroup(site, account, Author(e).value, g) && GroupPermits(site, e, "view", account, p.pluginId, g)
    ensures AnyHolds(AccessConditions(site, types, ViewerGroups(site, account), account), doc)
  {
    var groups := ViewerGroups(site, account);
    var access := AccessConditions(site, types, groups, account);
    var c := PermittingGroupHolds(site, e, account, p, g, d, doc);
    AccessConditionIn(site, types, groups, account, p.entityTypeId, g, p, c);
    var i :| 0 <= i < |access| && access[i] == c;
  }

  /** A condition a plugin on a group contributes for a listed type is among the access condition groups. */
  lemma AccessConditionIn(site: Site, types: seq<string>, groups: seq<Group>, account: Account, t: string, g: Group, item: PluginItem, c: Cond)
    requires t in types && g in groups && item in InstalledOn(site, g.bundle) && c in ItemCondition(site, g, item, t, account)
    ensures c in AccessConditions(site, types, groups, account)
  {
    AccessConditionsMembers(site, types, groups, account, c);
  }

  /** The witness of a holding access condition group: a shared group that grants "view". */
  lemma SomeHoldingConditionPermits(site: Site, e: Entity, account: Account, p: PluginItem, types: seq<string>, d: Datasource, doc: Document)
    returns (g: Group)
    requires ConsistentGroups(site)
    requires IsPublished(e) && Author(e).Some?
    requires forall g, item :: (g in MembershipsOf(site, account.id) && item in InstalledOn(site, g.bundle) && CompiledBundle(item) == e.bundle
      ==> item.pluginId == p.pluginId)
    requires IndexedDocument(site, d, e, doc)
    requires AnyHolds(AccessConditions(site, types, ViewerGroups(site, account), account), doc)
    ensures SharedGroup(site, account, Author(e).value, g) && GroupPermits(site, e, "view", account, p.pluginId, g)
  {
    var groups := ViewerGroups(site, account);
    var access := AccessConditions(site, types, groups, account);
    var i :| 0 <= i < |access| && Holds(access[i], doc);
    AccessConditionsMembers(site, types, groups, account, access[i]);
    var t, g', item :| t in types && g' in groups && item in InstalledOn(site, g'.bundle) && access[i] in ItemCondition(site, g', item, t, account);
    HoldingConditionPermits(site, e, account, p, t, g', item, access[i], d, doc);
    g := g';
  }

  /** A holding access condition group comes from a group shared with the author that grants "view". */
  lemma HoldingConditionPermits(site: Site, e: Entity, account: Account, p: PluginItem, t: string, g: Group, item: PluginItem, c: Cond, d: Datasource, doc: Document)
    requires ConsistentGroups(site)
    requires IsPublished(e) && Author(e).Some?
    requires forall g, item :: (g in MembershipsOf(site, account.id) && item in InstalledOn(site, g.bundle) && CompiledBundle(item) == e.bundle
      ==> item.pluginId == p.pluginId)
    requires IndexedDocument(site, d, e, doc)
    requires g in ViewerGroups(site, account) && item in InstalledOn(site, g.bundle)
    requires c in ItemCondition(site, g, item, t, account) && Holds(c, doc)
    ensures SharedGroup(site, account, Author(e).value, g) && GroupPermits(site, e, "view", account, p.pluginId, g)
  {
    var viewOwn := HasPermission(site, g, ViewOwnPermission(item.pluginId), account);
    var viewAny := HasPermission(site, g, ViewPermission(item.pluginId), account);
    assert c == GroupCondition(g, item, account, viewOwn, viewAny);
    ViewerGroupsMembers(site, account, g);
    HoldingGroupConditionOfAuthor(site, e, account, item, g, viewOwn, viewAny, d, doc);
    assert item.pluginId == p.pluginId;
    PublishedViewPermits(site, e, account, p.pluginId, g);
  }

  /** A condition group holding for an indexed entity names a group of its author, its bundle and, for "view own" only, the viewer as its author. */
  lemma HoldingGroupConditionOfAuthor(site: Site, e: Entity, account: Account, item: PluginItem, g: Group, viewOwn: bool, viewAny: bool, d: Datasource, doc: Document)
    requires ConsistentGroups(site)
    requires Author(e).Some?
    requires IndexedDocument(site, d, e, doc)
    requires Holds(GroupCondition(g, item, account, viewOwn, viewAny), doc)
    requires g in MembershipsOf(site, account.id)
    ensures g in MembershipsOf(site, Author(e).value)
    ensures CompiledBundle(item) == e.bundle
    ensures viewOwn && !viewAny ==> Author(e).value == account.id
  {
    var author := Author(e).value;
    var authorIds := Keys(UserGroups(MembershipsOf(site, author), None));
    UserGroupsShape(MembershipsOf(site, author), None);
    GroupConditionHolds(g, item, account, viewOwn, viewAny, doc);
    IdValuesMembers(authorIds, g.id);
    var g2 :| g2 in MembershipsOf(site, author) && g2.id == g.id && KeepsGroup(g2, None);
    assert StrV(CompiledBundle(item)) in [StrV(e.bundle)];
    if viewOwn && !viewAny {
      assert IntV(account.id) in [IntV(author)];
    }
  }

  /** For a published entity with an author, a group grants "view" through "view any" or, to the author, "view own". */
  lemma PublishedViewPermits(site: Site, e: Entity, account: Account, pluginId: string, g: Group)
    requires IsPublished(e) && Author(e).Some?
    ensures GroupPermits(site, e, "view", account, pluginId, g) <==>
      HasPermission(site, g, ViewPermission(pluginId), account)
      || (Author(e).value == account.id && HasPermission(site, g, ViewOwnPermission(pluginId), account))
  {
  }

  /** A shared group granting "view" contributes an access condition group that holds for the entity. */
  lemma PermittingGroupHolds(site: Site, e: Entity, account: Account, p: PluginItem, g: Group, d: Datasource, doc: Document) returns (c: Cond)
    requires ConsistentGroups(site)
    requires IsPublished(e) && Author(e).Some?
    requires CompiledBundle(p) == e.bundle
    requires forall g :: (g in MembershipsOf(site, account.id)
      && (HasPermission(site, g, ViewPermission(p.pluginId), account) || HasPermission(site, g, ViewOwnPermission(p.pluginId), account))
      ==> p in InstalledOn(site, g.bundle))
    requires IndexedDocument(site, d, e, doc)
    requires SharedGroup(site, account, Author(e).value, g) && GroupPermits(site, e, "view", account, p.pluginId, g)
    ensures g in ViewerGroups(site, account) && p in InstalledOn(site, g.bundle)
    ensures c in ItemCondition(site, g, p, p.entityTypeId, account) && Holds(c, doc)
  {
    var viewOwn := HasPermission(site, g, ViewOwnPermission(p.pluginId), account);
    var viewAny := HasPermission(site, g, ViewPermission(p.pluginId), account);
    ViewerGroupsMembers(site, account, g);
    PublishedViewPermits(site, e, account, p.pluginId, g);
    c := GroupCondition(g, p, account, viewOwn, viewAny);
    AuthorGroupConditionHolds(site, e, account, p, g, viewOwn, viewAny, d, doc);
  }

  /** The condition group of a group of the author holds for the author's indexed entity of the plugin's bundle. */
  lemma AuthorGroupConditionHolds(site: Site, e: Entity, account: Account, p: PluginItem, g: Group, viewOwn: bool, viewAny: bool, d: Datasource, doc: Document)
    requires Author(e).Some? && g in MembershipsOf(site, Author(e).value)
    requires CompiledBundle(p) == e.bundle
    requires viewOwn && !viewAny ==> Author(e).value == account.id
    requires IndexedDocument(site, d, e, doc)
    ensures Holds(GroupCondition(g, p, account, viewOwn, viewAny), doc)
  {
    var author := Author(e).value;
    var authorIds := Keys(UserGroups(MembershipsOf(site, author), None));
    UserGroupsShape(MembershipsOf(site, author), None);
    GroupConditionHolds(g, p, account, viewOwn, viewAny, doc);
    assert KeepsGroup(g, None);
    IdValuesMembers(authorIds, g.id);
    assert IntV(g.id) in doc["group_access_ids"];
    assert StrV(CompiledBundle(p)) in doc["group_access_bundle"] by {
      assert doc["group_access_bundle"] == [StrV(e.bundle)];
    }
    if viewOwn && !viewAny {
      assert doc["group_access_author"] == [IntV(author)];
    }
  }

  /**
   * The corrected filter agrees with the per-entity decision for "view": a
   * published item of an applicable entity type passes it exactly when
   * `checkAccess($entity, 'view', $account)` allows. The carve-outs: no
   * forbidden special case fires, the bypass permission is the only allowed
   * case that fires, the entity's plugin compiles to its bundle and is the
   * only plugin of that bundle name on the viewer's group types, and it is
   * installed on every viewer group that grants viewing it.
   */
  lemma SearchFilterAgreesWithCheckAccess(site: Site, datasources: seq<Datasource>, d: Datasource, e: Entity, account: Account, doc: Document)
    requires ConsistentGroups(site)
    requires UniqueDatasourceIds(datasources)
    requires d in datasources && d.entityTypeId == Some(e.typeId) && IsApplicableEntityType(site, e.typeId)
    requires IsPublished(e) && Author(e).Some?
    requires !SpecialCasesFire(site, e, "view", account, "forbidden")
    requires SpecialCasesFire(site, e, "view", account, "allowed") <==> BypassPermission in account.permissions
    requires PluginFor(site.installed, e).Some? && CompiledBundle(PluginFor(site.installed, e).value) == e.bundle
    requires forall g, item :: (g in MembershipsOf(site, account.id) && item in InstalledOn(site, g.bundle) && CompiledBundle(item) == e.bundle
      ==> item.pluginId == PluginFor(site.installed, e).value.pluginId)
    requires forall g :: (g in MembershipsOf(site, account.id)
      && (HasPermission(site, g, ViewPermission(PluginFor(site.installed, e).value.pluginId), account)
          || HasPermission(site, g, ViewOwnPermission(PluginFor(site.installed, e).value.pluginId), account))
      ==> PluginFor(site.installed, e).value in InstalledOn(site, g.bundle))
    requires IndexedDocument(site, d, e, doc)
    ensures Admits(CorrectedFilter(site, datasources, account), doc) <==> CheckAccess(site, e, "view", account) == Ok(Allowed)
  {
    if BypassPermission !in account.permissions {
      var p := PluginFor(site.installed, e).value;
      PluginForFirstMatch(site.installed, e);
      assert p.entityTypeId == e.typeId;
      PartitionAffected(site, datasources, e.typeId, d.id);
      CorrectedFilterIsAccessGroups(site, datasources, d, account, doc);
      AccessGroupsArePermits(site, e, account, p, Keys(Partitioned(site, datasources).affected), d, doc);
      CheckAccessByGroups(site, e, "view", account);
    }
  }

  /** Every datasource lands on one side, so the partition is empty only for an index without datasources. */
  lemma PartitionEmpty(site: Site, datasources: seq<Datasource>)
    ensures Partitioned(site, datasources).affected == [] && Partitioned(site, datasources).unaffected == [] <==> datasources == []
  {
    if datasources != [] {
      var d := datasources[|datasources| - 1];
      var p := Partitioned(site, datasources[..|datasources| - 1]);
      if Affected(site, d) {
        var t := d.entityTypeId.value;
        assert t in Keys(Put(p.affected, t, GetOr(Get(p.affected, t), []) + [d.id]));
      }
    }
  }

  /** The processor aborts a query exactly when the viewer lacks the bypass permission and the index has no datasource. */
  lemma AbortsOnlyWithoutDatasources(site: Site, datasources: seq<Datasource>, account: Account)
    ensures CompiledFilter(site, datasources, account).abort <==> BypassPermission !in account.permissions && datasources == []
  {
    PartitionEmpty(site, datasources);
  }

  /** An item of an unaffected datasource passes the filter, whatever the viewer's groups. */
  lemma UnaffectedItemsPass(site: Site, datasources: seq<Datasource>, d: Datasource, account: Account, doc: Document)
    requires d in datasources && !Affected(site, d)
    requires "search_api_datasource" in doc && doc["search_api_datasource"] == [StrV(d.id)]
    ensures Admits(CompiledFilter(site, datasources, account), doc)
  {
    if BypassPermission !in account.permissions {
      var p := Partitioned(site, datasources);
      var access := AccessGroups(site, datasources, account);
      PartitionUnaffected(site, datasources, d.id);
      var k :| 0 <= k < |p.unaffected| && p.unaffected[k] == d.id;
      var children := DatasourceConditions(p.unaffected) + [ConditionGroup(Or, [], access)];
      assert children[k] == Condition("search_api_datasource", StrV(d.id), Equals);
      OrHolds(["group_access"], children, doc);
      AdmitsOne(ConditionGroup(Or, ["group_access"], children), doc);
    }
  }

  /*
   * ---------------------------------------------------------------------
   * The filter as written against the corrected one
   * ---------------------------------------------------------------------
   */

  /** With some unaffected datasource (or the bypass permission) the filter as written is the corrected one. */
  lemma AsWrittenAgreesWithUnaffected(site: Site, datasources: seq<Datasource>, account: Account)
    requires BypassPermission in account.permissions || Partitioned(site, datasources).unaffected != []
    ensures CompiledFilter(site, datasources, account) == CorrectedFilter(site, datasources, account)
  {
  }

  /**
   * Without unaffected datasources the filter as written puts the access
   * condition groups on the query's AND root: an item must satisfy all of
   * them, and when there are none every item passes, where the corrected
   * filter lets no item pass.
   */
  lemma AsWrittenConjoinsAccessGroups(site: Site, datasources: seq<Datasource>, account: Account, doc: Document)
    requires BypassPermission !in account.permissions
    requires Partitioned(site, datasources).unaffected == [] && Partitioned(site, datasources).affected != []
    ensures Admits(CompiledFilter(site, datasources, account), doc) <==>
      forall i :: 0 <= i < |AccessGroups(site, datasources, account)| ==> Holds(AccessGroups(site, datasources, account)[i], doc)
    ensures AccessGroups(site, datasources, account) == [] ==>
      Admits(CompiledFilter(site, datasources, account), doc) && !Admits(CorrectedFilter(site, datasources, account), doc)
  {
  }

  /** A site with one node plugin, a viewer in no group and a node owned by another user. */
  const ArticlePlugin := PluginItem("group_node:article", "group_node", "node", Some("article"))
  const LoneSite := Site(map[], {}, [ArticlePlugin], map[], [], [])
  const NodeIndex := [Datasource("entity:node", Some("node"))]
  const Article := Entity(5, "node", "article", OwnedEntity(2), Some(true))
  const Viewer := Account(1, {}, [])

  /**
   * The input that shows the difference: a search over nodes only, by a
   * viewer who shares no group with anybody. `checkAccess` forbids viewing
   * the article, yet the filter as written lets it (and every other item)
   * through; the corrected filter does not.
   */
  lemma AsWrittenAdmitsWithoutGrants(doc: Document)
    ensures CheckAccess(LoneSite, Article, "view", Viewer) == Ok(Forbidden)
    ensures Admits(CompiledFilter(LoneSite, NodeIndex, Viewer), doc)
    ensures !Admits(CorrectedFilter(LoneSite, NodeIndex, Viewer), doc)
  {
    LoneForbidsArticle();
    LoneIndexAffected();
    LoneAccessGroups();
  }

  /** The viewer shares no group with the author, so viewing the article is forbidden. */
  lemma LoneForbidsArticle()
    ensures CheckAccess(LoneSite, Article, "view", Viewer) == Ok(Forbidden)
  {
    LoneSharedGroups();
    assert EntitySpecialCases(LoneSite.definitions, "node", "forbidden") == [];
    assert EntitySpecialCases(LoneSite.definitions, "node", "allowed") == [];
    assert GroupPermissions(LoneSite, Article, "view", Viewer) == Ok(None);
  }

  /** Nobody belongs to a group, so the viewer and the author share none. */
  lemma LoneSharedGroups()
    ensures HasSharedGroups(LoneSite, Viewer, Article, None) == Ok([])
  {
    var none: Assoc<GroupId, Group> := [];
    assert UserGroups(MembershipsOf(LoneSite, Viewer.id), None) == none;
    assert HasSharedGroups(LoneSite, Viewer, Article, None) == Ok(IntersectKey(none, UserGroups(MembershipsOf(LoneSite, 2), None)));
  }

  /** The node datasource is the only one, and it is affected. */
  lemma LoneIndexAffected()
    ensures Partitioned(LoneSite, NodeIndex).unaffected == []
    ensures Keys(Partitioned(LoneSite, NodeIndex).affected) == ["node"]
  {
    assert FirstOfBase(LoneSite.installed, 0);
    IsApplicableEntityTypeMeans(LoneSite, "node");
    var p := Partitioned(LoneSite, NodeIndex);
    assert NodeIndex[..0] == [];
    var empty: seq<Datasource> := [];
    assert Partitioned(LoneSite, empty) == Partition([], []);
    assert Affected(LoneSite, NodeIndex[0]);
    assert p.affected == Put([], "node", [] + ["entity:node"]) && p.unaffected == [];
  }

  /** The viewer belongs to no group, so there is no access condition group. */
  lemma LoneAccessGroups()
    ensures AccessGroups(LoneSite, NodeIndex, Viewer) == []
  {
    LoneIndexAffected();
    var none: Assoc<GroupId, Group> := [];
    assert UserGroups(MembershipsOf(LoneSite, Viewer.id), None) == none;
    assert ViewerGroups(LoneSite, Viewer) == [];
    var noTypes: seq<string> := [];
    var noGroups: seq<Group> := [];
    assert ["node"][..0] == noTypes;
    assert AccessConditions(LoneSite, noTypes, noGroups, Viewer) == [];
    assert GroupConditions(LoneSite, noGroups, "node", Viewer) == [];
    assert AccessConditions(LoneSite, ["node"], noGroups, Viewer) == [];
  }

  /** A node plugin and a media plugin whose bundles are both named "article", installed on group type "team". */
  const MediaPlugin := PluginItem("group_media:article", "group_media", "media", Some("article"))
  const Team := Group(7, "team")
  const TeamSite := Site(
    map[1 := [Team], 2 := [Team]],
    {Grant(7, ViewPermission("group_media:article"), 1)},
    [ArticlePlugin, MediaPlugin],
    map["team" := [ArticlePlugin, MediaPlugin]],
    [], [])
  const MixedIndex := [Datasource("entity:node", Some("node")), Datasource("entity:media", Some("media"))]

  /**
   * Why the agreement needs the entity's plugin to be the only one of its
   * bundle name: the access condition groups name the bundle but not the
   * entity type, so a viewer allowed to see media "article" items of a team
   * also passes the filter for the team's node articles, which
   * `checkAccess` forbids.
   */
  lemma BundleNamesCollide(doc: Document)
    requires IndexedDocument(TeamSite, MixedIndex[0], Article, doc)
    ensures CheckAccess(TeamSite, Article, "view", Viewer) == Ok(Forbidden)
    ensures Admits(CorrectedFilter(TeamSite, MixedIndex, Viewer), doc)
  {
    TeamForbidsArticle();
    TeamFilterAdmitsArticle(doc);
  }

  /** The one shared group grants only the media permission, so the node article is forbidden. */
  lemma TeamForbidsArticle()
    ensures CheckAccess(TeamSite, Article, "view", Viewer) == Ok(Forbidden)
  {
    TeamSharedGroups();
    TeamArticlePlugin();
    assert EntitySpecialCases(TeamSite.definitions, "node", "forbidden") == [];
    assert EntitySpecialCases(TeamSite.definitions, "node", "allowed") == [];
    assert Values([(7, Team)]) == [Team];
    assert GroupPermissions(TeamSite, Article, "view", Viewer)
      == Ok(Some(AnyGroupPermits(TeamSite, Article, "view", Viewer, "group_node:article", [Team])));
    assert ViewPermission("group_node:article") != ViewPermission("group_media:article");
    assert !GroupPermits(TeamSite, Article, "view", Viewer, "group_node:article", Team);
  }

  /** The viewer and the author share exactly the team. */
  lemma TeamSharedGroups()
    ensures HasSharedGroups(TeamSite, Viewer, Article, None) == Ok([(7, Team)])
  {
    TeamGroups();
    assert Author(Article) == Some(2) && Viewer.id == 1;
    assert Keys([(7, Team)]) == [7];
    var none: Assoc<GroupId, Group> := [];
    assert [(7, Team)][1..] == none;
    assert IntersectKey(none, [(7, Team)]) == [];
    assert IntersectKey([(7, Team)], [(7, Team)]) == [(7, Team)] + IntersectKey(none, [(7, Team)]);
    assert HasSharedGroups(TeamSite, Viewer, Article, None) == Ok(IntersectKey(UserGroups([Team], None), UserGroups([Team], None)));
    assert [(7, Team)] + none == [(7, Team)];
    assert IntersectKey(UserGroups([Team], None), UserGroups([Team], None)) == [(7, Team)];
  }

  /** The node article is handled by the node plugin, the first installed. */
  lemma TeamArticlePlugin()
    ensures PluginFor(TeamSite.installed, Article) == Some(ArticlePlugin)
  {
  }

  lemma TeamGroups()
    ensures MembershipsOf(TeamSite, 1) == [Team] && MembershipsOf(TeamSite, 2) == [Team]
    ensures UserGroups([Team], None) == [(7, Team)]
  {
    var noGroups: Assoc<GroupId, Group> := [];
    assert [Team][..0] == [];
    assert UserGroups([Team], None) == Put(noGroups, 7, Team);
  }

  /** The media grant yields a condition group naming only the bundle, which the node article satisfies. */
  lemma TeamFilterAdmitsArticle(doc: Document)
    requires IndexedDocument(TeamSite, MixedIndex[0], Article, doc)
    ensures Admits(CorrectedFilter(TeamSite, MixedIndex, Viewer), doc)
  {
    var access := AccessGroups(TeamSite, MixedIndex, Viewer);
    var c := GroupCondition(Team, MediaPlugin, Viewer, false, true);
    TeamMediaCondition();
    TeamMediaConditionHolds(doc);
    var i :| 0 <= i < |access| && access[i] == c;
    assert AnyHolds(access, doc);
    var p := Partitioned(TeamSite, MixedIndex);
    if p.unaffected != [] {
      OrHolds([], access, doc);
      var children := DatasourceConditions(p.unaffected) + [ConditionGroup(Or, [], access)];
      assert children[|children| - 1] == ConditionGroup(Or, [], access);
      OrHolds(["group_access"], children, doc);
      AdmitsOne(ConditionGroup(Or, ["group_access"], children), doc);
    } else {
      OrHolds(["group_access"], access, doc);
      AdmitsOne(ConditionGroup(Or, ["group_access"], access), doc);
    }
  }

  lemma TeamMediaCondition()
    ensures GroupCondition(Team, MediaPlugin, Viewer, false, true) in AccessGroups(TeamSite, MixedIndex, Viewer)
  {
    TeamMediaAffected();
    TeamViewerGroups();
    var types := Keys(Partitioned(TeamSite, MixedIndex).affected);
    var c := GroupCondition(Team, MediaPlugin, Viewer, false, true);
    assert ViewOwnPermission("group_media:article") != ViewPermission("group_media:article");
    assert c in ItemCondition(TeamSite, Team, MediaPlugin, "media", Viewer);
    AccessConditionIn(TeamSite, types, [Team], Viewer, "media", Team, MediaPlugin, c);
  }

  /** The media condition group names the team and the bundle "article", both of which the node article has. */
  lemma TeamMediaConditionHolds(doc: Document)
    requires IndexedDocument(TeamSite, MixedIndex[0], Article, doc)
    ensures Holds(GroupCondition(Team, MediaPlugin, Viewer, false, true), doc)
  {
    TeamGroups();
    GroupConditionHolds(Team, MediaPlugin, Viewer, false, true, doc);
    assert Keys([(7, Team)]) == [7];
    assert AuthorGroupIds(TeamSite, 2) == [IntV(7)];
  }

  /** The media datasource is affected: media is an entity type of an installed plugin. */
  lemma TeamMediaAffected()
    ensures "media" in Keys(Partitioned(TeamSite, MixedIndex).affected)
  {
    assert FirstOfBase(TeamSite.installed, 1);
    IsApplicableEntityTypeMeans(TeamSite, "media");
    PartitionAffected(TeamSite, MixedIndex, "media", "entity:media");
  }

  /** The viewer's one group is the team. */
  lemma TeamViewerGroups()
    ensures ViewerGroups(TeamSite, Viewer) == [Team]
  {
    TeamGroups();
    assert Values([(7, Team)]) == [Team];
  }

  /** An unpublished node article by user 2, and a site where the team grants user 1 "view" on node articles. */
  const Draft := Entity(5, "node", "article", OwnedEntity(2), Some(false))
  const DraftSite := Site(
    map[1 := [Team], 2 := [Team]],
    {Grant(7, ViewPermission("group_node:article"), 1)},
    [ArticlePlugin],
    map["team" := [ArticlePlugin]],
    [], [])

  /**
   * Why the agreement is stated for published items only: the filter never
   * looks at the status, so a viewer allowed to view published articles of
   * the team passes it for the team's unpublished article as well, which
   * `checkAccess` forbids without "view unpublished".
   */
  lemma DraftsPassFilter(doc: Document)
    requires IndexedDocument(DraftSite, NodeIndex[0], Draft, doc)
    ensures CheckAccess(DraftSite, Draft, "view", Viewer) == Ok(Forbidden)
    ensures Admits(CorrectedFilter(DraftSite, NodeIndex, Viewer), doc)
  {
    DraftForbidden();
    DraftFilterAdmits(doc);
  }

  /** The team is the only shared group, and it lacks "view unpublished". */
  lemma DraftForbidden()
    ensures CheckAccess(DraftSite, Draft, "view", Viewer) == Ok(Forbidden)
  {
    DraftTeamLacksUnpublished();
    assert EntitySpecialCases(DraftSite.definitions, "node", "forbidden") == [];
    assert EntitySpecialCases(DraftSite.definitions, "node", "allowed") == [];
    assert PluginFor(DraftSite.installed, Draft) == Some(ArticlePlugin);
    CheckAccessByGroups(DraftSite, Draft, "view", Viewer);
  }

  /** No group the viewer shares with the author grants viewing the unpublished article. */
  lemma DraftTeamLacksUnpublished()
    ensures ConsistentGroups(DraftSite)
    ensures forall g :: SharedGroup(DraftSite, Viewer, 2, g) ==> !GroupPermits(DraftSite, Draft, "view", Viewer, "group_node:article", g)
  {
    assert ViewUnpublishedPermission("group_node:article") != ViewPermission("group_node:article");
    forall g | SharedGroup(DraftSite, Viewer, 2, g)
      ensures !GroupPermits(DraftSite, Draft, "view", Viewer, "group_node:article", g)
    {
      assert g in [Team];
    }
  }

  /** The team's condition group for node articles holds for the draft, so the filter admits it. */
  lemma DraftFilterAdmits(doc: Document)
    requires IndexedDocument(DraftSite, NodeIndex[0], Draft, doc)
    ensures Admits(CorrectedFilter(DraftSite, NodeIndex, Viewer), doc)
  {
    var access := AccessGroups(DraftSite, NodeIndex, Viewer);
    var c := GroupCondition(Team, ArticlePlugin, Viewer, false, true);
    DraftCondition();
    AuthorGroupConditionHolds(DraftSite, Draft, Viewer, ArticlePlugin, Team, false, true, NodeIndex[0], doc);
    var i :| 0 <= i < |access| && access[i] == c;
    assert AnyHolds(access, doc);
    DraftNodeAffected();
    CorrectedFilterIsAccessGroups(DraftSite, NodeIndex, NodeIndex[0], Viewer, doc);
  }

  lemma DraftCondition()
    ensures GroupCondition(Team, ArticlePlugin, Viewer, false, true) in AccessGroups(DraftSite, NodeIndex, Viewer)
  {
    DraftNodeAffected();
    DraftViewerGroups();
    var types := Keys(Partitioned(DraftSite, NodeIndex).affected);
    var c := GroupCondition(Team, ArticlePlugin, Viewer, false, true);
    assert ViewOwnPermission("group_node:article") != ViewPermission("group_node:article");
    assert c in ItemCondition(DraftSite, Team, ArticlePlugin, "node", Viewer);
    AccessConditionIn(DraftSite, types, [Team], Viewer, "node", Team, ArticlePlugin, c);
  }

  /** The node datasource is affected. */
  lemma DraftNodeAffected()
    ensures Affected(DraftSite, NodeIndex[0])
    ensures "node" in Keys(Partitioned(DraftSite, NodeIndex).affected)
  {
    assert FirstOfBase(DraftSite.installed, 0);
    IsApplicableEntityTypeMeans(DraftSite, "node");
    PartitionAffected(DraftSite, NodeIndex, "node", "entity:node");
  }

  /** The viewer's one group is the team. */
  lemma DraftViewerGroups()
    ensures ViewerGroups(DraftSite, Viewer) == [Team]
  {
    var noGroups: Assoc<GroupId, Group> := [];
    assert [Team][..0] == [];
    assert UserGroups([Team], None) == Put(noGroups, 7, Team);
    assert Values([(7, Team)]) == [Team];
  }

  /*
   * ---------------------------------------------------------------------
   * preprocessSearchQuery
   * ---------------------------------------------------------------------
   */

  /** The `search_api_access_account` option of a query. */
  datatype AccountOption =
    | Unset                        // the option is not set: the current user
    | AccountObject(account: Account)
    | NumericId(uid: UserId)       // a numeric value, loaded as a user id
    | Illegal                      // anything else

  /** The account a search runs for, if the option names one that exists. `users` holds the loadable users. */
  function SearchAccount(option: AccountOption, currentUser: Account, users: map<UserId, Account>): Option<Account>
  {
    match option
    case Unset => Some(currentUser)
    case AccountObject(a) => Some(a)
    case NumericId(uid) => if uid in users then Some(users[uid]) else None
    case Illegal => None
  }

  /**
   * `preprocessSearchQuery`: unless the query bypasses access, adds the
   * group access filter for the account the query runs for; an illegal or
   * unknown account leaves the query as it is (the warning is not modelled).
   */
  method PreprocessSearchQuery(query: Query, site: Site, datasources: seq<Datasource>, currentUser: Account, users: map<UserId, Account>)
    modifies query
    ensures var account := SearchAccount(query.accessAccount, currentUser, users);
      if query.bypassAccess || account.None? then
        query.conditions == old(query.conditions) && query.aborted == old(query.aborted)
      else
        && query.conditions == old(query.conditions) + CompiledFilter(site, datasources, account.value).conditions
        && query.aborted == (old(query.aborted) || CompiledFilter(site, datasources, account.value).abort)
  {
    if !query.bypassAccess {
      var account: Option<Account>;
      match query.accessAccount {
        case Unset => account := Some(currentUser);
        case AccountObject(a) => account := Some(a);
        case NumericId(uid) => account := if uid in users then Some(users[uid]) else None;
        case Illegal => account := None;
      }
      if account.Some? {
        AddGroupAccess(query, site, datasources, account.value);
      }
    }
  }
}
