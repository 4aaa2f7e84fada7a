/**
 * The AccessSpecialCase plugin manager: which discovered special case
 * definitions are consulted for an entity type and a case type.
 */
module AccessSpecialCaseManager {
  import opened Model

  /** Discovered definitions are keyed by plugin id, so no id occurs twice. */
  predicate UniqueIds(defs: seq<SpecialCaseDef>)
  {
    forall i, j :: 0 <= i < j < |defs| ==> defs[i].id != defs[j].id
  }

  /**
   * A definition is returned when its type is the requested one, it lists the
   * entity type or lists none, and it does not exclude the entity type.
   */
  predicate Applies(d: SpecialCaseDef, entityTypeId: string, caseType: string)
  {
    && d.caseType == caseType
    && (entityTypeId in d.entityTypeIds || d.entityTypeIds == [])
    && entityTypeId !in d.excludedEntityTypeIds
  }

  /** The definitions returned for an entity type and case type, in discovery order. */
  function EntitySpecialCases(defs: seq<SpecialCaseDef>, entityTypeId: string, caseType: string): seq<SpecialCaseDef>
  {
    if defs == [] then []
    else
      var last := defs[|defs| - 1];
      EntitySpecialCases(defs[..|defs| - 1], entityTypeId, caseType)
        + (if Applies(last, entityTypeId, caseType) then [last] else [])
  }

  /** `getEntitySpecialCases`, including its `isset` guard on already kept ids. */
  method GetEntitySpecialCases(defs: seq<SpecialCaseDef>, entityTypeId: string, caseType: string)
    returns (definitions: seq<SpecialCaseDef>)
    requires UniqueIds(defs)
    ensures definitions == EntitySpecialCases(defs, entityTypeId, caseType)
  {
    definitions := [];
    for i := 0 to |defs|
      invariant definitions == EntitySpecialCases(defs[..i], entityTypeId, caseType)
      invariant forall k :: 0 <= k < |definitions| ==> definitions[k] in defs[..i]
    {
      var definition := defs[i];
      if definition.caseType == caseType {
        var hasEntityType := entityTypeId in definition.entityTypeIds;
        var isSet := exists k :: 0 <= k < |definitions| && definitions[k].id == definition.id;
        var hasAllEntityTypes := definition.entityTypeIds == [] && !isSet;
        var excludeEntityType := entityTypeId in definition.excludedEntityTypeIds;
        assert !isSet;
        if (hasEntityType || hasAllEntityTypes) && !excludeEntityType {
          definitions := definitions + [definition];
        }
      }
      assert defs[..i + 1][..i] == defs[..i];
    }
    assert defs[..|defs|] == defs;
  }

  /** A definition is returned exactly when it is discovered and applies. */
  lemma {:induction false} EntitySpecialCasesMembers(defs: seq<SpecialCaseDef>, entityTypeId: string, caseType: string, d: SpecialCaseDef)
    ensures d in EntitySpecialCases(defs, entityTypeId, caseType) <==> d in defs && Applies(d, entityTypeId, caseType)
  {
    if defs != [] {
      var init := defs[..|defs| - 1];
      EntitySpecialCasesMembers(init, entityTypeId, caseType, d);
      assert defs == init + [defs[|defs| - 1]];
    }
  }

  /** `a` is `b` with some elements left out, the rest in their order. */
  ghost predicate IsSubsequence<T>(a: seq<T>, b: seq<T>)
    decreases |b|
  {
    a == [] || (b != [] && if a[0] == b[0] then IsSubsequence(a[1..], b[1..]) else IsSubsequence(a, b[1..]))
  }

  lemma {:induction false} SubsequenceExtend<T>(a: seq<T>, b: seq<T>, x: T)
    requires IsSubsequence(a, b)
    ensures IsSubsequence(a, b + [x]) && IsSubsequence(a + [x], b + [x])
    decreases |b|
  {
    if a == [] {
      SubsequenceOfSingleton(b, x);
      assert [] + [x] == [x];
    } else {
      assert (b + [x])[0] == b[0] && (b + [x])[1..] == b[1..] + [x];
      assert (a + [x])[0] == a[0] && (a + [x])[1..] == a[1..] + [x];
      if a[0] == b[0] {
        SubsequenceExtend(a[1..], b[1..], x);
      } else {
        SubsequenceExtend(a, b[1..], x);
      }
    }
  }

  lemma {:induction false} SubsequenceOfSingleton<T>(b: seq<T>, x: T)
    ensures IsSubsequence([x], b + [x])
    decreases |b|
  {
    if b != [] && b[0] != x {
      assert (b + [x])[1..] == b[1..] + [x];
      SubsequenceOfSingleton(b[1..], x);
    }
  }

  /** The result keeps the discovery order: it is a subsequence of all definitions. */
  lemma {:induction false} EntitySpecialCasesOrdered(defs: seq<SpecialCaseDef>, entityTypeId: string, caseType: string)
    ensures IsSubsequence(EntitySpecialCases(defs, entityTypeId, caseType), defs)
  {
    if defs != [] {
      var init := defs[..|defs| - 1];
      var last := defs[|defs| - 1];
      EntitySpecialCasesOrdered(init, entityTypeId, caseType);
      var kept := EntitySpecialCases(init, entityTypeId, caseType);
      SubsequenceExtend(kept, init, last);
      assert defs == init + [last];
      if Applies(last, entityTypeId, caseType) {
        assert EntitySpecialCases(defs, entityTypeId, caseType) == kept + [last];
      } else {
        assert EntitySpecialCases(defs, entityTypeId, caseType) == kept;
      }
    }
  }
}
