/**
 * The `permission_bypass` special case: an allowed case for every entity
 * type, firing for accounts that hold the bypass permission.
 */
module PermissionBypass {
  import opened Model
  import opened AccessSpecialCaseManager

  /** The plugin's annotation: type "allowed", no listed and no excluded entity types. */
  const Definition := SpecialCaseDef("permission_bypass", "allowed", [], [], PermissionBypassPlugin)

  /** `checkAccess`: the account holds "bypass group access checks". */
  function CheckAccess(entity: Entity, operation: string, account: Account): bool
  {
    BypassPermission in account.permissions
  }

  /** The answer does not depend on the entity or the operation. */
  lemma IgnoresEntityAndOperation(e1: Entity, op1: string, e2: Entity, op2: string, account: Account)
    ensures CheckAccess(e1, op1, account) == CheckAccess(e2, op2, account)
  {
  }

  /** The manager returns the definition for every entity type when allowed cases are requested, and never when forbidden ones are. */
  lemma AppliesToEveryEntityType(entityTypeId: string)
    ensures Applies(Definition, entityTypeId, "allowed")
    ensures !Applies(Definition, entityTypeId, "forbidden")
  {
  }
}
