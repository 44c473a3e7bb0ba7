/**
 * The "only one instance" guards of juscms/jusutils/mixins.py:
 * `SingleInstanceMixin.clean`, which validates a model instance against the
 * rows already stored, and `SingleInstanceAdminMixin.has_add_permission`,
 * which hides the admin's add button.
 */
module SingleInstance {
  import opened Wrappers

  /** How `clean` ends. */
  datatype CleanOutcome =
    | Passed
    | ValidationError(message: string)
    | Raised(exception: string)  // an exception other than ValidationError escapes

  /** Python's truth value of `self.id`: no id and the id 0 are both false. */
  predicate HasId(id: Option<int>)
  {
    id.Some? && id.value != 0
  }

  function RefusalMessage(modelName: string): string
  {
    "Can only create one " + modelName
  }

  /**
   * `clean` as written. With rows stored and an id set, `objects.get()`
   * raises when there are several rows, and when there is exactly one it
   * returns that row, which `[:1]` cannot slice. Once any row is stored,
   * nothing passes: a new instance is refused with the validation message,
   * and an id-carrying instance never gets past the lookup.
   */
  function CleanAsWritten(count: nat, id: Option<int>, modelName: string): (r: CleanOutcome)
    ensures r.Passed? <==> count == 0
    ensures count > 0 && !HasId(id) ==> r == ValidationError(RefusalMessage(modelName))
    ensures count > 0 && HasId(id) ==> r.Raised?
  {
    if count > 0 then
      if HasId(id) then
        if count > 1 then Raised("MultipleObjectsReturned") else Raised("TypeError")
      else ValidationError(RefusalMessage(modelName))
    else Passed
  }

  /** Editing the one stored instance fails under the written check, even with its own id. */
  lemma CleanAsWrittenRejectsStoredInstance(storedId: int, modelName: string)
    requires storedId != 0
    ensures CleanAsWritten(1, Some(storedId), modelName).Raised?
  {
  }

  /**
   * The written check and the corrected one agree on every input except an
   * id-carrying instance cleaned while rows are stored: the only case the
   * lookup at line 19 is reached.
   */
  lemma CleanAsWrittenAgreesWithClean(count: nat, id: Option<int>, firstId: int, modelName: string)
    ensures CleanAsWritten(count, id, modelName) == Clean(count, id, firstId, modelName)
            <==> !(count > 0 && HasId(id))
  {
  }

  /**
   * `clean` as evidently intended: `firstId` is the id of the first stored
   * row. A new instance is refused while any row exists; a saved instance
   * passes only when it is that row.
   */
  function Clean(count: nat, id: Option<int>, firstId: int, modelName: string): (r: CleanOutcome)
    ensures r.Passed? <==> count == 0 || (HasId(id) && id.value == firstId)
    ensures !r.Passed? ==> r == ValidationError(RefusalMessage(modelName))
  {
    if count > 0 then
      if HasId(id) then
        if id.value != firstId then ValidationError(RefusalMessage(modelName)) else Passed
      else ValidationError(RefusalMessage(modelName))
    else Passed
  }

  /**
   * The corrected check keeps the table at one row: starting from at most
   * one row, an instance that passes `clean` leaves at most one row once
   * saved, and editing the stored row passes.
   */
  lemma CleanKeepsOneInstance(count: nat, id: Option<int>, firstId: int, modelName: string)
    requires count <= 1
    ensures Clean(count, id, firstId, modelName).Passed? ==> count + (if HasId(id) then 0 else 1) <= 1
    ensures count == 1 && firstId != 0 ==> Clean(count, Some(firstId), firstId, modelName).Passed?
  {
  }

  /** `has_add_permission`: refused once a row exists, otherwise whatever the base admin allows. */
  function HasAddPermission(count: nat, basePermission: bool): (r: bool)
    ensures r <==> count == 0 && basePermission
  {
    if count >= 1 then false else basePermission
  }

  /** The admin offers "add" exactly when a new instance would pass the corrected `clean`, given base permission. */
  lemma AddPermissionAgreesWithClean(count: nat, firstId: int, modelName: string)
    ensures HasAddPermission(count, true) <==> Clean(count, None, firstId, modelName).Passed?
  {
  }
}
