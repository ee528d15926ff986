/** Identifiers shared by the offline operators and the control plane.

    A UUID is either one the service assigned or one an operator derived from a hash of a
    label.  SHA-256 is taken to be injective, so a derived id is simply a constructor. */
module Identifiers {

  datatype Option<+T> = None | Some(value: T)

  datatype Uuid =
    | Given(n: nat)
    | Derived(group: Group, tag: Label)

  /** What an operator's derived ids are hashed together with. */
  datatype Group =
    | NormalizationGroup(actor: Uuid, database: string)
    | CutoverPlan

  datatype Label =
    | RowCommand(workflow: Uuid)
    | RowEvent(workflow: Uuid)
    | GroupAudit
    | DomainBinding(index: nat, domain: Uuid, role: string)
    | VisitOf(index: nat, workflow: Uuid)
    | CommandOf(index: nat, workflow: Uuid)
    | EventOf(index: nat, workflow: Uuid)
    | SummaryCommand(index: nat)
    | SummaryAudit(index: nat)

  /** A pair's migration id: the digest of the plan hash and the two principals. */
  datatype MigrationId = MigrationId(oldPrincipal: Uuid, newPrincipal: Uuid)

  /** Idempotency keys of workflow_command_receipts. */
  datatype ReceiptKey =
    | ClientKey(text: string)
    | NormalizationKey(group: Group, workflow: Uuid)
    | InstanceKey(migration: MigrationId, workflow: Uuid)
    | SummaryKey(migration: MigrationId)
}
