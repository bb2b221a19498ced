/** The stored objects that the step system and the operator's own methods share. */
module Objects {
  import opened GoStrings

  datatype DbStatus = Unset | Unassigned | Provisioning | Assigned

  function Rank(d: DbStatus): nat {
    match d
    case Unset => 0
    case Unassigned => 0
    case Provisioning => 1
    case Assigned => 2
  }

  datatype Phase = NoPhase | Pending | Ready

  /** A resource quantity: its value, in thousandths, and the way it is written. */
  datatype Quantity = Quantity(milli: int, format: string)

  datatype Quotas = Quotas(cpu: Quantity, memory: Quantity, storage: Quantity, pods: int)

  /** The specification of a tenant apart from its database. */
  datatype Spec = Spec(replicas: int, serviceVersion: string, quotas: Option<Quotas>)

  datatype TenantEnv = TenantEnv(
    uid: string, name: string, rv: nat, dedicated: bool, spec: Spec,
    deleting: bool, finalizer: bool,
    createdAt: Option<int>, readyAt: Option<int>, phase: Phase, db: DbStatus)

  datatype NsPhase = Active | Terminating

  /** A database job: whose it is, its ss-name label and the master secret it mounts. */
  datatype DbJob = DbJob(uid: string, ssName: string, master: string)

  function InitJobName(uid: string): string
    requires |uid| >= 8
  {
    "db-init-" + uid[..8]
  }

  /** A status Update keeps everything but the status of the stored object. */
  function WithStatus(stored: TenantEnv, mem: TenantEnv): TenantEnv {
    stored.(createdAt := mem.createdAt, readyAt := mem.readyAt, phase := mem.phase, db := mem.db)
  }
}
