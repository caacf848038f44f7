/**
 The tables behind agent coordination: `agent_runs`, `agent_file_claims` (each row together
 with its own rows of `agent_file_claim_events`) and `agent_run_blockers`.
 Times are integers, and the lease token stands for its (injective) hash.
 */
module AgentTables {
  import opened Options

  type RunId = string
  type Path = string
  type Token = string

  datatype Mode = ReadMode | EditMode | ReviewMode | TestMode | ExclusiveMode

  datatype RunStatus =
    | Working | Queued | Ready | Blocked | InReview
    | Completed | Failed | Cancelled | OtherStatus(name: string)

  /** STOPPED_STATUSES: the terminal statuses and the review statuses. */
  predicate Stopped(s: RunStatus) {
    Terminal(s) || s.InReview?
  }

  /** TERMINAL_STATUSES. */
  predicate Terminal(s: RunStatus) {
    s.Completed? || s.Failed? || s.Cancelled?
  }

  datatype ClaimStatus = Active | Released | Expired

  datatype LeaseKind = PlainClaim | Lease

  datatype DenyReason = BadToken | BadFence | OldFence

  datatype EventKind = Created | Renewed | ReleasedEvent | ExpiredEvent | Denied(reason: DenyReason)

  datatype ClaimEvent = ClaimEvent(kind: EventKind, fence: nat)

  /** The unique key of `agent_file_claims`; `claim_id` is a hash of it. */
  datatype ClaimKey = ClaimKey(run: RunId, path: Path, mode: Mode)

  datatype Claim = Claim(
    status: ClaimStatus,
    fence: nat,
    expires: Option<int>,
    kind: LeaseKind,
    token: Option<Token>,
    log: seq<ClaimEvent>)

  /** A swarm role; `mode` is None when its claim mode is not one of the five. */
  datatype Role = Role(named: bool, mode: Option<Mode>)

  /** The part of a run's metadata that the swarm code reads and writes. */
  datatype Meta = Meta(
    parent: Option<RunId>,
    lead: bool,
    materialized: bool,
    childCount: nat,
    roles: seq<Role>,
    size: nat,
    paths: seq<Path>)

  datatype Run = Run(status: RunStatus, archived: bool, meta: Meta)

  datatype Link = Link(run: RunId, blocker: RunId)

  datatype LinkStatus = LinkActive | LinkResolved

  datatype Db = Db(runs: map<RunId, Run>, claims: map<ClaimKey, Claim>, links: map<Link, LinkStatus>)

  datatype Error =
    | UnknownRun | DuplicateRun | PathRequired | UnknownMode | ClaimConflict
    | UnknownClaim | LeaseExpired | LeaseNotActive | TokenMismatch | FenceMalformed | FenceStale
    | LeaseChanged | NoActiveClaim | UnknownReleaseStatus | EventTypeRequired
    | TerminalRun | SelfBlock | UnknownBlocker | NotSwarmParent | ParentNotReady
    | ActiveBlockers | AlreadyMaterialized | ChildrenExist | MissingRoles

  /** What a call leaves behind: the tables, and its return value or the error it raised. */
  datatype Outcome<T> = Outcome(db: Db, result: Result<T, Error>)
}
