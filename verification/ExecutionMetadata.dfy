/**
  The execution metadata a publication carries while it is being published: the strict
  schema of packages/shared/src/publishing/execution-metadata.ts and the decision that
  ExecutionMetadataRepository takes before it writes a new value.
*/
module ExecutionMetadata {
  import opened Wrappers

  datatype Provider = Facebook | Instagram | LinkedIn | Twitter | TikTok | YouTube

  datatype Phase =
    | Initiated
    | ContainerCreated
    | ProcessingRemote
    | PublishRequested
    | Completed
    | Failed
    | Ambiguous

  /** A random UUID; only equality of two identifiers matters. */
  type OperationId = nat

  /** Milliseconds of the wall clock. */
  type Millis = int

  /** Provider-private state, opaque to the protocol. */
  type Json = string

  datatype Metadata = Metadata(
    operationId: OperationId,
    provider: Provider,
    phase: Phase,
    containerId: Option<string>,
    containerCreatedAt: Option<Millis>,
    publishRequestedAt: Option<Millis>,
    lastCheckedAt: Option<Millis>,
    nextCheckAt: Option<Millis>,
    remoteResourceId: Option<string>,
    preparationState: Option<Json>,
    finalRemoteId: Option<string>)

  /** The optional data a caller hands to a transition. */
  datatype TransitionData = TransitionData(
    containerId: Option<string>,
    finalRemoteId: Option<string>,
    delayMs: Option<int>,
    remoteResourceId: Option<string>,
    preparationState: Option<Json>)

  datatype TransitionError =
    | NotFound
    | NoActiveOperation
    | MalformedState
    | OperationMismatch
    | PhaseMismatch
    | TerminalState
    | VersionConflict
    | ExecutionStateExists
    | IllegalTransition

  const MIN_DELAY_MS := 15000
  const MAX_DELAY_MS := 86400000
  const NO_DATA := TransitionData(None, None, None, None, None)

  predicate Terminal(p: Phase) {
    p.Completed? || p.Failed? || p.Ambiguous?
  }

  function Allowed(p: Phase): set<Phase> {
    match p
    case Initiated => {ContainerCreated, PublishRequested, Completed, Failed}
    case ContainerCreated => {ContainerCreated, ProcessingRemote, PublishRequested, Failed}
    case ProcessingRemote => {ProcessingRemote, PublishRequested, Completed, Failed, Ambiguous}
    case PublishRequested => {Completed, Ambiguous, ProcessingRemote}
    case _ => {}
  }

  /** The strict discriminated union: each phase demands its own fields and only COMPLETED may
      carry a final remote id. */
  predicate WellFormed(m: Metadata) {
    && (m.phase.ContainerCreated? ==> m.containerId.Some? && m.containerCreatedAt.Some?)
    && (m.phase.ProcessingRemote? ==> m.lastCheckedAt.Some? && m.nextCheckAt.Some?)
    && (m.phase.PublishRequested? ==> m.publishRequestedAt.Some?)
    && (m.phase.Completed? <==> m.finalRemoteId.Some?)
  }

  /** The next poll of a remotely processed publication lies 15 s to 24 h after the last one. */
  predicate PollWindow(m: Metadata) {
    m.phase.ProcessingRemote? ==>
      && m.lastCheckedAt.Some? && m.nextCheckAt.Some?
      && m.lastCheckedAt.value + MIN_DELAY_MS <= m.nextCheckAt.value <= m.lastCheckedAt.value + MAX_DELAY_MS
  }

  function Fresh(op: OperationId, provider: Provider): Metadata {
    Metadata(op, provider, Initiated, None, None, None, None, None, None, None, None)
  }

  /** JavaScript truthiness of an optional string. */
  predicate Present(s: Option<string>) {
    s.Some? && s.value != ""
  }

  /** What a transition to `next` would write over `current`. */
  function NextMetadata(current: Metadata, next: Phase, data: TransitionData, now: Millis)
    : Result<Metadata, TransitionError>
  {
    var m := current.(phase := next,
                      preparationState := if data.preparationState.Some? then data.preparationState
                                          else current.preparationState);
    match next
    case ContainerCreated =>
      if !Present(data.containerId) then Err(IllegalTransition)
      else Ok(m.(containerId := data.containerId, containerCreatedAt := Some(now)))
    case ProcessingRemote =>
      if data.delayMs.None? || data.delayMs.value < MIN_DELAY_MS || data.delayMs.value > MAX_DELAY_MS then
        Err(IllegalTransition)
      else
        Ok(m.(lastCheckedAt := Some(now), nextCheckAt := Some(now + data.delayMs.value),
              remoteResourceId := if Present(data.remoteResourceId) then data.remoteResourceId
                                  else current.remoteResourceId))
    case PublishRequested =>
      Ok(m.(publishRequestedAt := Some(now)))
    case Completed =>
      if !Present(data.finalRemoteId) then Err(IllegalTransition)
      else Ok(m.(finalRemoteId := data.finalRemoteId, nextCheckAt := None, lastCheckedAt := None))
    case Failed => Ok(m.(nextCheckAt := None, lastCheckedAt := None))
    case Ambiguous => Ok(m.(nextCheckAt := None, lastCheckedAt := None))
    case Initiated => Ok(m)
  }

  /** The part of a publication row that is fenced by the dispatch version. */
  datatype Snapshot = Snapshot(version: nat, meta: Option<Metadata>)

  /** The checks transitionOperation performs on the row it has read, in the order it performs
      them, and the value it would then write. */
  function PlanTransition(row: Snapshot, op: OperationId, expected: Phase, next: Phase,
                          expectedVersion: nat, data: TransitionData, now: Millis)
    : Result<Metadata, TransitionError>
  {
    if row.version != expectedVersion then Err(VersionConflict)
    else if row.meta.None? then Err(NoActiveOperation)
    else if !WellFormed(row.meta.value) then Err(MalformedState)
    else if row.meta.value.operationId != op then Err(OperationMismatch)
    else if row.meta.value.phase != expected then Err(PhaseMismatch)
    else if Terminal(row.meta.value.phase) then Err(TerminalState)
    else if next !in Allowed(row.meta.value.phase) then Err(IllegalTransition)
    else NextMetadata(row.meta.value, next, data, now)
  }

  predicate SameOperation(a: Metadata, b: Metadata) {
    a.operationId == b.operationId && a.provider == b.provider
  }

  /** Every value a transition may write parses under the schema, keeps the identity of the
      operation, follows an edge of the phase graph and schedules the next poll in the window. */
  lemma PlanIsLegal(row: Snapshot, op: OperationId, expected: Phase, next: Phase,
                    expectedVersion: nat, data: TransitionData, now: Millis)
    requires PlanTransition(row, op, expected, next, expectedVersion, data, now).Ok?
    ensures var m := PlanTransition(row, op, expected, next, expectedVersion, data, now).value;
      && row.version == expectedVersion && row.meta.Some?
      && row.meta.value.phase == expected && !Terminal(expected)
      && row.meta.value.operationId == op
      && next in Allowed(expected) && m.phase == next
      && SameOperation(row.meta.value, m)
      && WellFormed(m) && PollWindow(m)
      && (next.Completed? ==> Present(m.finalRemoteId) && m.finalRemoteId == data.finalRemoteId)
  {
    var m := NextMetadata(row.meta.value, next, data, now).value;
    match next {
      case Completed => assert m.finalRemoteId == data.finalRemoteId;
      case _ => assert m.finalRemoteId == row.meta.value.finalRemoteId;
    }
  }

  /** What the phase graph means: nothing leaves a terminal phase; a plain failure cannot be recorded once the
      publication was requested, and doubt only where the remote side may have published; a completion needs no
      checkpoint, but is never recorded from a container that was only created. */
  lemma PhaseGraph(p: Phase, q: Phase)
    ensures Terminal(p) <==> Allowed(p) == {}
    ensures q in Allowed(p) ==> !q.Initiated?
    ensures Phase.Failed in Allowed(p) <==> !Terminal(p) && !p.PublishRequested?
    ensures Ambiguous in Allowed(p) <==> p.ProcessingRemote? || p.PublishRequested?
    ensures Completed in Allowed(p) <==> !Terminal(p) && !p.ContainerCreated?
    ensures PublishRequested in Allowed(p) <==> !Terminal(p) && !p.PublishRequested?
    ensures ProcessingRemote in Allowed(p) <==> !Terminal(p) && !p.Initiated?
    ensures ContainerCreated in Allowed(p) <==> p.Initiated? || p.ContainerCreated?
  {
  }

  /** The data a phase demands of its caller. */
  predicate Supplied(next: Phase, data: TransitionData) {
    && (next.ContainerCreated? ==> Present(data.containerId))
    && (next.ProcessingRemote? ==> data.delayMs.Some? && MIN_DELAY_MS <= data.delayMs.value <= MAX_DELAY_MS)
    && (next.Completed? ==> Present(data.finalRemoteId))
  }

  /** A transition is planned exactly when the row is the one the caller believes in, the graph has the edge and
      the caller supplies what the new phase demands. */
  lemma PlanSucceedsExactly(row: Snapshot, op: OperationId, expected: Phase, next: Phase,
                            expectedVersion: nat, data: TransitionData, now: Millis)
    ensures PlanTransition(row, op, expected, next, expectedVersion, data, now).Ok? <==>
      && row.version == expectedVersion && row.meta.Some? && WellFormed(row.meta.value)
      && row.meta.value.operationId == op && row.meta.value.phase == expected
      && next in Allowed(expected) && Supplied(next, data)
  {
  }

  /** A refusal names the first belief of the caller that the row does not bear out. */
  lemma PlanRefusesExactly(row: Snapshot, op: OperationId, expected: Phase, next: Phase,
                           expectedVersion: nat, data: TransitionData, now: Millis)
    ensures var plan := PlanTransition(row, op, expected, next, expectedVersion, data, now);
      var current := row.version == expectedVersion;
      var parsed := current && row.meta.Some? && WellFormed(row.meta.value);
      var mine := parsed && row.meta.value.operationId == op;
      && (plan == Err(VersionConflict) <==> !current)
      && (plan == Err(NoActiveOperation) <==> current && row.meta.None?)
      && (plan == Err(MalformedState) <==> current && row.meta.Some? && !parsed)
      && (plan == Err(OperationMismatch) <==> parsed && !mine)
      && (plan == Err(PhaseMismatch) <==> mine && row.meta.value.phase != expected)
      && (plan == Err(TerminalState) <==> mine && row.meta.value.phase == expected && Terminal(expected))
      && (plan == Err(IllegalTransition) <==>
            && mine && row.meta.value.phase == expected && !Terminal(expected)
            && !(next in Allowed(expected) && Supplied(next, data)))
  {
  }

  /** What `given` holds if it holds something, and otherwise what was there. */
  function OrElse<T>(given: Option<T>, kept: Option<T>): Option<T> {
    if given.Some? then given else kept
  }

  /** Every field of the value a transition writes. */
  lemma PlanWrites(row: Snapshot, op: OperationId, expected: Phase, next: Phase,
                   expectedVersion: nat, data: TransitionData, now: Millis)
    requires PlanTransition(row, op, expected, next, expectedVersion, data, now).Ok?
    ensures var m, was := PlanTransition(row, op, expected, next, expectedVersion, data, now).value, row.meta.value;
      && m.preparationState == OrElse(data.preparationState, was.preparationState)
      && (if next.ContainerCreated? then m.containerId == data.containerId && m.containerCreatedAt == Some(now)
          else m.containerId == was.containerId && m.containerCreatedAt == was.containerCreatedAt)
      && m.publishRequestedAt == (if next.PublishRequested? then Some(now) else was.publishRequestedAt)
      && (if next.ProcessingRemote? then
            m.lastCheckedAt == Some(now) && m.nextCheckAt == Some(now + data.delayMs.value)
          else if Terminal(next) then m.lastCheckedAt == m.nextCheckAt == None
          else m.lastCheckedAt == was.lastCheckedAt && m.nextCheckAt == was.nextCheckAt)
      && m.remoteResourceId == (if next.ProcessingRemote? && Present(data.remoteResourceId) then data.remoteResourceId
                                else was.remoteResourceId)
      && m.finalRemoteId == (if next.Completed? then data.finalRemoteId else was.finalRemoteId)
  {
  }

  /** Stale recovery rewrites only the phase.  The result parses exactly when the value it
      rewrote was not COMPLETED. */
  lemma RecoveryWellFormed(m: Metadata)
    requires WellFormed(m)
    ensures WellFormed(m.(phase := Ambiguous)) <==> !m.phase.Completed?
  {
  }

  /**
    How a fenced row may change between two moments, and so what a reader may still believe about
    the row later: the version only grows, the operation is never exchanged, a terminal phase stays
    terminal, and as long as the version is the one that was read the metadata is the one that was
    read, except that reconciliation may exchange one terminal phase for another.
  */
  predicate Evolves(a: Snapshot, b: Snapshot) {
    && a.version <= b.version
    && (a.meta.Some? ==> b.meta.Some? && SameOperation(a.meta.value, b.meta.value))
    && (a.meta.Some? && Terminal(a.meta.value.phase) ==> Terminal(b.meta.value.phase))
    && (a.version == b.version ==>
          || a.meta == b.meta
          || (a.meta.Some? && Terminal(a.meta.value.phase) && Terminal(b.meta.value.phase)))
  }

  lemma EvolvesTransitive(a: Snapshot, b: Snapshot, c: Snapshot)
    requires Evolves(a, b) && Evolves(b, c)
    ensures Evolves(a, c)
  {
  }

  /** The heart of the split-step argument: a plan made from an earlier reading of the row is the
      plan the current row would yield, whenever the compare-and-swap on the version succeeds. */
  lemma PlanSurvives(read: Snapshot, row: Snapshot, op: OperationId, expected: Phase, next: Phase,
                     expectedVersion: nat, data: TransitionData, now: Millis)
    requires Evolves(read, row)
    requires PlanTransition(read, op, expected, next, expectedVersion, data, now).Ok?
    requires row.version == expectedVersion
    ensures PlanTransition(row, op, expected, next, expectedVersion, data, now)
         == PlanTransition(read, op, expected, next, expectedVersion, data, now)
  {
    PlanIsLegal(read, op, expected, next, expectedVersion, data, now);
  }
}
