/**
  The two repositories through which the publication row is changed, as they run: a read, a series of
  checks and a conditional write, with an arbitrary schedule of the other actors in between.
*/
module PublishRepositories {
  import opened Wrappers
  import opened ExecutionMetadata
  import opened PublishProtocol
  import opened PublishInvariant
  import PS = PublicationStatus

  type WorkspaceId = nat

  /** The database as one actor sees it: a row that everyone else keeps changing, and may delete.
      `owner` is the workspace of the row, None once the row is gone. */
  class VariantTable {
    const cfg: Adapter
    var sys: State
    var owner: Option<WorkspaceId>

    ghost predicate Valid()
      reads this
    {
      Inv(cfg, sys)
    }

    /** The steps other actors take while this one awaits. */
    method Await(others: seq<Event>, deleted: bool)
      requires Valid()
      modifies this
      ensures Valid()
      ensures owner == if deleted then None else old(owner)
      ensures sys == Run(cfg, old(sys), others)
      ensures Evolves(old(sys).row.Snap(), sys.row.Snap())
    {
      ghost var start := sys;
      if deleted {
        owner := None;
      }
      var i := 0;
      while i < |others|
        invariant 0 <= i <= |others|
        invariant Valid() && Run(cfg, sys, others[i..]) == Run(cfg, start, others)
        invariant owner == if deleted then None else old(owner)
      {
        StepInv(cfg, sys, others[i]);
        assert others[i..][1..] == others[i + 1..];
        sys := Step(cfg, sys, others[i]);
        i := i + 1;
      }
      RunInv(cfg, start, others);
    }
  }

  class ExecutionMetadataRepository {
    const table: VariantTable
    const workspaceId: WorkspaceId

    constructor (table: VariantTable, workspaceId: WorkspaceId)
      ensures this.table == table && this.workspaceId == workspaceId
    {
      this.table, this.workspaceId := table, workspaceId;
    }

    /** Starts a new operation.  Success means that at the moment of the write the row still carried
        no metadata, whatever the other actors did since it was read. */
    method StartOperation(operationId: OperationId, others: seq<Event>, deleted: bool)
      returns (r: Result<Row, TransitionError>)
      requires table.Valid()
      modifies table
      ensures var before := old(table.sys);
        var mid := Run(table.cfg, before, others);
        if old(table.owner) != Some(workspaceId) then r == Err(NotFound) && table.sys == before
        else if before.row.meta.Some? then r == Err(ExecutionStateExists) && table.sys == before
        else if deleted || mid.row.version != before.row.version then r == Err(VersionConflict) && table.sys == mid
        else
          && mid.row.meta.None?
          && r == Ok(mid.row.(meta := Some(Fresh(operationId, table.cfg.provider)), version := mid.row.version + 1))
          && table.sys == mid.(row := r.value)
      ensures table.owner == old(table.owner) || (deleted && table.owner.None?)
      ensures r.Ok? ==> table.owner == Some(workspaceId)
    {
      if table.owner != Some(workspaceId) {
        return Err(NotFound);
      }
      var variant := table.sys.row;
      if variant.meta.Some? {
        return Err(ExecutionStateExists);
      }
      table.Await(others, deleted);
      if table.owner.None? || table.sys.row.version != variant.version {
        return Err(VersionConflict);
      }
      var newMetadata := Fresh(operationId, table.cfg.provider);
      table.sys := table.sys.(row := table.sys.row.(meta := Some(newMetadata), version := table.sys.row.version + 1));
      return Ok(table.sys.row);
    }

    /** Builds the next metadata field by field. */
    static method BuildMetadata(current: Metadata, next: Phase, data: TransitionData, now: Millis)
      returns (r: Result<Metadata, TransitionError>)
      ensures r == NextMetadata(current, next, data, now)
    {
      var metadata := current.(phase := next);
      if data.preparationState.Some? {
        metadata := metadata.(preparationState := data.preparationState);
      }
      if next.ContainerCreated? {
        if !Present(data.containerId) {
          return Err(IllegalTransition);
        }
        metadata := metadata.(containerId := data.containerId);
        metadata := metadata.(containerCreatedAt := Some(now));
      }
      if next.ProcessingRemote? {
        if data.delayMs.None? || data.delayMs.value < MIN_DELAY_MS || MAX_DELAY_MS < data.delayMs.value {
          return Err(IllegalTransition);
        }
        metadata := metadata.(lastCheckedAt := Some(now));
        metadata := metadata.(nextCheckAt := Some(now + data.delayMs.value));
        if Present(data.remoteResourceId) {
          metadata := metadata.(remoteResourceId := data.remoteResourceId);
        }
      }
      if next.PublishRequested? {
        metadata := metadata.(publishRequestedAt := Some(now));
      }
      if next.Completed? {
        if !Present(data.finalRemoteId) {
          return Err(IllegalTransition);
        }
        metadata := metadata.(finalRemoteId := data.finalRemoteId);
      }
      if Terminal(next) {
        metadata := metadata.(nextCheckAt := None);
        metadata := metadata.(lastCheckedAt := None);
      }
      return Ok(metadata);
    }

    /** The checks on the row that was read, in the order they are made. */
    static method CheckAndBuild(variant: Row, operationId: OperationId, expected: Phase, next: Phase,
                                expectedVersion: nat, data: TransitionData, now: Millis)
      returns (r: Result<Metadata, TransitionError>)
      ensures r == PlanTransition(variant.Snap(), operationId, expected, next, expectedVersion, data, now)
    {
      if variant.version != expectedVersion {
        return Err(VersionConflict);
      }
      if variant.meta.None? {
        return Err(NoActiveOperation);
      }
      var current := variant.meta.value;
      if !WellFormed(current) {
        return Err(MalformedState);
      }
      if current.operationId != operationId {
        return Err(OperationMismatch);
      }
      if current.phase != expected {
        return Err(PhaseMismatch);
      }
      if Terminal(current.phase) {
        return Err(TerminalState);
      }
      if next !in Allowed(current.phase) {
        return Err(IllegalTransition);
      }
      r := BuildMetadata(current, next, data, now);
    }

    /** Transitions the operation.  The call succeeds exactly when the checks pass on the row it read
        and the version is still the expected one when it writes; then its effect is that of the
        whole transaction run atomically on the row as it is at that moment. */
    method TransitionOperation(operationId: OperationId, expected: Phase, next: Phase, expectedVersion: nat,
                               data: TransitionData, now: Millis, others: seq<Event>, deleted: bool)
      returns (r: Result<Row, TransitionError>)
      requires table.Valid()
      modifies table
      ensures var before := old(table.sys);
        var mid := Run(table.cfg, before, others);
        var atRead := PlanTransition(before.row.Snap(), operationId, expected, next, expectedVersion, data, now);
        var atWrite := PlanTransition(mid.row.Snap(), operationId, expected, next, expectedVersion, data, now);
        if old(table.owner) != Some(workspaceId) then r == Err(NotFound) && table.sys == before
        else if atRead.Err? then r == Err(atRead.error) && table.sys == before
        else if deleted || mid.row.version != expectedVersion then r == Err(VersionConflict) && table.sys == mid
        else
          && atWrite.Ok?
          && r == Ok(mid.row.(meta := Some(atWrite.value), version := mid.row.version + 1))
          && table.sys == mid.(row := r.value)
      ensures table.owner == old(table.owner) || (deleted && table.owner.None?)
      ensures r.Ok? ==> table.owner == Some(workspaceId)
    {
      if table.owner != Some(workspaceId) {
        return Err(NotFound);
      }
      var variant := table.sys.row;
      var planned := CheckAndBuild(variant, operationId, expected, next, expectedVersion, data, now);
      if planned.Err? {
        return Err(planned.error);
      }
      table.Await(others, deleted);
      if table.owner.None? || table.sys.row.version != expectedVersion {
        return Err(VersionConflict);
      }
      PlanSurvives(variant.Snap(), table.sys.row.Snap(), operationId, expected, next, expectedVersion, data, now);
      var row := table.sys.row;
      row := row.(meta := Some(planned.value), version := row.version + 1);
      table.sys := table.sys.(row := row);
      return Ok(row);
    }
  }

  datatype StatusError = InvalidTransition(from: PS.PostStatus, to: PS.PostStatus)

  class PublishingRepository {
    const table: VariantTable
    const workspaceId: WorkspaceId

    constructor (table: VariantTable, workspaceId: WorkspaceId)
      ensures this.table == table && this.workspaceId == workspaceId
    {
      this.table, this.workspaceId := table, workspaceId;
    }

    /** Moves the status when the row is there and its status is one of the expected ones.  It refuses,
        before touching the row, a list of expected states any of which may not legally move to the new
        one; and it bumps the version exactly when the publication is queued. */
    method TransitionVariantState(expected: seq<PS.PostStatus>, target: PS.PostStatus)
      returns (r: Result<bool, StatusError>)
      modifies table`sys
      ensures r.Err? <==> exists s :: s in expected && !PS.CanTransition(s, target)
      ensures r.Err? ==> table.sys == old(table.sys) && r.error.to == target
      ensures var row := old(table.sys).row;
        r.Ok? ==>
          && r.value == (table.owner == Some(workspaceId) && row.status in expected)
          && (r.value ==> PS.CanTransition(row.status, target))
          && table.sys.row == (if !r.value then row
                               else row.(status := target,
                                         version := row.version + if target.Queued? then 1 else 0))
          && table.sys == old(table.sys).(row := table.sys.row)
    {
      for i := 0 to |expected|
        invariant forall s | s in expected[..i] :: PS.CanTransition(s, target)
        invariant table.sys == old(table.sys)
      {
        if !PS.CanTransition(expected[i], target) {
          return Err(InvalidTransition(expected[i], target));
        }
      }
      assert expected[..|expected|] == expected;
      var row := table.sys.row;
      if table.owner != Some(workspaceId) || row.status !in expected {
        return Ok(false);
      }
      row := row.(status := target);
      if target.Queued? {
        row := row.(version := row.version + 1);
      }
      table.sys := table.sys.(row := row);
      return Ok(true);
    }
  }
}
