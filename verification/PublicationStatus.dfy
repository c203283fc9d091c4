/**
  The status of a publication target: the table of packages/database/src/publishing/state-machine.ts
  and the guarded update PublishingRepository.transitionVariantState builds on it.
*/
module PublicationStatus {

  datatype PostStatus =
    | Draft | Scheduled | Queued | Publishing | Published | Failed | Unknown | Deleting | Deleted | Partial

  function LegalTransitions(s: PostStatus): set<PostStatus> {
    match s
    case Draft => {Scheduled, Queued}
    case Scheduled => {Draft, Queued}
    case Queued => {Publishing, Draft}
    case Publishing => {Published, Failed, Unknown}
    case Published => {Deleting}
    case Failed => {Queued, Draft, Deleting}
    case Unknown => {Published, Failed, Deleting}
    case Deleting => {Deleted, Unknown}
    case Deleted => {}
    case Partial => {}
  }

  predicate CanTransition(from: PostStatus, to: PostStatus) {
    from == to || to in LegalTransitions(from)
  }

  /** The commands the API offers on a publication target; each is one call of
      transitionVariantState. */
  datatype Command = QueueForPublishing | QueueForDeletion | Retry | Schedule | Reschedule | Unschedule | CancelQueued

  function Sources(c: Command): set<PostStatus> {
    match c
    case QueueForPublishing => {Draft, Scheduled}
    case QueueForDeletion => {Published, Failed, Unknown}
    case Retry => {Failed}
    case Schedule => {Draft}
    case Reschedule => {Scheduled}
    case Unschedule => {Scheduled}
    case CancelQueued => {Queued}
  }

  function Target(c: Command): PostStatus {
    match c
    case QueueForPublishing => Queued
    case QueueForDeletion => Deleting
    case Retry => Queued
    case Schedule => Scheduled
    case Reschedule => Scheduled
    case Unschedule => Draft
    case CancelQueued => Draft
  }

  /** No command can trip the assertion that transitionVariantState makes over all of its
      expected states. */
  lemma CommandsAreLegal(c: Command, s: PostStatus)
    requires s in Sources(c)
    ensures CanTransition(s, Target(c))
  {
  }

  // ---------------------------------------------------------------- what commands can reach

  /** The status after a series of commands; one whose sources do not hold the status changes nothing. */
  function After(s: PostStatus, cs: seq<Command>): PostStatus
    decreases |cs|
  {
    if cs == [] then s else After(if s in Sources(cs[0]) then Target(cs[0]) else s, cs[1..])
  }

  ghost predicate Reaches(a: PostStatus, b: PostStatus) {
    exists cs :: After(a, cs) == b
  }

  const EDITABLE := {Draft, Scheduled, Queued}

  /** A publication that is not being published can be edited, scheduled and queued at will; a failed one can be
      taken back there or deleted; one that is, or may be, on the platform can only be deleted; and while it is
      PUBLISHING or DELETING, or once it is DELETED, commands do nothing. */
  predicate WithinReach(a: PostStatus, b: PostStatus) {
    || a == b
    || (a in EDITABLE + {Failed} && b in EDITABLE)
    || (a in {Published, Failed, Unknown} && b.Deleting?)
  }

  lemma {:induction false} StaysWithinReach(a: PostStatus, cs: seq<Command>)
    ensures WithinReach(a, After(a, cs))
    decreases |cs|
  {
    if cs != [] {
      var next := if a in Sources(cs[0]) then Target(cs[0]) else a;
      StaysWithinReach(next, cs[1..]);
    }
  }

  lemma OneCommand(a: PostStatus, c: Command)
    ensures Reaches(a, if a in Sources(c) then Target(c) else a)
  {
    assert [c][1..] == [];
    assert After(a, [c]) == if a in Sources(c) then Target(c) else a;
  }

  lemma ReachesFurther(a: PostStatus, c: Command, b: PostStatus)
    requires a in Sources(c) && Reaches(Target(c), b)
    ensures Reaches(a, b)
  {
    var cs :| After(Target(c), cs) == b;
    assert ([c] + cs)[1..] == cs;
    assert After(a, [c] + cs) == b;
  }

  /** In any order and number, the commands bring a publication exactly to the statuses within its reach. */
  lemma CommandsReachExactly(a: PostStatus, b: PostStatus)
    ensures Reaches(a, b) <==> WithinReach(a, b)
  {
    assert After(a, []) == a;
    if Reaches(a, b) {
      var cs :| After(a, cs) == b;
      StaysWithinReach(a, cs);
    } else if b.Deleting? && a in Sources(QueueForDeletion) {
      OneCommand(a, QueueForDeletion);
    } else if b in EDITABLE {
      QueuedReachesEditable(b);
      if a.Failed? {
        ReachesFurther(a, Retry, b);
      } else if a in Sources(QueueForPublishing) {
        ReachesFurther(a, QueueForPublishing, b);
      }
    }
  }

  lemma QueuedReachesEditable(b: PostStatus)
    ensures b in EDITABLE ==> Reaches(Queued, b)
  {
    OneCommand(Draft, Schedule);
    OneCommand(Queued, CancelQueued);
    ReachesFurther(Queued, CancelQueued, Scheduled);
    assert After(Queued, []) == Queued;
  }
}
