/** The Instagram carousel: children created in a resumable loop, then one parent over the sorted children. */
module InstagramCarousel {
  import opened Wrappers

  datatype MediaType = ImageMedia | VideoMedia

  datatype CarouselStep = ChildCreation | ChildProcessing | ParentProcessing

  datatype Child = Child(sortOrder: int, containerId: string, mediaType: MediaType)

  datatype CarouselState = CarouselState(
    step: CarouselStep,
    completedChildren: seq<Child>,
    pendingChildrenIndices: seq<int>,
    parentContainerId: Option<string>)

  /** The provider state the worker hands back: none, something that does not parse, or a carousel. */
  datatype ProviderState = NoState | Foreign | Carousel(state: CarouselState)

  /** A child container the remote side created, and the media item it was created for. */
  datatype Container = Container(index: int, id: string)

  /** A parent container the remote side created, and the child list it was posted with. */
  datatype Parent = Parent(id: string, children: seq<string>)

  /** What is durable: the persisted provider state and everything that exists remotely. */
  datatype World = World(stored: ProviderState, created: seq<Container>, parents: seq<Parent>)

  // ---------------------------------------------------------------- the environment's answers

  /** The persistence hook: it may refuse before or after its write took effect. */
  datatype Save = Saved | Refused(written: bool) | Conflict(written: bool)

  /** One child: the signed URL fails, the network fails, the remote side refuses, or it creates a container. */
  datatype ChildReply = NoUrl | NoNetwork | Rejected | Created(id: string, save: Save)

  datatype ParentReply = ParentNoNetwork | ServerError | ParentRejected | ParentCreated(id: string)

  datatype Outcome =
    | Processing(state: CarouselState)
    | NoInstagramId
    | MediaCountInvalid
    | NoSignedUrlSupport
    | SignedUrlFailed
    | GraphError
    | NetworkError
    | UnknownStep
    | CoordinationError
    | Crashed

  datatype Continuation =
    | Continued(state: CarouselState)
    | MissingState
    | InvalidState
    | InvalidStep
    | IncompleteChildren
    | ParentRefused
    | NoIdReturned
    | ProviderApiError

  // ---------------------------------------------------------------- creating the children

  function Indices(n: nat): seq<int> {
    seq(n, i => i)
  }

  function FreshState(n: nat): CarouselState {
    CarouselState(ChildCreation, [], Indices(n), None)
  }

  function ResumedState(stored: ProviderState, n: nat): CarouselState {
    if stored.Carousel? then stored.state else FreshState(n)
  }

  function Without(s: seq<int>, x: int): seq<int> {
    if s == [] then [] else if s[0] == x then Without(s[1..], x) else [s[0]] + Without(s[1..], x)
  }

  function Persist(w: World, s: CarouselState, save: Save): World {
    if save.Saved? || save.written then w.(stored := Carousel(s)) else w
  }

  function AfterSave(save: Save): Option<Outcome> {
    match save
    case Saved => None
    case Refused(_) => Some(NetworkError)
    case Conflict(_) => Some(CoordinationError)
  }

  function AddChild(s: CarouselState, idx: int, id: string, t: MediaType): CarouselState {
    s.(completedChildren := s.completedChildren + [Child(idx, id, t)],
       pendingChildrenIndices := Without(s.pendingChildrenIndices, idx))
  }

  /** What one child's reply does to the world, the local state and the run. */
  function OneChild(w: World, s: CarouselState, idx: int, t: MediaType, reply: ChildReply)
    : (World, CarouselState, Option<Outcome>)
  {
    match reply
    case NoUrl => (w, s, Some(SignedUrlFailed))
    case NoNetwork => (w, s, Some(NetworkError))
    case Rejected => (w, s, Some(GraphError))
    case Created(id, save) =>
      if id == "" then (w, s, Some(GraphError))
      else
        var s' := AddChild(s, idx, id, t);
        (Persist(w.(created := w.created + [Container(idx, id)]), s', save), s', AfterSave(save))
  }

  /** The loop over the children still to be made; a run with no more replies has died. */
  function CreateChildren(media: seq<MediaType>, w: World, s: CarouselState, todo: seq<int>, replies: seq<ChildReply>)
    : (World, CarouselState, Option<Outcome>)
    decreases |todo|
  {
    if todo == [] then (w, s, None)
    else if replies == [] || !(0 <= todo[0] < |media|) then (w, s, Some(Crashed))
    else
      var (w', s', stop) := OneChild(w, s, todo[0], media[todo[0]], replies[0]);
      if stop.Some? then (w', s', stop) else CreateChildren(media, w', s', todo[1..], replies[1..])
  }

  /** The last save of a run that made every child; None means that the process died first. */
  function FinishCreation(w: World, s: CarouselState, last: Option<Save>): (World, Outcome) {
    if last.None? then (w, Crashed)
    else
      var s' := s.(step := ChildProcessing);
      (Persist(w, s', last.value),
       if AfterSave(last.value).Some? then AfterSave(last.value).value else Processing(s'))
  }

  function Prepare(media: seq<MediaType>, igId: string, signedUrls: bool, w: World,
                   replies: seq<ChildReply>, last: Option<Save>): (World, Outcome)
  {
    if igId == "" then (w, NoInstagramId)
    else if !(2 <= |media| <= 10) then (w, MediaCountInvalid)
    else if !signedUrls then (w, NoSignedUrlSupport)
    else
      var s := ResumedState(w.stored, |media|);
      match s.step
      case ParentProcessing => (w, UnknownStep)
      case ChildProcessing => (w, Processing(s))
      case ChildCreation =>
        var (w', s', stop) := CreateChildren(media, w, s, s.pendingChildrenIndices, replies);
        if stop.Some? then (w', stop.value) else FinishCreation(w', s', last)
  }

  // ---------------------------------------------------------------- the parent container

  /** Insertion before the first child whose order is not smaller: the sort is stable. */
  function InsertChild(c: Child, s: seq<Child>): seq<Child> {
    if s == [] || c.sortOrder <= s[0].sortOrder then [c] + s else [s[0]] + InsertChild(c, s[1..])
  }

  function SortChildren(s: seq<Child>): seq<Child> {
    if s == [] then [] else InsertChild(s[0], SortChildren(s[1..]))
  }

  function ContainerIds(s: seq<Child>): (ids: seq<string>)
    ensures |ids| == |s|
  {
    seq(|s|, i requires 0 <= i < |s| => s[i].containerId)
  }

  /** `saved` says whether the worker's commit of the new provider state went through. */
  function ContinuePreparation(n: nat, w: World, reply: ParentReply, saved: bool): (World, Continuation) {
    match w.stored
    case NoState => (w, MissingState)
    case Foreign => (w, InvalidState)
    case Carousel(s) =>
      if s.step == ParentProcessing && s.parentContainerId.Some? && s.parentContainerId.value != "" then
        (w, Continued(s))
      else if s.step != ChildProcessing then (w, InvalidStep)
      else if s.pendingChildrenIndices != [] || |s.completedChildren| != n then (w, IncompleteChildren)
      else
        match reply
        case ParentNoNetwork => (w, ProviderApiError)
        case ServerError => (w, ProviderApiError)
        case ParentRejected => (w, ParentRefused)
        case ParentCreated(id) =>
          if id == "" then (w, NoIdReturned)
          else
            var s' := s.(step := ParentProcessing, parentContainerId := Some(id));
            var posted := w.(parents := w.parents + [Parent(id, ContainerIds(SortChildren(s.completedChildren)))]);
            (if saved then posted.(stored := Carousel(s')) else posted, Continued(s'))
  }

  /** The container that the final mutation publishes, if finalization gets that far. */
  function FinalizeTarget(n: nat, stored: ProviderState, remoteResourceId: Option<string>): Option<string> {
    var target :=
      if stored.Carousel? then
        if stored.state.step == ParentProcessing then stored.state.parentContainerId else None
      else if n > 1 then None else remoteResourceId;
    if target == Some("") then None else target
  }

  // ---------------------------------------------------------------- the state a run may find

  predicate InRange(s: seq<int>, n: nat) {
    forall i | 0 <= i < |s| :: 0 <= s[i] < n
  }

  predicate Distinct(s: seq<int>) {
    forall i, j | 0 <= i < j < |s| :: s[i] != s[j]
  }

  function Orders(s: seq<Child>): (r: seq<int>)
    ensures |r| == |s|
  {
    seq(|s|, i requires 0 <= i < |s| => s[i].sortOrder)
  }

  /** Completed and pending indices together are exactly 0..n-1, each once. */
  predicate Partition(s: CarouselState, n: nat) {
    var all := Orders(s.completedChildren) + s.pendingChildrenIndices;
    |all| == n && InRange(all, n) && Distinct(all)
  }

  predicate ChildOk(c: Child, media: seq<MediaType>, created: seq<Container>) {
    0 <= c.sortOrder < |media| && c.mediaType == media[c.sortOrder] && Container(c.sortOrder, c.containerId) in created
  }

  /** Position i of the child list holds a container created for media item i. */
  predicate InMediaOrder(children: seq<string>, n: nat, created: seq<Container>) {
    |children| == n && forall i | 0 <= i < n :: Container(i, children[i]) in created
  }

  predicate StateOk(s: CarouselState, media: seq<MediaType>, created: seq<Container>) {
    && Partition(s, |media|)
    && (forall i | 0 <= i < |s.completedChildren| :: ChildOk(s.completedChildren[i], media, created))
    && (s.step != ChildCreation ==> s.pendingChildrenIndices == [])
  }

  ghost predicate ParentsOk(parents: seq<Parent>, n: nat, created: seq<Container>) {
    forall k | 0 <= k < |parents| :: parents[k].id != "" && InMediaOrder(parents[k].children, n, created)
  }

  predicate ParentStored(s: CarouselState, parents: seq<Parent>) {
    s.step == ParentProcessing ==>
      s.parentContainerId.Some? && exists k | 0 <= k < |parents| :: parents[k].id == s.parentContainerId.value
  }

  ghost predicate Good(w: World, media: seq<MediaType>) {
    && (w.stored.Carousel? ==> StateOk(w.stored.state, media, w.created) && ParentStored(w.stored.state, w.parents))
    && ParentsOk(w.parents, |media|, w.created)
  }

  // ---------------------------------------------------------------- the loop keeps the partition

  lemma {:induction false} WithoutHead(s: seq<int>, x: int)
    requires forall i | 0 <= i < |s| :: s[i] != x
    ensures Without(s, x) == s && Without([x] + s, x) == s
  {
    assert ([x] + s)[1..] == s;
    if s != [] {
      WithoutHead(s[1..], x);
      assert [s[0]] + s[1..] == s;
    }
  }

  /** In a partition the head of the pending list occurs once, so filtering it out drops just the head. */
  lemma HeadIsUnique(s: CarouselState, n: nat)
    requires Partition(s, n) && s.pendingChildrenIndices != []
    ensures var pending := s.pendingChildrenIndices;
      0 <= pending[0] < n && Without(pending, pending[0]) == pending[1..]
  {
    var done, pending := Orders(s.completedChildren), s.pendingChildrenIndices;
    assert (done + pending)[|done|] == pending[0];
    forall i | 0 <= i < |pending[1..]|
      ensures pending[1..][i] != pending[0]
    {
      assert (done + pending)[|done| + 1 + i] == pending[1..][i];
    }
    WithoutHead(pending[1..], pending[0]);
    assert [pending[0]] + pending[1..] == pending;
  }

  lemma AddChildOk(s: CarouselState, media: seq<MediaType>, created: seq<Container>, id: string)
    requires StateOk(s, media, created) && s.step == ChildCreation && s.pendingChildrenIndices != []
    ensures var idx := s.pendingChildrenIndices[0];
      && 0 <= idx < |media|
      && AddChild(s, idx, id, media[idx]).pendingChildrenIndices == s.pendingChildrenIndices[1..]
      && StateOk(AddChild(s, idx, id, media[idx]), media, created + [Container(idx, id)])
  {
    HeadIsUnique(s, |media|);
    var done, pending := Orders(s.completedChildren), s.pendingChildrenIndices;
    var idx := pending[0];
    var s' := AddChild(s, idx, id, media[idx]);
    assert Orders(s'.completedChildren) == done + [idx];
    assert (done + [idx]) + pending[1..] == done + pending;
  }

  lemma WorldGrows(w: World, media: seq<MediaType>, c: Container)
    requires Good(w, media)
    ensures Good(w.(created := w.created + [c]), media)
  {
  }

  /** Every child made by one run was pending when the run began, each at most once and in that order. */
  ghost predicate MadeFrom(before: seq<Container>, after: seq<Container>, todo: seq<int>) {
    && |before| <= |after| <= |before| + |todo|
    && after[..|before|] == before
    && forall i | 0 <= i < |after| - |before| :: after[|before| + i].index == todo[i]
  }

  lemma {:induction false} CreateChildrenGood(
      media: seq<MediaType>, w: World, s: CarouselState, todo: seq<int>, replies: seq<ChildReply>)
    requires Good(w, media) && StateOk(s, media, w.created)
    requires s.step == ChildCreation && s.pendingChildrenIndices == todo
    ensures var (w', s', stop) := CreateChildren(media, w, s, todo, replies);
      && Good(w', media) && StateOk(s', media, w'.created) && s'.step == ChildCreation
      && w'.parents == w.parents
      && MadeFrom(w.created, w'.created, todo)
      && (stop.Some? ==> !stop.value.Processing?)
      && (stop.None? ==> s'.pendingChildrenIndices == [] && |w'.created| == |w.created| + |todo|)
    decreases |todo|
  {
    if todo != [] && replies != [] {
      var idx := todo[0];
      match replies[0] {
        case Created(id, save) =>
          AddChildOk(s, media, w.created, id);
          if id != "" {
            WorldGrows(w, media, Container(idx, id));
            var (w1, s1, stop) := OneChild(w, s, idx, media[idx], replies[0]);
            assert Good(w1, media);
            if stop.None? {
              CreateChildrenGood(media, w1, s1, todo[1..], replies[1..]);
              var w2 := CreateChildren(media, w1, s1, todo[1..], replies[1..]).0;
              MadeAfterOne(w.created, Container(idx, id), w2.created, todo);
            }
          }
        case _ =>
      }
    }
  }

  lemma MadeAfterOne(before: seq<Container>, c: Container, after: seq<Container>, todo: seq<int>)
    requires todo != [] && c.index == todo[0] && MadeFrom(before + [c], after, todo[1..])
    ensures MadeFrom(before, after, todo)
  {
    assert after[..|before|] == after[..|before| + 1][..|before|] == before;
    forall i | 0 <= i < |after| - |before|
      ensures after[|before| + i].index == todo[i]
    {
      if i == 0 {
        assert after[|before|] == after[..|before| + 1][|before|];
      } else {
        assert after[|before + [c]| + (i - 1)].index == todo[1..][i - 1];
      }
    }
  }

  lemma FreshStateOk(media: seq<MediaType>, created: seq<Container>)
    ensures StateOk(FreshState(|media|), media, created)
  {
    var s := FreshState(|media|);
    assert Orders(s.completedChildren) + s.pendingChildrenIndices == Indices(|media|);
  }

  lemma Relabelled(s: CarouselState, step: CarouselStep, parent: Option<string>, media: seq<MediaType>, created: seq<Container>)
    requires StateOk(s, media, created) && s.pendingChildrenIndices == []
    ensures StateOk(s.(step := step), media, created)
    ensures StateOk(s.(step := step, parentContainerId := parent), media, created)
  {
  }

  lemma FinishGood(media: seq<MediaType>, w: World, s: CarouselState, last: Option<Save>)
    requires Good(w, media) && StateOk(s, media, w.created) && s.pendingChildrenIndices == []
    ensures var (w', o) := FinishCreation(w, s, last);
      && Good(w', media) && w'.parents == w.parents && w'.created == w.created
      && (o.Processing? ==> StateOk(o.state, media, w.created) && o.state.step == ChildProcessing)
  {
    Relabelled(s, ChildProcessing, None, media, w.created);
  }

  /** A run, resumed from whatever is persisted and stopped anywhere, keeps the partition and repeats no child. */
  lemma PrepareGood(media: seq<MediaType>, igId: string, signedUrls: bool, w: World,
                    replies: seq<ChildReply>, last: Option<Save>)
    requires Good(w, media)
    ensures var (w', o) := Prepare(media, igId, signedUrls, w, replies, last);
      && Good(w', media)
      && w'.parents == w.parents
      && MadeFrom(w.created, w'.created, ResumedState(w.stored, |media|).pendingChildrenIndices)
      && (o.Processing? ==>
            && StateOk(o.state, media, w'.created) && o.state.step == ChildProcessing
            && |w'.created| == |w.created| + |ResumedState(w.stored, |media|).pendingChildrenIndices|)
  {
    FreshStateOk(media, w.created);
    var s := ResumedState(w.stored, |media|);
    if s.step == ChildCreation {
      CreateChildrenGood(media, w, s, s.pendingChildrenIndices, replies);
      var (w', s', stop) := CreateChildren(media, w, s, s.pendingChildrenIndices, replies);
      if stop.None? {
        FinishGood(media, w', s', last);
      }
    }
  }

  // ---------------------------------------------------------------- the sort restores the media order

  predicate Ascending(s: seq<Child>) {
    forall i, j | 0 <= i < j < |s| :: s[i].sortOrder < s[j].sortOrder
  }

  lemma {:induction false} InsertAscending(c: Child, s: seq<Child>)
    requires Ascending(s) && forall i | 0 <= i < |s| :: s[i].sortOrder != c.sortOrder
    ensures var r := InsertChild(c, s);
      |r| == |s| + 1 && Ascending(r) && forall x :: x in r <==> x == c || x in s
  {
    if s != [] && c.sortOrder > s[0].sortOrder {
      InsertAscending(c, s[1..]);
      var tail := InsertChild(c, s[1..]);
      forall x
        ensures x in [s[0]] + tail <==> x == c || x in s
      {
        assert x in s <==> x == s[0] || x in s[1..];
      }
      forall j | 0 <= j < |tail|
        ensures s[0].sortOrder < tail[j].sortOrder
      {
        assert tail[j] in tail;
      }
    }
  }

  lemma {:induction false} SortAscending(s: seq<Child>)
    requires Distinct(Orders(s))
    ensures var r := SortChildren(s);
      |r| == |s| && Ascending(r) && forall x :: x in r <==> x in s
  {
    if s != [] {
      forall i, j | 0 <= i < j < |s[1..]|
        ensures Orders(s[1..])[i] != Orders(s[1..])[j]
      {
        assert Orders(s)[i + 1] != Orders(s)[j + 1];
      }
      SortAscending(s[1..]);
      var tail := SortChildren(s[1..]);
      forall k | 0 <= k < |tail|
        ensures tail[k].sortOrder != s[0].sortOrder
      {
        assert tail[k] in s[1..];
        var j :| 0 <= j < |s[1..]| && s[1..][j] == tail[k];
        assert Orders(s)[0] != Orders(s)[j + 1];
      }
      InsertAscending(s[0], tail);
    }
  }

  lemma {:induction false} AscendingLower(s: seq<Child>, i: nat)
    requires Ascending(s) && i < |s| && s[0].sortOrder >= 0
    ensures s[i].sortOrder >= i
  {
    if i > 0 {
      AscendingLower(s, i - 1);
    }
  }

  lemma {:induction false} AscendingUpper(s: seq<Child>, i: nat)
    requires Ascending(s) && i < |s| && s[|s| - 1].sortOrder < |s|
    ensures s[i].sortOrder <= i
    decreases |s| - i
  {
    if i < |s| - 1 {
      AscendingUpper(s, i + 1);
    }
  }

  /** The list posted with the parent: n ids, position i the container made for media item i. */
  lemma SortedIsMediaOrder(s: CarouselState, media: seq<MediaType>, created: seq<Container>)
    requires StateOk(s, media, created) && s.pendingChildrenIndices == []
    ensures InMediaOrder(ContainerIds(SortChildren(s.completedChildren)), |media|, created)
  {
    var done := s.completedChildren;
    assert Orders(done) + [] == Orders(done);
    SortAscending(done);
    var r := SortChildren(done);
    forall i | 0 <= i < |media|
      ensures Container(i, ContainerIds(r)[i]) in created
    {
      assert r[0] in done && r[|r| - 1] in done && r[i] in done;
      AscendingLower(r, i);
      AscendingUpper(r, i);
    }
  }

  lemma ContinueGood(media: seq<MediaType>, w: World, reply: ParentReply, saved: bool)
    requires Good(w, media)
    ensures var (w', c) := ContinuePreparation(|media|, w, reply, saved);
      && Good(w', media)
      && w'.created == w.created
      && (w'.parents != w.parents ==>
            && |w'.parents| == |w.parents| + 1
            && w'.parents[..|w.parents|] == w.parents
            && InMediaOrder(w'.parents[|w.parents|].children, |media|, w.created))
      && c != IncompleteChildren
  {
    var (w', c) := ContinuePreparation(|media|, w, reply, saved);
    if w.stored.Carousel? && w.stored.state.step != ChildCreation {
      var s := w.stored.state;
      assert |Orders(s.completedChildren) + s.pendingChildrenIndices| == |media|;
      SortedIsMediaOrder(s, media, w.created);
      if w'.parents != w.parents {
        assert w'.parents[|w.parents|].id == reply.id;
        Relabelled(s, ParentProcessing, Some(reply.id), media, w.created);
      }
    }
  }

  // ---------------------------------------------------------------- every run

  datatype Event =
    | EvPrepare(igId: string, signedUrls: bool, replies: seq<ChildReply>, last: Option<Save>)
    | EvContinue(reply: ParentReply, saved: bool)

  function Step(media: seq<MediaType>, w: World, e: Event): World {
    match e
    case EvPrepare(igId, signedUrls, replies, last) => Prepare(media, igId, signedUrls, w, replies, last).0
    case EvContinue(reply, saved) => ContinuePreparation(|media|, w, reply, saved).0
  }

  function Run(media: seq<MediaType>, w: World, events: seq<Event>): World
    decreases |events|
  {
    if events == [] then w else Run(media, Step(media, w, events[0]), events[1..])
  }

  lemma {:induction false} RunGood(media: seq<MediaType>, w: World, events: seq<Event>)
    requires Good(w, media)
    ensures Good(Run(media, w, events), media)
    decreases |events|
  {
    if events != [] {
      match events[0] {
        case EvPrepare(igId, signedUrls, replies, last) => PrepareGood(media, igId, signedUrls, w, replies, last);
        case EvContinue(reply, saved) => ContinueGood(media, w, reply, saved);
      }
      RunGood(media, Step(media, w, events[0]), events[1..]);
    }
  }

  /** Over every sequence of interrupted and resumed runs, the persisted indices partition 0..n-1
    * and every parent ever posted lists the children in media order. */
  lemma CarouselIsInMediaOrder(media: seq<MediaType>, events: seq<Event>)
    ensures var w := Run(media, World(NoState, [], []), events);
      && (w.stored.Carousel? ==> Partition(w.stored.state, |media|))
      && (forall k | 0 <= k < |w.parents| :: InMediaOrder(w.parents[k].children, |media|, w.created))
  {
    RunGood(media, World(NoState, [], []), events);
  }

  /** What a carousel's finalization publishes is a parent that was posted with every child, in media order. */
  lemma PublishedCarouselIsComplete(media: seq<MediaType>, events: seq<Event>, remoteResourceId: Option<string>)
    requires |media| > 1
    ensures var w := Run(media, World(NoState, [], []), events);
      var target := FinalizeTarget(|media|, w.stored, remoteResourceId);
      && (target.Some? ==> exists k | 0 <= k < |w.parents| ::
            w.parents[k].id == target.value && InMediaOrder(w.parents[k].children, |media|, w.created))
      && (target.Some? <==> w.stored.Carousel? && w.stored.state.step == ParentProcessing)
  {
    RunGood(media, World(NoState, [], []), events);
    var w := Run(media, World(NoState, [], []), events);
    if w.stored.Carousel? && w.stored.state.step == ParentProcessing {
      var k :| 0 <= k < |w.parents| && w.parents[k].id == w.stored.state.parentContainerId.value;
      assert w.parents[k].id != "" && InMediaOrder(w.parents[k].children, |media|, w.created);
    }
  }

  // ---------------------------------------------------------------- the loops themselves

  datatype Poll = Finished | InProgress | Errored | Expired | Unrecognized | NotFound | PollRefused | PollNoNetwork

  datatype Status = StatusProcessing | PreparationReady | StatusFailed(code: Poll) | StatusUnknown(code: Poll) | StatusError

  function Verdict(p: Poll): Status
    requires p != Finished && p != InProgress
  {
    match p
    case Errored => StatusFailed(p)
    case Expired => StatusFailed(p)
    case NotFound => StatusFailed(p)
    case PollNoNetwork => StatusError
    case _ => StatusUnknown(p)
  }

  predicate Healthy(p: Poll) {
    p == Finished || p == InProgress
  }

  /** An error or an expiry of the container is final, and so is its absence; a network failure is an error of ours,
    * and everything else leaves the outcome open. */
  lemma VerdictsAreExact(p: Poll)
    requires !Healthy(p)
    ensures Verdict(p).StatusFailed? <==> p == Errored || p == Expired || p == NotFound
    ensures Verdict(p) == StatusError <==> p == PollNoNetwork
    ensures Verdict(p).StatusUnknown? <==> p == Unrecognized || p == PollRefused
    ensures Verdict(p).StatusFailed? || Verdict(p).StatusUnknown? ==> Verdict(p).code == p
  {
  }

  /** Ready exactly when every child has finished; otherwise the first unhealthy child decides. */
  method CheckChildren(children: seq<Child>, poll: map<string, Poll>) returns (status: Status)
    requires forall i | 0 <= i < |children| :: children[i].containerId in poll
    ensures status == PreparationReady <==>
              forall i | 0 <= i < |children| :: poll[children[i].containerId] == Finished
    ensures status == StatusProcessing <==>
              && (forall i | 0 <= i < |children| :: Healthy(poll[children[i].containerId]))
              && (exists i | 0 <= i < |children| :: poll[children[i].containerId] == InProgress)
    ensures status != PreparationReady && status != StatusProcessing ==>
              exists i | 0 <= i < |children| ::
                && !Healthy(poll[children[i].containerId])
                && status == Verdict(poll[children[i].containerId])
                && forall j | 0 <= j < i :: Healthy(poll[children[j].containerId])
  {
    var allFinished := true;
    for i := 0 to |children|
      invariant forall j | 0 <= j < i :: Healthy(poll[children[j].containerId])
      invariant allFinished <==> forall j | 0 <= j < i :: poll[children[j].containerId] == Finished
    {
      var p := poll[children[i].containerId];
      if p == InProgress {
        allFinished := false;
      } else if p != Finished {
        return Verdict(p);
      }
    }
    status := if allFinished then PreparationReady else StatusProcessing;
  }

  /** One publication's carousel: the persisted provider state, and what exists remotely. */
  class CarouselPublisher {
    const media: seq<MediaType>
    var stored: ProviderState
    ghost var created: seq<Container>
    ghost var parents: seq<Parent>

    ghost function View(): World
      reads this
    {
      World(stored, created, parents)
    }

    ghost predicate Valid()
      reads this
    {
      Good(View(), media)
    }

    constructor (media: seq<MediaType>)
      ensures this.media == media && View() == World(NoState, [], []) && Valid()
    {
      this.media := media;
      stored, created, parents := NoState, [], [];
    }

    /** The persistence hook. */
    method OnRemotePrepared(state: CarouselState, save: Save)
      modifies this`stored
      ensures View() == Persist(old(View()), state, save)
    {
      if save.Saved? || save.written {
        stored := Carousel(state);
      }
    }

    method PublishInstagramCarousel(igId: string, signedUrls: bool, replies: seq<ChildReply>, last: Option<Save>)
      returns (outcome: Outcome)
      modifies this
      ensures (View(), outcome) == Prepare(media, igId, signedUrls, old(View()), replies, last)
      ensures old(Valid()) ==> Valid()
    {
      ghost var before := View();
      if Good(before, media) {
        PrepareGood(media, igId, signedUrls, before, replies, last);
      }
      if igId == "" {
        return NoInstagramId;
      }
      if !(2 <= |media| <= 10) {
        return MediaCountInvalid;
      }
      if !signedUrls {
        return NoSignedUrlSupport;
      }
      var state := FreshState(|media|);
      if stored.Carousel? {
        state := stored.state;
      }
      if state.step == ChildCreation {
        var todo := state.pendingChildrenIndices;
        ghost var whole := CreateChildren(media, before, state, todo, replies);
        for k := 0 to |todo|
          invariant k <= |replies|
          invariant CreateChildren(media, View(), state, todo[k..], replies[k..]) == whole
        {
          var idx := todo[k];
          if k == |replies| || !(0 <= idx < |media|) {
            return Crashed;
          }
          assert todo[k..][0] == idx && todo[k..][1..] == todo[k + 1..];
          assert replies[k..][0] == replies[k] && replies[k..][1..] == replies[k + 1..];
          match replies[k] {
            case NoUrl => return SignedUrlFailed;
            case NoNetwork => return NetworkError;
            case Rejected => return GraphError;
            case Created(id, save) =>
              if id == "" {
                return GraphError;
              }
              created := created + [Container(idx, id)];
              state := AddChild(state, idx, id, media[idx]);
              OnRemotePrepared(state, save);
              if save.Refused? {
                return NetworkError;
              } else if save.Conflict? {
                return CoordinationError;
              }
          }
        }
        if last.None? {
          return Crashed;
        }
        state := state.(step := ChildProcessing);
        OnRemotePrepared(state, last.value);
        if last.value.Refused? {
          return NetworkError;
        } else if last.value.Conflict? {
          return CoordinationError;
        }
      }
      if state.step == ChildProcessing {
        return Processing(state);
      }
      return UnknownStep;
    }
  }
}
