/** What a run of the carousel leaves: which children it made, what it remembers of them, and what it answers. */
module CarouselOutcomes {
  import opened Wrappers
  import opened InstagramCarousel

  // ---------------------------------------------------------------- how far a run gets

  predicate Makes(r: ChildReply) {
    r.Created? && r.id != ""
  }

  predicate GoesOn(r: ChildReply) {
    Makes(r) && r.save.Saved?
  }

  /** The hook's write took effect. */
  predicate Persisted(r: ChildReply)
    requires r.Created?
  {
    r.save.Saved? || r.save.written
  }

  /** The children made by the first `k` replies. */
  function Children(media: seq<MediaType>, todo: seq<int>, replies: seq<ChildReply>, k: nat): seq<Child>
    requires k <= |todo| && k <= |replies| && InRange(todo, |media|) && forall i | 0 <= i < k :: Makes(replies[i])
  {
    seq(k, i requires 0 <= i < k && Makes(replies[i]) => Child(todo[i], replies[i].id, media[todo[i]]))
  }

  function Containers(cs: seq<Child>): seq<Container> {
    seq(|cs|, i requires 0 <= i < |cs| => Container(cs[i].sortOrder, cs[i].containerId))
  }

  /** The replies up to the first that stops the run, among those it needs. */
  function Made(todo: nat, replies: seq<ChildReply>): nat {
    if todo == 0 || replies == [] || !Makes(replies[0]) then 0
    else if !replies[0].save.Saved? then 1
    else 1 + Made(todo - 1, replies[1..])
  }

  lemma {:induction false} MadeFacts(todo: nat, replies: seq<ChildReply>)
    ensures var k := Made(todo, replies);
      && k <= todo && k <= |replies|
      && (forall i | 0 <= i < k :: Makes(replies[i]))
      && (forall i | 0 <= i < k - 1 :: GoesOn(replies[i]))
      && (k < todo && k < |replies| && (k == 0 || GoesOn(replies[k - 1])) ==> !Makes(replies[k]))
  {
    if todo != 0 && replies != [] && GoesOn(replies[0]) {
      MadeFacts(todo - 1, replies[1..]);
      var k := Made(todo - 1, replies[1..]);
      forall i | 0 <= i < k
        ensures replies[1..][i] == replies[i + 1]
      {
      }
      assert k < |replies[1..]| ==> replies[1..][k] == replies[k + 1];
    }
  }

  /** The state with the first `j` children done. */
  function StateAfter(s: CarouselState, cs: seq<Child>, todo: seq<int>, j: nat): CarouselState
    requires j <= |cs| && j <= |todo|
  {
    s.(completedChildren := s.completedChildren + cs[..j], pendingChildrenIndices := todo[j..])
  }

  /** Why a loop that made `k` children stopped, if it did not make them all. */
  function Stop(todo: nat, replies: seq<ChildReply>, k: nat): Option<Outcome>
    requires k <= todo && k <= |replies|
  {
    if k > 0 && replies[k - 1].Created? && replies[k - 1].save.Refused? then Some(NetworkError)
    else if k > 0 && replies[k - 1].Created? && replies[k - 1].save.Conflict? then Some(CoordinationError)
    else if k == todo then None
    else if k == |replies| then Some(Crashed)
    else match replies[k]
      case NoUrl => Some(SignedUrlFailed)
      case NoNetwork => Some(NetworkError)
      case _ => Some(GraphError)
  }

  /** The number of children the persisted state knows of after the loop. */
  function Remembered(replies: seq<ChildReply>, k: nat): nat
    requires k <= |replies| && (k > 0 ==> replies[k - 1].Created?)
  {
    if k > 0 && !Persisted(replies[k - 1]) then k - 1 else k
  }

  lemma LaterState(s: CarouselState, cs: seq<Child>, todo: seq<int>, j: nat)
    requires cs != [] && todo != [] && j < |cs| && j < |todo|
    ensures StateAfter(StateAfter(s, cs, todo, 1), cs[1..], todo[1..], j) == StateAfter(s, cs, todo, j + 1)
  {
    assert cs[..1] + cs[1..][..j] == cs[..j + 1];
    assert todo[1..][j..] == todo[j + 1..];
  }

  lemma LaterStop(todo: nat, replies: seq<ChildReply>, k: nat)
    requires 0 < k <= todo && k <= |replies| && GoesOn(replies[0]) && (k > 1 ==> Makes(replies[k - 1]))
    ensures Stop(todo, replies, k) == Stop(todo - 1, replies[1..], k - 1)
    ensures Remembered(replies, k) == Remembered(replies[1..], k - 1) + 1
  {
    assert k > 1 ==> replies[1..][k - 2] == replies[k - 1];
    assert k < |replies| ==> replies[1..][k - 1] == replies[k];
  }

  lemma LaterChildren(media: seq<MediaType>, todo: seq<int>, replies: seq<ChildReply>, k: nat)
    requires 0 < k <= |todo| && k <= |replies| && InRange(todo, |media|) && forall i | 0 <= i < k :: Makes(replies[i])
    requires forall i | 0 <= i < k - 1 :: Makes(replies[1..][i])
    ensures InRange(todo[1..], |media|)
    ensures var cs := Children(media, todo, replies, k);
      && Children(media, todo[1..], replies[1..], k - 1) == cs[1..]
      && Containers(cs) == [Container(todo[0], replies[0].id)] + Containers(cs[1..])
  {
  }

  /** What the loop over `todo` leaves and answers. */
  ghost predicate LoopOutcome(media: seq<MediaType>, w: World, s: CarouselState, todo: seq<int>, replies: seq<ChildReply>,
                              w': World, s': CarouselState, stop: Option<Outcome>)
    requires InRange(todo, |media|)
  {
    var k := Made(|todo|, replies);
    && k <= |todo| && k <= |replies| && (forall i | 0 <= i < k :: Makes(replies[i]))
    && var cs := Children(media, todo, replies, k);
       && stop == Stop(|todo|, replies, k)
       && s' == StateAfter(s, cs, todo, k)
       && w' == World(if Remembered(replies, k) == 0 then w.stored
                      else Carousel(StateAfter(s, cs, todo, Remembered(replies, k))),
                      w.created + Containers(cs), w.parents)
  }

  lemma LoopGoesOn(media: seq<MediaType>, w: World, s: CarouselState, todo: seq<int>, replies: seq<ChildReply>,
                   w1: World, s1: CarouselState, w': World, s': CarouselState, stop: Option<Outcome>)
    requires InRange(todo, |media|) && todo != [] && replies != [] && GoesOn(replies[0])
    requires s1 == s.(completedChildren := s.completedChildren + [Child(todo[0], replies[0].id, media[todo[0]])],
                      pendingChildrenIndices := todo[1..])
    requires w1 == World(Carousel(s1), w.created + [Container(todo[0], replies[0].id)], w.parents)
    requires LoopOutcome(media, w1, s1, todo[1..], replies[1..], w', s', stop)
    ensures LoopOutcome(media, w, s, todo, replies, w', s', stop)
  {
    MadeFacts(|todo|, replies);
    var k := Made(|todo|, replies);
    LaterChildren(media, todo, replies, k);
    LaterStop(|todo|, replies, k);
    StatesLater(w, s, Children(media, todo, replies, k), todo, w1, s1, k - 1, Remembered(replies[1..], k - 1));
  }

  /** The same states seen from before and from after the first child. */
  lemma StatesLater(w: World, s: CarouselState, cs: seq<Child>, todo: seq<int>, w1: World, s1: CarouselState, k: nat, j: nat)
    requires todo != [] && |cs| <= |todo| && j <= k < |cs|
    requires s1 == s.(completedChildren := s.completedChildren + [cs[0]], pendingChildrenIndices := todo[1..])
    requires Containers(cs) == [Container(cs[0].sortOrder, cs[0].containerId)] + Containers(cs[1..])
    requires w1 == World(Carousel(s1), w.created + [Container(cs[0].sortOrder, cs[0].containerId)], w.parents)
    ensures StateAfter(s1, cs[1..], todo[1..], k) == StateAfter(s, cs, todo, k + 1)
    ensures w1.created + Containers(cs[1..]) == w.created + Containers(cs)
    ensures (if j == 0 then w1.stored else Carousel(StateAfter(s1, cs[1..], todo[1..], j))) == Carousel(StateAfter(s, cs, todo, j + 1))
  {
    assert cs[..1] == [cs[0]];
    assert s1 == StateAfter(s, cs, todo, 1);
    LaterState(s, cs, todo, k);
    LaterState(s, cs, todo, j);
  }

  lemma {:induction false} LoopExactly(media: seq<MediaType>, w: World, s: CarouselState, todo: seq<int>, replies: seq<ChildReply>)
    requires Good(w, media) && StateOk(s, media, w.created) && s.step == ChildCreation && s.pendingChildrenIndices == todo
    requires InRange(todo, |media|)
    ensures var (w', s', stop) := CreateChildren(media, w, s, todo, replies);
      LoopOutcome(media, w, s, todo, replies, w', s', stop)
    decreases |todo|
  {
    var (w', s', stop) := CreateChildren(media, w, s, todo, replies);
    if todo != [] && replies != [] && Makes(replies[0]) {
      var idx, reply := todo[0], replies[0];
      AddChildOk(s, media, w.created, reply.id);
      var (w1, s1, stop1) := OneChild(w, s, idx, media[idx], reply);
      if reply.save.Saved? {
        WorldGrows(w, media, Container(idx, reply.id));
        LoopExactly(media, w1, s1, todo[1..], replies[1..]);
        LoopGoesOn(media, w, s, todo, replies, w1, s1, w', s', stop);
      } else {
        LoopEnds(media, w, s, todo, replies);
      }
    } else {
      LoopNeverStarts(media, w, s, todo, replies);
    }
  }

  lemma LoopEnds(media: seq<MediaType>, w: World, s: CarouselState, todo: seq<int>, replies: seq<ChildReply>)
    requires InRange(todo, |media|) && todo != [] && replies != [] && Makes(replies[0]) && !replies[0].save.Saved?
    requires s.pendingChildrenIndices == todo && Without(todo, todo[0]) == todo[1..]
    ensures var (w', s', stop) := CreateChildren(media, w, s, todo, replies);
      LoopOutcome(media, w, s, todo, replies, w', s', stop)
  {
    var cs := Children(media, todo, replies, 1);
    assert Made(|todo|, replies) == 1;
    assert Containers(cs) == [Container(todo[0], replies[0].id)];
    assert cs[..1] == [Child(todo[0], replies[0].id, media[todo[0]])];
  }

  lemma LoopNeverStarts(media: seq<MediaType>, w: World, s: CarouselState, todo: seq<int>, replies: seq<ChildReply>)
    requires InRange(todo, |media|) && !(todo != [] && replies != [] && Makes(replies[0])) && s.pendingChildrenIndices == todo
    ensures var (w', s', stop) := CreateChildren(media, w, s, todo, replies);
      LoopOutcome(media, w, s, todo, replies, w', s', stop)
  {
    assert Made(|todo|, replies) == 0;
    var cs := Children(media, todo, replies, 0);
    assert Containers(cs) == [] && w.created + Containers(cs) == w.created;
    assert StateAfter(s, cs, todo, 0) == s;
  }

  // ---------------------------------------------------------------- a run of the preparation

  predicate Accepted(n: nat, igId: string, signedUrls: bool) {
    igId != "" && 2 <= n <= 10 && signedUrls
  }

  lemma PendingInRange(s: CarouselState, media: seq<MediaType>, created: seq<Container>)
    requires StateOk(s, media, created)
    ensures InRange(s.pendingChildrenIndices, |media|)
  {
    var done, pending := Orders(s.completedChildren), s.pendingChildrenIndices;
    forall i | 0 <= i < |pending|
      ensures 0 <= pending[i] < |media|
    {
      assert (done + pending)[|done| + i] == pending[i];
    }
  }

  /** The loop of a run that is still making children. */
  lemma RunLoops(media: seq<MediaType>, w: World, replies: seq<ChildReply>)
    requires Good(w, media) && ResumedState(w.stored, |media|).step == ChildCreation
    ensures var s := ResumedState(w.stored, |media|);
      var todo := s.pendingChildrenIndices;
      var (w', s', stop) := CreateChildren(media, w, s, todo, replies);
      && StateOk(s, media, w.created) && InRange(todo, |media|) && LoopOutcome(media, w, s, todo, replies, w', s', stop)
  {
    var s := ResumedState(w.stored, |media|);
    FreshStateOk(media, w.created);
    PendingInRange(s, media, w.created);
    LoopExactly(media, w, s, s.pendingChildrenIndices, replies);
  }

  /** Every pending child is made, and every save goes through. */
  predicate MakesAll(s: CarouselState, replies: seq<ChildReply>, last: Option<Save>) {
    var todo := |s.pendingChildrenIndices|;
    && s.step == ChildCreation && last == Some(Saved)
    && todo <= |replies| && forall i | 0 <= i < todo :: GoesOn(replies[i])
  }

  /** A run answers PROCESSING exactly if the request is acceptable and either the children were all made before, or
      every one that is pending is made now and every save goes through. */
  lemma PrepareSucceedsExactly(media: seq<MediaType>, igId: string, signedUrls: bool, w: World,
                               replies: seq<ChildReply>, last: Option<Save>)
    requires Good(w, media)
    ensures var s := ResumedState(w.stored, |media|);
      var (w', o) := Prepare(media, igId, signedUrls, w, replies, last);
      && (o.Processing? <==> Accepted(|media|, igId, signedUrls) && (s.step == ChildProcessing || MakesAll(s, replies, last)))
      && (o.Processing? ==> w'.stored == Carousel(o.state) && o.state.step == ChildProcessing)
  {
    var s := ResumedState(w.stored, |media|);
    if s.step == ChildCreation {
      LoopAnswers(media, w, replies);
      if Accepted(|media|, igId, signedUrls) {
        PrepareOf(media, igId, signedUrls, w, replies, last);
        var (w1, s1, stop) := CreateChildren(media, w, s, s.pendingChildrenIndices, replies);
        assert MakesAll(s, replies, last) <==> stop.None? && last == Some(Saved);
      }
    }
  }

  /** The loop goes through exactly if every reply it needs lets it go on. */
  lemma LoopAnswers(media: seq<MediaType>, w: World, replies: seq<ChildReply>)
    requires Good(w, media) && ResumedState(w.stored, |media|).step == ChildCreation
    ensures var s, todo := ResumedState(w.stored, |media|), |ResumedState(w.stored, |media|).pendingChildrenIndices|;
      var (w', s', stop) := CreateChildren(media, w, s, s.pendingChildrenIndices, replies);
      && (stop.None? <==> todo <= |replies| && forall i | 0 <= i < todo :: GoesOn(replies[i]))
      && (stop.Some? ==> !stop.value.Processing?)
  {
    RunLoops(media, w, replies);
    AllMade(|ResumedState(w.stored, |media|).pendingChildrenIndices|, replies);
  }

  /** A run that makes children ends as its loop ends, or with the last save. */
  lemma PrepareOf(media: seq<MediaType>, igId: string, signedUrls: bool, w: World,
                  replies: seq<ChildReply>, last: Option<Save>)
    requires Accepted(|media|, igId, signedUrls) && ResumedState(w.stored, |media|).step == ChildCreation
    ensures var s := ResumedState(w.stored, |media|);
      var (w', s', stop) := CreateChildren(media, w, s, s.pendingChildrenIndices, replies);
      var done := s'.(step := ChildProcessing);
      var whole := Prepare(media, igId, signedUrls, w, replies, last);
      && (stop.Some? ==> whole == (w', stop.value))
      && (stop.None? ==> (whole.1.Processing? <==> last == Some(Saved)))
      && (stop.None? && last == Some(Saved) ==> whole == (w'.(stored := Carousel(done)), Processing(done)))
      && (stop.None? ==> whole.0 == w' || whole.0 == w'.(stored := Carousel(done)))
  {
  }

  lemma {:induction false} AllMade(todo: nat, replies: seq<ChildReply>)
    ensures var k := Made(todo, replies);
      k <= todo && k <= |replies| &&
      (Stop(todo, replies, k).None? <==> todo <= |replies| && forall i | 0 <= i < todo :: GoesOn(replies[i]))
  {
    MadeFacts(todo, replies);
    var k := Made(todo, replies);
    if k < todo && k < |replies| && (k == 0 || GoesOn(replies[k - 1])) {
      assert !GoesOn(replies[k]);
    }
  }

  /** What a run refuses before it makes anything. */
  lemma PrepareRefusesExactly(media: seq<MediaType>, igId: string, signedUrls: bool, w: World,
                              replies: seq<ChildReply>, last: Option<Save>)
    requires Good(w, media)
    ensures var (w', o) := Prepare(media, igId, signedUrls, w, replies, last);
      && (o == NoInstagramId <==> igId == "")
      && (o == MediaCountInvalid <==> igId != "" && !(2 <= |media| <= 10))
      && (o == NoSignedUrlSupport <==> igId != "" && 2 <= |media| <= 10 && !signedUrls)
      && (o == UnknownStep <==> Accepted(|media|, igId, signedUrls) && ResumedState(w.stored, |media|).step == ParentProcessing)
      && (RefusedBefore(o) ==> w' == w)
  {
    if Accepted(|media|, igId, signedUrls) && ResumedState(w.stored, |media|).step == ChildCreation {
      LoopFailsItself(media, w, replies);
      CreationFailsItself(media, igId, signedUrls, w, replies, last);
    }
  }

  predicate RefusedBefore(o: Outcome) {
    o == NoInstagramId || o == MediaCountInvalid || o == NoSignedUrlSupport || o == UnknownStep
  }

  lemma LoopFailsItself(media: seq<MediaType>, w: World, replies: seq<ChildReply>)
    requires Good(w, media) && ResumedState(w.stored, |media|).step == ChildCreation
    ensures var s := ResumedState(w.stored, |media|);
      var stop := CreateChildren(media, w, s, s.pendingChildrenIndices, replies).2;
      stop.Some? ==> !RefusedBefore(stop.value)
  {
    RunLoops(media, w, replies);
  }

  lemma CreationFailsItself(media: seq<MediaType>, igId: string, signedUrls: bool, w: World,
                            replies: seq<ChildReply>, last: Option<Save>)
    requires Accepted(|media|, igId, signedUrls) && ResumedState(w.stored, |media|).step == ChildCreation
    requires var s := ResumedState(w.stored, |media|);
      var stop := CreateChildren(media, w, s, s.pendingChildrenIndices, replies).2;
      stop.Some? ==> !RefusedBefore(stop.value)
    ensures !RefusedBefore(Prepare(media, igId, signedUrls, w, replies, last).1)
  {
  }

  /** From `w` to `w'` the containers of the children made have been added, and a next run would resume after all of
      them, or after all but the last if its save did not take effect. */
  ghost predicate Remembers(media: seq<MediaType>, w: World, s: CarouselState, todo: seq<int>, replies: seq<ChildReply>, w': World)
    requires InRange(todo, |media|)
  {
    var k := Made(|todo|, replies);
    && k <= |todo| && k <= |replies| && (forall i | 0 <= i < k :: Makes(replies[i]))
    && var cs := Children(media, todo, replies, k);
       var j := if k > 0 && !Persisted(replies[k - 1]) then k - 1 else k;
       var next := ResumedState(w'.stored, |media|);
       && w'.created == w.created + Containers(cs)
       && next.completedChildren == s.completedChildren + cs[..j] && next.pendingChildrenIndices == todo[j..]
  }

  /** A run that dies anywhere, or whose saves fail, loses at most the last child it made, and that one exactly if
      its save did not take effect: the next run resumes after all the others. */
  lemma ChildrenAreRemembered(media: seq<MediaType>, igId: string, signedUrls: bool, w: World,
                              replies: seq<ChildReply>, last: Option<Save>) returns (w': World)
    requires Good(w, media) && Accepted(|media|, igId, signedUrls)
    requires ResumedState(w.stored, |media|).step == ChildCreation
    ensures w' == Prepare(media, igId, signedUrls, w, replies, last).0
    ensures var s := ResumedState(w.stored, |media|);
      InRange(s.pendingChildrenIndices, |media|) && Remembers(media, w, s, s.pendingChildrenIndices, replies, w')
  {
    w' := Prepare(media, igId, signedUrls, w, replies, last).0;
    RunLoops(media, w, replies);
    PrepareOf(media, igId, signedUrls, w, replies, last);
    var s := ResumedState(w.stored, |media|);
    var (w1, s1, stop) := CreateChildren(media, w, s, s.pendingChildrenIndices, replies);
    LoopRemembers(media, w, s, s.pendingChildrenIndices, replies, w1, s1, stop);
    if stop.None? && w' != w1 {
      LastSaveRemembers(media, w, s, s.pendingChildrenIndices, replies, w1, s1);
    }
  }

  lemma LoopRemembers(media: seq<MediaType>, w: World, s: CarouselState, todo: seq<int>, replies: seq<ChildReply>,
                      w1: World, s1: CarouselState, stop: Option<Outcome>)
    requires InRange(todo, |media|) && s == ResumedState(w.stored, |media|) && s.pendingChildrenIndices == todo
    requires LoopOutcome(media, w, s, todo, replies, w1, s1, stop)
    ensures Remembers(media, w, s, todo, replies, w1)
  {
    var k := Made(|todo|, replies);
    assert StateAfter(s, Children(media, todo, replies, k), todo, 0) == s;
  }

  lemma LastSaveRemembers(media: seq<MediaType>, w: World, s: CarouselState, todo: seq<int>, replies: seq<ChildReply>,
                          w1: World, s1: CarouselState)
    requires InRange(todo, |media|) && LoopOutcome(media, w, s, todo, replies, w1, s1, None)
    ensures Remembers(media, w, s, todo, replies, w1.(stored := Carousel(s1.(step := ChildProcessing))))
  {
  }

  // ---------------------------------------------------------------- the parent and the final mutation

  /** The parent is posted exactly if all children are made and the provider creates it; a parent that is already
      recorded is not posted again. */
  lemma ContinueSucceedsExactly(media: seq<MediaType>, w: World, reply: ParentReply, saved: bool)
    requires Good(w, media)
    ensures var (w', c) := ContinuePreparation(|media|, w, reply, saved);
      var recorded := w.stored.Carousel? && w.stored.state.step == ParentProcessing;
      var ready := w.stored.Carousel? && w.stored.state.step == ChildProcessing;
      var made := reply.ParentCreated? && reply.id != "";
      && (c.Continued? <==> recorded || (ready && made))
      && (w'.parents != w.parents <==> ready && made)
      && (recorded ==> w' == w && c == Continued(w.stored.state))
      && (ready && made ==>
            var next := w.stored.state.(step := ParentProcessing, parentContainerId := Some(reply.id));
            && w'.parents[|w.parents|].id == reply.id && c == Continued(next)
            && w'.stored == if saved then Carousel(next) else w.stored)
      && (!(ready && made) ==> w' == w)
  {
    if w.stored.Carousel? {
      var s := w.stored.state;
      assert |Orders(s.completedChildren) + s.pendingChildrenIndices| == |media|;
      if s.step == ParentProcessing {
        var k :| 0 <= k < |w.parents| && w.parents[k].id == s.parentContainerId.value;
        assert w.parents[k].id != "";
      }
    }
  }

  /** Every other answer says what was wrong. */
  lemma ContinueRefusesExactly(media: seq<MediaType>, w: World, reply: ParentReply, saved: bool)
    requires Good(w, media)
    ensures var c := ContinuePreparation(|media|, w, reply, saved).1;
      var ready := w.stored.Carousel? && w.stored.state.step == ChildProcessing;
      && (c == MissingState <==> w.stored == NoState) && (c == InvalidState <==> w.stored == Foreign)
      && (c == InvalidStep <==> w.stored.Carousel? && w.stored.state.step == ChildCreation)
      && (c == ParentRefused <==> ready && reply == ParentRejected)
      && (c == ProviderApiError <==> ready && (reply == ParentNoNetwork || reply == ServerError))
      && (c == NoIdReturned <==> ready && reply == ParentCreated(""))
  {
    ContinueSucceedsExactly(media, w, reply, saved);
    if w.stored.Carousel? {
      var s := w.stored.state;
      assert |Orders(s.completedChildren) + s.pendingChildrenIndices| == |media|;
    }
  }

  /** Without a carousel the one container of a single item is published, and nothing otherwise. */
  lemma SingleIsFinalized(n: nat, stored: ProviderState, remoteResourceId: Option<string>)
    requires !stored.Carousel?
    ensures var target := FinalizeTarget(n, stored, remoteResourceId);
      target == if n <= 1 && remoteResourceId.Some? && remoteResourceId.value != "" then remoteResourceId else None
  {
  }

  /** An undisturbed carousel, from nothing: every child is made, in order, the parent lists exactly them, and it is
      what finalization publishes. */
  lemma CarouselCompletes(media: seq<MediaType>, igId: string, replies: seq<ChildReply>, id: string, remoteResourceId: Option<string>)
    returns (w: World)
    requires Accepted(|media|, igId, true) && |media| <= |replies| && id != ""
    requires forall i | 0 <= i < |media| :: GoesOn(replies[i])
    ensures w == Run(media, World(NoState, [], []),
                     [EvPrepare(igId, true, replies, Some(Saved)), EvContinue(ParentCreated(id), true)])
    ensures FinalizeTarget(|media|, w.stored, remoteResourceId) == Some(id)
    ensures |w.parents| == 1 && w.parents[0].id == id && |w.parents[0].children| == |media|
    ensures forall i | 0 <= i < |media| :: GoesOn(replies[i]) && w.parents[0].children[i] == replies[i].id
  {
    var w1 := PreparedInOrder(media, igId, replies);
    w := ContinuePreparation(|media|, w1, ParentCreated(id), true).0;
    ContinueSucceedsExactly(media, w1, ParentCreated(id), true);
    ContinueGood(media, w1, ParentCreated(id), true);
    forall i | 0 <= i < |media|
      ensures GoesOn(replies[i]) && w.parents[0].children[i] == replies[i].id
    {
      assert Container(i, w.parents[0].children[i]) in w1.created;
    }
    RunTwo(media, World(NoState, [], []), EvPrepare(igId, true, replies, Some(Saved)), EvContinue(ParentCreated(id), true));
  }

  lemma RunTwo(media: seq<MediaType>, w: World, e: Event, f: Event)
    ensures Run(media, w, [e, f]) == Step(media, Step(media, w, e), f)
  {
    assert [e, f][1..] == [f] && [f][1..] == [];
    assert Run(media, Step(media, w, e), [f]) == Run(media, Step(media, Step(media, w, e), f), []);
  }

  lemma PreparedInOrder(media: seq<MediaType>, igId: string, replies: seq<ChildReply>) returns (w: World)
    requires Accepted(|media|, igId, true) && |media| <= |replies| && forall i | 0 <= i < |media| :: GoesOn(replies[i])
    ensures w == Step(media, World(NoState, [], []), EvPrepare(igId, true, replies, Some(Saved)))
    ensures Good(w, media) && w.stored.Carousel? && w.stored.state.step == ChildProcessing && w.parents == []
    ensures |w.created| == |media| && forall i | 0 <= i < |media| :: GoesOn(replies[i]) && w.created[i] == Container(i, replies[i].id)
  {
    var w0 := World(NoState, [], []);
    w := Prepare(media, igId, true, w0, replies, Some(Saved)).0;
    PrepareGood(media, igId, true, w0, replies, Some(Saved));
    PrepareSucceedsExactly(media, igId, true, w0, replies, Some(Saved));
    CreatedInOrder(media, igId, replies, w);
  }

  lemma CreatedInOrder(media: seq<MediaType>, igId: string, replies: seq<ChildReply>, w: World)
    requires Accepted(|media|, igId, true) && |media| <= |replies| && forall i | 0 <= i < |media| :: GoesOn(replies[i])
    requires w == Prepare(media, igId, true, World(NoState, [], []), replies, Some(Saved)).0
    ensures |w.created| == |media|
    ensures forall i | 0 <= i < |media| :: GoesOn(replies[i]) && w.created[i] == Container(i, replies[i].id)
  {
    var w' := ChildrenAreRemembered(media, igId, true, World(NoState, [], []), replies, Some(Saved));
    AllAreMade(|media|, replies);
    InOrder(media, World(NoState, [], []), FreshState(|media|), replies, w);
  }

  lemma {:induction false} AllAreMade(todo: nat, replies: seq<ChildReply>)
    requires todo <= |replies| && forall i | 0 <= i < todo :: GoesOn(replies[i])
    ensures Made(todo, replies) == todo
  {
    if todo > 0 {
      AllAreMade(todo - 1, replies[1..]);
    }
  }

  lemma InOrder(media: seq<MediaType>, w: World, s: CarouselState, replies: seq<ChildReply>, w': World)
    requires w.created == [] && Made(|media|, replies) == |media| && InRange(Indices(|media|), |media|)
    requires Remembers(media, w, s, Indices(|media|), replies, w')
    ensures |w'.created| == |media|
    ensures forall i | 0 <= i < |media| :: Makes(replies[i]) && w'.created[i] == Container(i, replies[i].id)
  {
  }
}
