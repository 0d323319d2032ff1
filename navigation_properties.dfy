module NavigationProperties {
  import opened Wrappers
  import opened Navigation

  function Nexts(k: nat): (r: seq<Verdict>)
    ensures |r| == k && forall i :: 0 <= i < k ==> r[i] == Next
  {
    seq(k, _ => Next)
  }

  lemma {:induction false} ScanAllNext(n: nat, c: nat, replies: seq<Verdict>)
    requires c < n <= c + |replies|
    requires forall i :: 0 <= i < n - c ==> replies[i] == Next
    ensures Scan(n, c, replies) == Exhausted
    decreases n - c
  {
    if c + 1 < n {
      ScanAllNext(n, c + 1, replies[1..]);
    }
  }

  lemma {:induction false} ScanFirstVerdict(n: nat, c: nat, replies: seq<Verdict>, k: nat)
    requires c + k < n && k < |replies| && replies[k] != Next
    requires forall i :: 0 <= i < k ==> replies[i] == Next
    ensures Scan(n, c, replies) == Decided(replies[k], c + k)
    decreases k
  {
    if k > 0 {
      ScanFirstVerdict(n, c + 1, replies[1..], k - 1);
    }
  }

  /** Every history of `hs` extended by `tail`. */
  function Extend(hs: seq<seq<Event>>, tail: seq<Event>): (r: seq<seq<Event>>)
    ensures |r| == |hs| && forall j :: 0 <= j < |hs| ==> r[j] == hs[j] + tail
  {
    seq(|hs|, j requires 0 <= j < |hs| => hs[j] + tail)
  }

  lemma ExtendBroadcast(hs: seq<seq<Event>>, tail: seq<Event>, e: Event)
    ensures Broadcast(Extend(hs, tail), e) == Extend(hs, tail + [e])
  {
    var l := Broadcast(Extend(hs, tail), e);
    var r := Extend(hs, tail + [e]);
    forall j | 0 <= j < |hs| ensures l[j] == r[j] {
      assert hs[j] + tail + [e] == hs[j] + (tail + [e]);
    }
  }

  lemma ExtendTwice(hs: seq<seq<Event>>, t1: seq<Event>, t2: seq<Event>)
    ensures Extend(Extend(hs, t1), t2) == Extend(hs, t1 + t2)
  {
    var l := Extend(Extend(hs, t1), t2);
    forall j | 0 <= j < |hs| ensures l[j] == hs[j] + (t1 + t2) {
      assert hs[j] + t1 + t2 == hs[j] + (t1 + t2);
    }
  }

  lemma AskThenRest(hs: seq<seq<Event>>, k: nat, e: Event)
    requires k < |hs|
    ensures AppendTo(AppendTo(hs, 0, 1, e), 1, k + 1, e) == AppendTo(hs, 0, k + 1, e)
  {
  }

  /** A plain load: responder 0 is asked about the new action, which supersedes any pending decision. */
  lemma LoadAsksFirst(s: DelegateState, url: string, t: NavigationType)
    requires Valid(s) && |s.histories| > 0 && !t.Redirect?
    ensures var a := NavigationAction(s.actionCount, url, t, []);
      LoadRequest(s, url, t) == s.(histories := AppendTo(s.histories, 0, 1, NavigationActionEvent(a)),
        actionCount := s.actionCount + 1, pending := Some(Decision(ActionDecision(a), 0)))
  {
  }

  /** With responder 0 asked, replies `next` from responders 0..k-1 and `verdict` from k: responders 0..k are
      asked and `verdict` decides. */
  lemma ReplyDecidedAt(s: DelegateState, subject: Subject, hs: seq<seq<Event>>, k: nat, verdict: Verdict)
    requires Valid(s) && k < |s.histories| == |hs| && s.pending == Some(Decision(subject, 0)) && verdict != Next
    requires subject.ResponseDecision? ==> subject.navId < |s.navs|
    requires s.histories == AppendTo(hs, 0, 1, AskEvent(s, subject))
    ensures Reply(s, subject, Nexts(k) + [verdict])
      == Resolve(s.(histories := AppendTo(hs, 0, k + 1, AskEvent(s, subject)), pending := None), subject, Decided(verdict, k))
  {
    ScanFirstVerdict(|hs|, 0, Nexts(k) + [verdict], k);
    AskThenRest(hs, k, AskEvent(s, subject));
  }

  /** With responder 0 asked, every responder says `next`: all are asked and the decision resolves as allowed. */
  lemma ReplyAllNext(s: DelegateState, subject: Subject, hs: seq<seq<Event>>)
    requires Valid(s) && 0 < |s.histories| == |hs| && s.pending == Some(Decision(subject, 0))
    requires subject.ResponseDecision? ==> subject.navId < |s.navs|
    requires s.histories == AppendTo(hs, 0, 1, AskEvent(s, subject))
    ensures Reply(s, subject, Nexts(|hs|))
      == Resolve(s.(histories := Broadcast(hs, AskEvent(s, subject)), pending := None), subject, Exhausted)
  {
    ScanAllNext(|hs|, 0, Nexts(|hs|));
    AskThenRest(hs, |hs| - 1, AskEvent(s, subject));
  }

  /** The events of a navigation from its start to its finish, every responder asked about the response. */
  function StartToFinish(a: NavigationAction, resp: Response): seq<Event> {
    [ DidStart(Nav(a, Started, None, false, true)),
      ResponseEvent(Nav(a, ResponseReceived, Some(resp), false, true)),
      DidCommit(Nav(a, ResponseReceived, Some(resp), true, true)),
      DidFinish(Nav(a, Finished, Some(resp), true, true)) ]
  }

  /** Navigation `id` starts, receives `resp`, and every responder says `next` to it. */
  function Responded(s: DelegateState, id: nat, resp: Response): (r: DelegateState)
    requires Valid(s)
    ensures Valid(r) && |r.histories| == |s.histories|
  {
    Reply(ReceiveResponse(Start(s, id), id, resp), ResponseDecision(id), Nexts(|s.histories|))
  }

  /** Navigation `id` commits and finishes. */
  function Completed(s: DelegateState, id: nat): (r: DelegateState)
    requires Valid(s)
    ensures Valid(r) && |r.histories| == |s.histories|
  {
    Finish(Commit(s, id), id)
  }

  /** An approved navigation starts and its response is allowed by every responder. */
  lemma StartAndRespond(s: DelegateState, id: nat, resp: Response)
    requires Valid(s) && |s.histories| > 0 && id + 1 == |s.navs| && s.navs[id].state == Approved
    requires s.navs[id].response == None && !s.navs[id].committed
    ensures var a := s.navs[id].action;
      Responded(s, id, resp) == s.(navs := s.navs[id := Navigation(a, ResponseReceived, Some(resp), false)], current := Some(id),
        pending := None, histories := Extend(s.histories, StartToFinish(a, resp)[..2]))
  {
    var a := s.navs[id].action;
    var T := StartToFinish(a, resp);
    var s3 := Start(s, id);
    assert s3.histories == Extend(s.histories, [T[0]]);
    var s4 := ReceiveResponse(s3, id, resp);
    ReplyAllNext(s4, ResponseDecision(id), s3.histories);
    ExtendBroadcast(s.histories, [T[0]], T[1]);
    assert [T[0]] + [T[1]] == T[..2];
  }

  /** A started navigation with its response commits and finishes. */
  lemma CommitAndFinish(s: DelegateState, id: nat, resp: Response)
    requires Valid(s) && s.current == Some(id) && id < |s.navs|
    requires s.navs[id] == Navigation(s.navs[id].action, ResponseReceived, Some(resp), false)
    ensures var a := s.navs[id].action;
      Completed(s, id) == s.(navs := s.navs[id := Navigation(a, Finished, Some(resp), true)],
        histories := Extend(s.histories, StartToFinish(a, resp)[2..]))
  {
    var a := s.navs[id].action;
    var T := StartToFinish(a, resp);
    var s6 := Commit(s, id);
    assert s6.histories == Extend(s.histories, [T[2]]);
    ExtendBroadcast(s.histories, [T[2]], T[3]);
    assert [T[2]] + [T[3]] == T[2..];
  }

  /** The events of an approved action: it is asked about, then it will start, not yet current. */
  function Proposal(a: NavigationAction): seq<Event> {
    [NavigationActionEvent(a), WillStart(Nav(a, Approved, None, false, false))]
  }

  /** The first load of a delegate, allowed by every responder. */
  function FirstLoad(n: nat, url: string): (s: DelegateState)
    ensures Valid(s) && |s.histories| == n
  {
    var s1 := LoadRequest(Initial(n), url, Other);
    Reply(s1, ActionDecision(NavigationAction(0, url, Other, [])), Nexts(n))
  }

  lemma FirstLoadApproved(n: nat, url: string)
    requires n > 0
    ensures var a := NavigationAction(0, url, Other, []);
      FirstLoad(n, url) == DelegateState(Extend(Initial(n).histories, Proposal(a)), [Navigation(a, Approved, None, false)], None, None, 1)
  {
    var a := NavigationAction(0, url, Other, []);
    var s0 := Initial(n);
    LoadAsksFirst(s0, url, Other);
    var s1 := LoadRequest(s0, url, Other);
    ReplyAllNext(s1, ActionDecision(a), s0.histories);
    assert [NavigationActionEvent(a)] == Proposal(a)[..1];
    assert Broadcast(s0.histories, NavigationActionEvent(a)) == Extend(s0.histories, Proposal(a)[..1]);
    ExtendBroadcast(s0.histories, Proposal(a)[..1], Proposal(a)[1]);
    assert Proposal(a)[..1] + [Proposal(a)[1]] == Proposal(a);
  }

  /** When every responder says `next` to the action and to the response, every responder sees the whole
      lifecycle in order: asked, will start, started, response, committed, finished. */
  lemma AllNextLifecycle(n: nat, url: string, resp: Response)
    requires n > 0
    ensures
      var a := NavigationAction(0, url, Other, []);
      var s := Completed(Responded(FirstLoad(n, url), 0, resp), 0);
      && s.navs == [Navigation(a, Finished, Some(resp), true)]
      && forall j :: 0 <= j < n ==> s.histories[j] == Proposal(a) + StartToFinish(a, resp)
  {
    var a := NavigationAction(0, url, Other, []);
    FirstLoadApproved(n, url);
    var s2 := FirstLoad(n, url);
    StartAndRespond(s2, 0, resp);
    var s3 := Responded(s2, 0, resp);
    CommitAndFinish(s3, 0, resp);
    var T := StartToFinish(a, resp);
    var h0 := Initial(n).histories;
    ExtendTwice(h0, Proposal(a), T[..2]);
    ExtendTwice(h0, Proposal(a) + T[..2], T[2..]);
    assert Proposal(a) + T[..2] + T[2..] == Proposal(a) + T;
    assert Completed(s3, 0).histories == Extend(h0, Proposal(a) + T);
  }

  /** A `cancel` from responder k on an action: responders 0..k have been asked, responders after k are never
      asked and get no event at all, and no navigation starts. */
  lemma CancelStopsChain(s: DelegateState, url: string, t: NavigationType, k: nat)
    requires Valid(s) && k < |s.histories| && !t.Redirect?
    ensures var a := NavigationAction(s.actionCount, url, t, []);
      var r := Reply(LoadRequest(s, url, t), ActionDecision(a), Nexts(k) + [Cancel]);
      && r.navs == s.navs && r.current == s.current && r.pending == None
      && forall j :: 0 <= j < |s.histories| ==>
           r.histories[j] == s.histories[j] + (if j <= k then [NavigationActionEvent(a)] else [])
  {
    var a := NavigationAction(s.actionCount, url, t, []);
    LoadAsksFirst(s, url, t);
    ReplyDecidedAt(LoadRequest(s, url, t), ActionDecision(a), s.histories, k, Cancel);
  }

  /** An `allow` from responder k on an action: responders after k are not asked, but every responder is told
      that the navigation will start. */
  lemma AllowSkipsRest(s: DelegateState, url: string, t: NavigationType, k: nat)
    requires Valid(s) && k < |s.histories| && !t.Redirect?
    ensures var a := NavigationAction(s.actionCount, url, t, []);
      var r := Reply(LoadRequest(s, url, t), ActionDecision(a), Nexts(k) + [Allow]);
      && r.navs == s.navs + [Navigation(a, Approved, None, false)] && r.current == None && r.pending == None
      && forall j :: 0 <= j < |s.histories| ==>
           r.histories[j] == s.histories[j] + (if j <= k then Proposal(a) else Proposal(a)[1..])
  {
    var a := NavigationAction(s.actionCount, url, t, []);
    LoadAsksFirst(s, url, t);
    ReplyDecidedAt(LoadRequest(s, url, t), ActionDecision(a), s.histories, k, Allow);
  }

  /** The lifecycle when responder k allows the first action: responders 0..k see it all, the later ones see
      everything from `willStart` on, and are still asked about the response. */
  lemma AllowLifecycle(n: nat, url: string, k: nat, resp: Response)
    requires k < n
    ensures
      var a := NavigationAction(0, url, Other, []);
      var s := Completed(Responded(Reply(LoadRequest(Initial(n), url, Other), ActionDecision(a), Nexts(k) + [Allow]), 0, resp), 0);
      && s.navs == [Navigation(a, Finished, Some(resp), true)]
      && forall j :: 0 <= j < n ==>
           s.histories[j] == (if j <= k then Proposal(a) else Proposal(a)[1..]) + StartToFinish(a, resp)
  {
    var a := NavigationAction(0, url, Other, []);
    var s0 := Initial(n);
    AllowSkipsRest(s0, url, Other, k);
    var s2 := Reply(LoadRequest(s0, url, Other), ActionDecision(a), Nexts(k) + [Allow]);
    StartAndRespond(s2, 0, resp);
    var s3 := Responded(s2, 0, resp);
    CommitAndFinish(s3, 0, resp);
    var T := StartToFinish(a, resp);
    ExtendTwice(s2.histories, T[..2], T[2..]);
    assert T[..2] + T[2..] == T;
  }

  /** A started navigation whose histories so far extend `hs` by `tail`. */
  lemma StartExtends(s: DelegateState, id: nat, hs: seq<seq<Event>>, tail: seq<Event>)
    requires Valid(s) && id + 1 == |s.navs| && s.navs[id].state == Approved && s.histories == Extend(hs, tail)
    ensures var n := s.navs[id];
      Start(s, id) == s.(navs := s.navs[id := n.(state := Started)], current := Some(id),
        histories := Extend(hs, tail + [DidStart(Nav(n.action, Started, n.response, n.committed, true))]))
  {
    var n := s.navs[id];
    ExtendBroadcast(hs, tail, DidStart(Nav(n.action, Started, n.response, n.committed, true)));
  }

  /** A response to a started navigation: responder 0 is asked about it, which supersedes any pending decision. */
  lemma ResponseAsksFirst(s: DelegateState, id: nat, resp: Response)
    requires Valid(s) && |s.histories| > 0 && id < |s.navs| && s.navs[id].state == Started
    ensures var n := s.navs[id].(state := ResponseReceived, response := Some(resp));
      ReceiveResponse(s, id, resp) == s.(navs := s.navs[id := n], pending := Some(Decision(ResponseDecision(id), 0)),
        histories := AppendTo(s.histories, 0, 1, ResponseEvent(Nav(n.action, n.state, n.response, n.committed, s.current == Some(id)))))
  {
  }

  /** A `cancel` from responder k on the response of the current navigation fails it as interrupted by
      policy: responders after k are not asked about the response, and every responder is told of the failure
      with the navigation still current. */
  lemma ResponseCancelFails(s: DelegateState, id: nat, resp: Response, k: nat)
    requires Valid(s) && k < |s.histories| && id < |s.navs| && s.navs[id].state == Started && s.current == Some(id)
    ensures var n := s.navs[id].(state := ResponseReceived, response := Some(resp));
      var failed := n.(state := Failed(FrameLoadInterruptedByPolicyChange));
      var r := Reply(ReceiveResponse(s, id, resp), ResponseDecision(id), Nexts(k) + [Cancel]);
      && r.navs == s.navs[id := failed] && r.current == Some(id) && r.pending == None
      && forall j :: 0 <= j < |s.histories| ==>
           r.histories[j] == s.histories[j]
             + (if j <= k then [ResponseEvent(Nav(n.action, n.state, n.response, n.committed, true))] else [])
             + [DidFail(Nav(n.action, failed.state, n.response, n.committed, true), FrameLoadInterruptedByPolicyChange)]
  {
    ResponseAsksFirst(s, id, resp);
    ReplyDecidedAt(ReceiveResponse(s, id, resp), ResponseDecision(id), s.histories, k, Cancel);
  }

  /** The first load, allowed by every responder, once started. */
  lemma FirstLoadStarted(n: nat, url: string)
    requires n > 0
    ensures var a := NavigationAction(0, url, Other, []);
      Start(FirstLoad(n, url), 0)
        == DelegateState(Extend(Initial(n).histories, Proposal(a) + [DidStart(Nav(a, Started, None, false, true))]),
             [Navigation(a, Started, None, false)], Some(0), None, 1)
  {
    var a := NavigationAction(0, url, Other, []);
    FirstLoadApproved(n, url);
    StartExtends(FirstLoad(n, url), 0, Initial(n).histories, Proposal(a));
  }

  /** The first load, allowed by every responder, has its response cancelled by responder k. */
  lemma ResponseCancelLifecycle(n: nat, url: string, k: nat, resp: Response)
    requires k < n
    ensures
      var a := NavigationAction(0, url, Other, []);
      var s := Reply(ReceiveResponse(Start(FirstLoad(n, url), 0), 0, resp), ResponseDecision(0), Nexts(k) + [Cancel]);
      var failed := Nav(a, Failed(FrameLoadInterruptedByPolicyChange), Some(resp), false, true);
      && s.navs == [Navigation(a, Failed(FrameLoadInterruptedByPolicyChange), Some(resp), false)]
      && forall j :: 0 <= j < n ==>
           s.histories[j] == Proposal(a) + StartToFinish(a, resp)[..(if j <= k then 2 else 1)]
                             + [DidFail(failed, FrameLoadInterruptedByPolicyChange)]
  {
    FirstLoadStarted(n, url);
    StartedResponseCancelled(n, url, k, resp);
  }

  /** The same, from the started first load written out. */
  lemma StartedResponseCancelled(n: nat, url: string, k: nat, resp: Response)
    requires k < n
    ensures
      var a := NavigationAction(0, url, Other, []);
      var T := StartToFinish(a, resp);
      var s3 := DelegateState(Extend(Initial(n).histories, Proposal(a) + [T[0]]), [Navigation(a, Started, None, false)], Some(0), None, 1);
      var s := Reply(ReceiveResponse(s3, 0, resp), ResponseDecision(0), Nexts(k) + [Cancel]);
      var failed := Nav(a, Failed(FrameLoadInterruptedByPolicyChange), Some(resp), false, true);
      && s.navs == [Navigation(a, Failed(FrameLoadInterruptedByPolicyChange), Some(resp), false)]
      && forall j :: 0 <= j < n ==>
           s.histories[j] == Proposal(a) + T[..(if j <= k then 2 else 1)] + [DidFail(failed, FrameLoadInterruptedByPolicyChange)]
  {
    var a := NavigationAction(0, url, Other, []);
    var T := StartToFinish(a, resp);
    var s3 := DelegateState(Extend(Initial(n).histories, Proposal(a) + [T[0]]), [Navigation(a, Started, None, false)], Some(0), None, 1);
    ResponseCancelFails(s3, 0, resp, k);
    assert T[..1] == [T[0]];
    assert T[..2] == [T[0], T[1]];
  }

  /** A newer load supersedes the pending decision: whatever the replies to the superseded decision, they
      change nothing. */
  lemma NewerLoadSupersedes(s: DelegateState, url: string, t: NavigationType, replies: seq<Verdict>)
    requires Valid(s) && s.pending.Some?
    ensures var r := LoadRequest(s, url, t);
      Reply(r, s.pending.value.subject, replies) == r
  {
    var r := LoadRequest(s, url, t);
    if r.pending.Some? && s.pending.value.subject.ActionDecision? {
      assert s.pending.value.subject.action.id < s.actionCount;
    }
  }

  /** A response supersedes whatever decision is pending, a newer load's action decision included: the delegate
      keeps one pending decision, the response's, and later replies to the superseded one change nothing. */
  lemma ResponseSupersedesPending(s: DelegateState, id: nat, resp: Response, replies: seq<Verdict>)
    requires Valid(s) && |s.histories| > 0 && id < |s.navs| && s.navs[id].state == Started
    requires s.pending.Some? && s.pending.value.subject != ResponseDecision(id)
    ensures var r := ReceiveResponse(s, id, resp);
      && r.pending == Some(Decision(ResponseDecision(id), 0))
      && |r.navs| == |s.navs|
      && Reply(r, s.pending.value.subject, replies) == r
  {
    ResponseAsksFirst(s, id, resp);
  }

  /** A load that waits on responder 0 is superseded by a second load, which responder 0 cancels. The late reply
      to the first decision is ignored: responder 0 saw only the two actions, later responders nothing. */
  lemma SupersededChainStops(n: nat, url1: string, url2: string, late: seq<Verdict>)
    requires n > 0
    ensures
      var a1 := NavigationAction(0, url1, Other, []);
      var a2 := NavigationAction(1, url2, Other, []);
      var s2 := LoadRequest(LoadRequest(Initial(n), url1, Other), url2, Other);
      var s := Reply(Reply(s2, ActionDecision(a2), [Cancel]), ActionDecision(a1), late);
      && s.navs == [] && s.pending == None
      && forall j :: 0 <= j < n ==>
           s.histories[j] == if j == 0 then [NavigationActionEvent(a1), NavigationActionEvent(a2)] else []
  {
    var a1 := NavigationAction(0, url1, Other, []);
    var a2 := NavigationAction(1, url2, Other, []);
    var s0 := Initial(n);
    LoadAsksFirst(s0, url1, Other);
    var s1 := LoadRequest(s0, url1, Other);
    LoadAsksFirst(s1, url2, Other);
    var s2 := LoadRequest(s1, url2, Other);
    assert Nexts(0) + [Cancel] == [Cancel];
    ReplyDecidedAt(s2, ActionDecision(a2), s1.histories, 0, Cancel);
  }

  /** A navigation that was current fails after a newer action was approved: the failure is reported with
      isCurrent false, and the newer navigation, the pending decision and every other navigation are unaffected,
      so the newer navigation can still start and become current. */
  lemma SupersededFailureReported(s: DelegateState, a: NavigationAction, id: nat, error: NavigationError)
    requires Valid(s) && ActionValid(a, s.actionCount) && id < |s.navs| && !s.navs[id].state.IsTerminal()
    ensures var s1 := Approve(s, a);
      var r := FailLoad(s1, id, error);
      var n := s.navs[id];
      && r.navs == s1.navs[id := n.(state := Failed(error))] && r.current == None && r.pending == s.pending
      && r.navs[|s.navs|] == Navigation(a, Approved, None, false)
      && (forall j :: 0 <= j < |s.histories| ==>
            r.histories[j] == s1.histories[j] + [DidFail(Nav(n.action, Failed(error), n.response, n.committed, false), error)])
      && Start(r, |s.navs|).current == Some(|s.navs|)
  {
  }

  /** A client redirect: the responders are asked about the redirect action, whose chain is the prior action's
      chain with the prior action appended; the prior navigation is reported redirected and no longer current. */
  lemma ClientRedirectReported(s: DelegateState, url: string)
    requires Valid(s) && s.current.Some? && s.navs[s.current.value].state.InFlight() && |s.histories| > 0
    ensures var c := s.current.value;
      var prior := s.navs[c];
      var a := NavigationAction(s.actionCount, url, Redirect(Client), prior.action.redirects + [prior.action.id]);
      var r := LoadRequest(s, url, Redirect(Client));
      && r.navs == s.navs[c := prior.(state := Redirected(Client))] && r.current == None
      && r.pending == Some(Decision(ActionDecision(a), 0))
      && forall j :: 0 <= j < |s.histories| ==>
           r.histories[j] == s.histories[j] + (if j == 0 then [NavigationActionEvent(a)] else [])
             + [DidReceiveRedirect(a, Nav(prior.action, Redirected(Client), prior.response, prior.committed, false))]
  {
  }

  /** A server redirect: the current navigation is marked redirected and the redirect action's navigation takes
      its place as current; allowing it starts no further navigation. */
  lemma ServerRedirectReplaces(s: DelegateState, url: string, k: nat)
    requires Valid(s) && s.current.Some? && s.navs[s.current.value].state.InFlight() && k < |s.histories|
    ensures var c := s.current.value;
      var prior := s.navs[c];
      var a := NavigationAction(s.actionCount, url, Redirect(Server), prior.action.redirects + [prior.action.id]);
      var r := LoadRequest(s, url, Redirect(Server));
      && r.navs == s.navs[c := prior.(state := Redirected(Server))] + [Navigation(a, Started, None, false)]
      && r.current == Some(|s.navs|)
      && r.pending == Some(Decision(ActionDecision(a), 0))
      && r.histories == AppendTo(s.histories, 0, 1, NavigationActionEvent(a))
      && Reply(r, ActionDecision(a), Nexts(k) + [Allow]).navs == r.navs
  {
    var c := s.current.value;
    var prior := s.navs[c];
    var a := NavigationAction(s.actionCount, url, Redirect(Server), prior.action.redirects + [prior.action.id]);
    var r := LoadRequest(s, url, Redirect(Server));
    ReplyDecidedAt(r, ActionDecision(a), s.histories, k, Allow);
  }

  /** The web content process terminates: every responder is told, then told that the navigation that is still
      current failed, reported as current. */
  lemma TerminationFailsCurrent(s: DelegateState, reason: TerminationReason)
    requires Valid(s) && s.current.Some? && !s.navs[s.current.value].state.IsTerminal()
    ensures var c := s.current.value;
      var n := s.navs[c];
      var r := Terminate(s, reason);
      && r.navs == s.navs[c := n.(state := Failed(WebContentProcessTerminated))] && r.current == s.current
      && forall j :: 0 <= j < |s.histories| ==>
           r.histories[j] == s.histories[j] + [DidTerminate(reason),
             DidFail(Nav(n.action, Failed(WebContentProcessTerminated), n.response, n.committed, true), WebContentProcessTerminated)]
  {
  }

  /** Without a current navigation still in progress, termination is only reported. */
  lemma TerminationWithoutCurrent(s: DelegateState, reason: TerminationReason)
    requires Valid(s) && (s.current.None? || s.navs[s.current.value].state.IsTerminal())
    ensures var r := Terminate(s, reason);
      && r.navs == s.navs && r.current == s.current && r.pending == s.pending
      && forall j :: 0 <= j < |s.histories| ==> r.histories[j] == s.histories[j] + [DidTerminate(reason)]
  {
  }

  /** The initial `about:` load is never put to the responders: it is approved at once and every responder is
      told it will start, not yet current. */
  lemma AboutLoadSkipsDecision(s: DelegateState, url: string)
    requires Valid(s)
    ensures var a := NavigationAction(s.actionCount, url, Other, []);
      var r := StartWithoutPolicy(s, url);
      && r.navs == s.navs + [Navigation(a, Approved, None, false)] && r.current == None && r.pending == None
      && forall j :: 0 <= j < |s.histories| ==>
           r.histories[j] == s.histories[j] + [WillStart(Nav(a, Approved, None, false, false))]
  {
  }

  /** A redirect that arrives after the current navigation has finished or failed redirects nothing: it is put to
      the responders like any other action, and no navigation changes. */
  lemma RedirectAfterEndIsPlainLoad(s: DelegateState, url: string, kind: RedirectKind)
    requires Valid(s) && s.current.Some? && s.navs[s.current.value].state.IsTerminal() && |s.histories| > 0
    ensures var a := NavigationAction(s.actionCount, url, Redirect(kind), []);
      var r := LoadRequest(s, url, Redirect(kind));
      && r.navs == s.navs && r.current == s.current
      && r.pending == Some(Decision(ActionDecision(a), 0))
      && r.histories == AppendTo(s.histories, 0, 1, NavigationActionEvent(a))
  {
  }

  /** Only the latest navigation is ever reported as current. */
  lemma OnlyLatestIsCurrent(s: DelegateState, id: nat)
    requires Valid(s) && id < |s.navs|
    ensures Snapshot(s, id).isCurrent ==> id + 1 == |s.navs|
  {
  }

  /** Two actions approved in turn: the older navigation has been superseded and does not start, while the newer one
      starts and becomes current. */
  lemma SupersededApprovalDoesNotStart(s: DelegateState, a0: NavigationAction, a1: NavigationAction)
    requires Valid(s) && ActionValid(a0, s.actionCount) && ActionValid(a1, s.actionCount)
    ensures var s2 := Approve(Approve(s, a0), a1);
      && Start(s2, |s.navs|) == s2
      && Start(s2, |s.navs| + 1).current == Some(|s.navs| + 1)
  {
  }

  // ---------------------------------------------------------------------------------------------------------
  // Any sequence of callbacks and replies

  /** One input to the delegate: a callback of the engine, or the responders' replies to a decision. */
  datatype Input =
    | ActionInput(url: string, navigationType: NavigationType)
    | RepliesInput(subject: Subject, replies: seq<Verdict>)
    | LoadWithoutPolicyInput(url: string)
    | StartInput(id: nat)
    | ResponseInput(id: nat, response: Response)
    | CommitInput(id: nat)
    | FinishInput(id: nat)
    | FailInput(id: nat, error: NavigationError)
    | TerminateInput(reason: TerminationReason)

  function Step(s: DelegateState, input: Input): (r: DelegateState)
    requires Valid(s)
    ensures Valid(r)
  {
    match input
    case ActionInput(url, t) => LoadRequest(s, url, t)
    case RepliesInput(subject, replies) => Reply(s, subject, replies)
    case LoadWithoutPolicyInput(url) => StartWithoutPolicy(s, url)
    case StartInput(id) => Start(s, id)
    case ResponseInput(id, response) => ReceiveResponse(s, id, response)
    case CommitInput(id) => Commit(s, id)
    case FinishInput(id) => Finish(s, id)
    case FailInput(id, error) => FailLoad(s, id, error)
    case TerminateInput(reason) => Terminate(s, reason)
  }

  function Steps(s: DelegateState, inputs: seq<Input>): (r: DelegateState)
    requires Valid(s)
    ensures Valid(r)
    decreases |inputs|
  {
    if inputs == [] then s else Steps(Step(s, inputs[0]), inputs[1..])
  }

  lemma ProgressTransitive(s1: DelegateState, s2: DelegateState, s3: DelegateState)
    requires Progress(s1, s2) && Progress(s2, s3)
    ensures Progress(s1, s3)
  {
    forall i | 0 <= i < |s1.navs|
      ensures NavigationAdvances(s1.navs[i], s3.navs[i])
    {
      assert NavigationAdvances(s1.navs[i], s2.navs[i]);
      assert NavigationAdvances(s2.navs[i], s3.navs[i]);
    }
  }

  /** Whatever the engine and the responders do, no navigation is dropped, none changes its action or becomes
      uncommitted, none moves backward, and a finished or failed navigation keeps its state. (That only the
      latest navigation can be current is part of `Valid`, which `Steps` keeps.) */
  lemma {:induction false} ProgressAlongRun(s: DelegateState, inputs: seq<Input>)
    requires Valid(s)
    ensures Progress(s, Steps(s, inputs))
    decreases |inputs|
  {
    if inputs != [] {
      var s1 := Step(s, inputs[0]);
      assert Progress(s, s1);
      ProgressAlongRun(s1, inputs[1..]);
      ProgressTransitive(s, s1, Steps(s1, inputs[1..]));
    }
  }

  /** A navigation that has finished or failed stays so, with the same state, whatever happens afterwards. */
  lemma TerminalStaysTerminal(s: DelegateState, inputs: seq<Input>, id: nat)
    requires Valid(s) && id < |s.navs| && s.navs[id].state.IsTerminal()
    ensures id < |Steps(s, inputs).navs| && Steps(s, inputs).navs[id].state == s.navs[id].state
  {
    ProgressAlongRun(s, inputs);
    assert NavigationAdvances(s.navs[id], Steps(s, inputs).navs[id]);
  }
}
