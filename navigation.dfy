/** The distributed navigation delegate: one delegate stands between the page-rendering engine and an ordered list
    of navigation responders. Policy decisions go down the responder chain in registration order (the first verdict
    that is not `next` wins); lifecycle events are appended to every responder's history; each navigation moves
    through its own state machine; at most one navigation is current; a newer load supersedes a pending decision.

    The engine is not modelled: each of its callbacks is an operation of the delegate, and a responder's verdict is
    an input to `Reply`. A decision whose responder suspends is one whose replies stop before the chain ends. */
module Navigation {
  import opened Wrappers

  datatype RedirectKind = Client | Server

  datatype NavigationType = LinkActivated | Reload | BackForward | Other | Redirect(kind: RedirectKind)

  /** An immutable navigation action. `redirects` holds the ids of the earlier actions of the same logical load,
      oldest first. */
  datatype NavigationAction = NavigationAction(id: nat, url: string, navigationType: NavigationType, redirects: seq<nat>)

  datatype NavigationError = FrameLoadInterruptedByPolicyChange | WebContentProcessTerminated | Cancelled | CannotConnectToHost

  datatype NavigationState = Approved | Started | ResponseReceived | Redirected(kind: RedirectKind) | Finished | Failed(error: NavigationError)
  {
    predicate IsTerminal() { Finished? || Failed? }

    /** A navigation that is still loading and has not been redirected away: the only kind a redirect applies to. */
    predicate InFlight() { !IsTerminal() && !Redirected? }

    /** The position of a state along approved → started → response received → redirected → finished or failed. */
    function Rank(): nat {
      match this
      case Approved => 0
      case Started => 1
      case ResponseReceived => 2
      case Redirected(_) => 3
      case Finished => 4
      case Failed(_) => 4
    }
  }

  datatype Response = Response(url: string, statusCode: Option<int>)

  /** A navigation as the delegate keeps it; whether it is current is kept by the delegate. */
  datatype Navigation = Navigation(action: NavigationAction, state: NavigationState, response: Option<Response>, committed: bool)

  /** A navigation as a responder sees it in an event. */
  datatype Nav = Nav(action: NavigationAction, state: NavigationState, response: Option<Response>, committed: bool, isCurrent: bool)

  datatype TerminationReason = Crash | ExceededMemoryLimit | ExceededCpuLimit

  datatype Event =
    | NavigationActionEvent(action: NavigationAction)
    | WillStart(nav: Nav)
    | DidStart(nav: Nav)
    | ResponseEvent(nav: Nav)
    | DidCommit(nav: Nav)
    | DidFinish(nav: Nav)
    | DidFail(nav: Nav, error: NavigationError)
    | DidReceiveRedirect(action: NavigationAction, nav: Nav)
    | DidTerminate(reason: TerminationReason)

  datatype Verdict = Next | Allow | Cancel

  /** What a decision is about: an action, or the response of a navigation (by its index). */
  datatype Subject = ActionDecision(action: NavigationAction) | ResponseDecision(navId: nat)

  /** A pending decision: responder `cursor` has been asked and its reply is awaited. */
  datatype Decision = Decision(subject: Subject, cursor: nat)

  /** How a run down the chain ends: waiting for responder `at`, decided by responder `decider`, or every responder
      said `next`. */
  datatype ChainResult = Suspended(at: nat) | Decided(verdict: Verdict, decider: nat) | Exhausted

  /** The delegate's state: one history per registered responder, the navigations by index, the current one, the
      pending decision and the number of actions seen. */
  datatype DelegateState = DelegateState(
    histories: seq<seq<Event>>,
    navs: seq<Navigation>,
    current: Option<nat>,
    pending: Option<Decision>,
    actionCount: nat)

  /** Every reference points backward: navigations refer to known actions, a redirect chain to earlier actions,
      a pending decision to existing entries; and only the latest navigation can be current. */
  predicate Valid(s: DelegateState) {
    && (s.current.Some? ==> s.current.value + 1 == |s.navs|)
    && (forall i :: 0 <= i < |s.navs| ==> ActionValid(s.navs[i].action, s.actionCount))
    && (s.pending.Some? ==> PendingValid(s, s.pending.value))
  }

  predicate ActionValid(a: NavigationAction, actionCount: nat) {
    a.id < actionCount && forall r :: r in a.redirects ==> r < a.id
  }

  /** A navigation state never moves backward, and a finished or failed navigation keeps its state. */
  predicate Advances(a: NavigationState, b: NavigationState) {
    a == b || (!a.IsTerminal() && a.Rank() < b.Rank())
  }

  /** From `s` to `r` no navigation is dropped, and each keeps its action, stays committed once committed, and
      only moves forward. */
  predicate Progress(s: DelegateState, r: DelegateState) {
    && |s.navs| <= |r.navs|
    && forall i {:trigger NavigationAdvances(s.navs[i], r.navs[i])} :: 0 <= i < |s.navs| ==>
         NavigationAdvances(s.navs[i], r.navs[i])
  }

  /** One navigation from before to after: the same action, committed once committed, and only forward. */
  predicate NavigationAdvances(before: Navigation, after: Navigation) {
    && after.action == before.action
    && (before.committed ==> after.committed)
    && Advances(before.state, after.state)
  }

  predicate PendingValid(s: DelegateState, d: Decision) {
    && d.cursor < |s.histories|
    && match d.subject
       case ActionDecision(a) => ActionValid(a, s.actionCount)
       case ResponseDecision(id) => id < |s.navs|
  }

  function Initial(responders: nat): (s: DelegateState)
    ensures Valid(s) && |s.histories| == responders
    ensures forall j :: 0 <= j < responders ==> s.histories[j] == []
  {
    DelegateState(seq(responders, _ => []), [], None, None, 0)
  }

  /** The navigation at `id` as responders see it: current exactly when it is the delegate's current one. */
  function Snapshot(s: DelegateState, id: nat): Nav
    requires id < |s.navs|
  {
    var n := s.navs[id];
    Nav(n.action, n.state, n.response, n.committed, s.current == Some(id))
  }

  /** Appends `e` to the histories of responders lo..hi-1. */
  function AppendTo(hs: seq<seq<Event>>, lo: int, hi: int, e: Event): (r: seq<seq<Event>>)
    ensures |r| == |hs|
    ensures forall j :: 0 <= j < |hs| ==> r[j] == if lo <= j < hi then hs[j] + [e] else hs[j]
  {
    seq(|hs|, j requires 0 <= j < |hs| => if lo <= j < hi then hs[j] + [e] else hs[j])
  }

  function Broadcast(hs: seq<seq<Event>>, e: Event): seq<seq<Event>> {
    AppendTo(hs, 0, |hs|, e)
  }

  /** The event with which a responder is asked to decide. */
  function AskEvent(s: DelegateState, subject: Subject): Event
    requires subject.ResponseDecision? ==> subject.navId < |s.navs|
  {
    match subject
    case ActionDecision(a) => NavigationActionEvent(a)
    case ResponseDecision(id) => ResponseEvent(Snapshot(s, id))
  }

  /** The replies of responders cursor, cursor+1, ... as they come, down a chain of `responders`. */
  function Scan(responders: nat, cursor: nat, replies: seq<Verdict>): ChainResult
    decreases |replies|
  {
    if replies == [] then Suspended(cursor)
    else if replies[0] != Next then Decided(replies[0], cursor)
    else if cursor + 1 < responders then Scan(responders, cursor + 1, replies[1..])
    else Exhausted
  }

  /** The last responder asked in a run down the chain. */
  function LastAsked(responders: nat, r: ChainResult): int {
    match r
    case Suspended(at) => at
    case Decided(_, k) => k
    case Exhausted => responders - 1
  }

  /** The verdict a finished run applies: an exhausted chain allows. */
  function Effective(r: ChainResult): Verdict
    requires !r.Suspended?
  {
    if r.Exhausted? then Allow else r.verdict
  }

  /** Fails navigation `id` with `error` and tells every responder. */
  function FailNav(s: DelegateState, id: nat, error: NavigationError): (r: DelegateState)
    requires Valid(s) && id < |s.navs|
    ensures Valid(r) && |r.navs| == |s.navs| && |r.histories| == |s.histories|
    ensures !s.navs[id].state.IsTerminal() ==> Progress(s, r)
  {
    var s1 := s.(navs := s.navs[id := s.navs[id].(state := Failed(error))]);
    s1.(histories := Broadcast(s1.histories, DidFail(Snapshot(s1, id), error)))
  }

  /** Starts a navigation for an approved action: the previous current navigation stops being current and every
      responder gets `willStart`. */
  function Approve(s: DelegateState, a: NavigationAction): (r: DelegateState)
    requires Valid(s) && ActionValid(a, s.actionCount)
    ensures Valid(r) && Progress(s, r) && |r.histories| == |s.histories|
  {
    var s1 := s.(navs := s.navs + [Navigation(a, Approved, None, false)], current := None);
    s1.(histories := Broadcast(s1.histories, WillStart(Snapshot(s1, |s.navs|))))
  }

  /** Applies the verdict of a finished decision. An allowed action starts a navigation, except a server redirect,
      whose navigation exists already; a cancelled response fails its navigation as interrupted by policy. */
  function Resolve(s: DelegateState, subject: Subject, result: ChainResult): (r: DelegateState)
    requires Valid(s) && !result.Suspended?
    requires subject.ActionDecision? ==> ActionValid(subject.action, s.actionCount)
    requires subject.ResponseDecision? ==> subject.navId < |s.navs|
    ensures Valid(r) && Progress(s, r) && |r.histories| == |s.histories|
  {
    match subject
    case ActionDecision(a) =>
      if Effective(result) == Cancel || a.navigationType == Redirect(Server) then s else Approve(s, a)
    case ResponseDecision(id) =>
      if Effective(result) == Cancel && !s.navs[id].state.IsTerminal() then FailNav(s, id, FrameLoadInterruptedByPolicyChange)
      else s
  }

  /** Begins a decision, superseding any pending one: responder 0 is asked, or with no responders the decision
      resolves at once as allowed. */
  function Begin(s: DelegateState, subject: Subject): (r: DelegateState)
    requires Valid(s)
    requires subject.ActionDecision? ==> ActionValid(subject.action, s.actionCount)
    requires subject.ResponseDecision? ==> subject.navId < |s.navs|
    ensures Valid(r) && Progress(s, r) && |r.histories| == |s.histories|
  {
    if |s.histories| == 0 then Resolve(s.(pending := None), subject, Exhausted)
    else s.(histories := AppendTo(s.histories, 0, 1, AskEvent(s, subject)), pending := Some(Decision(subject, 0)))
  }

  /** A new action of type `t` redirects the current navigation: it is a redirect and the current navigation is
      still in flight. A redirect after the current navigation has finished or failed is an ordinary load. */
  predicate Redirecting(s: DelegateState, t: NavigationType)
    requires Valid(s)
  {
    t.Redirect? && s.current.Some? && s.navs[s.current.value].state.InFlight()
  }

  /** The redirect chain a new action of type `t` carries: for a redirect, the current navigation's chain with its
      action appended. */
  function RedirectsFor(s: DelegateState, t: NavigationType): seq<nat>
    requires Valid(s)
  {
    if Redirecting(s, t) then
      var a := s.navs[s.current.value].action;
      a.redirects + [a.id]
    else []
  }

  /** `decidePolicyFor(navigationAction:)`: a new action arrives. A pending decision is superseded. A server
      redirect replaces the current navigation by one for the new action, which becomes current; a client redirect
      marks the current navigation redirected, no longer current, and tells every responder. */
  function LoadRequest(s: DelegateState, url: string, t: NavigationType): (r: DelegateState)
    requires Valid(s)
    ensures Valid(r) && Progress(s, r) && |r.histories| == |s.histories| && r.actionCount == s.actionCount + 1
    ensures r.pending.Some? ==> r.pending.value.subject.ActionDecision? && r.pending.value.subject.action.id == s.actionCount
  {
    var a := NavigationAction(s.actionCount, url, t, RedirectsFor(s, t));
    var s1 := s.(actionCount := s.actionCount + 1, pending := None);
    if Redirecting(s, t) then
      if t.kind == Server then ServerRedirect(s1, a) else ClientRedirect(s1, a)
    else
      Begin(s1, ActionDecision(a))
  }

  /** A server redirect: the current navigation is marked redirected and a navigation for the redirect action takes
      its place as current while the redirect is decided. */
  function ServerRedirect(s: DelegateState, a: NavigationAction): (r: DelegateState)
    requires Valid(s) && s.current.Some? && s.navs[s.current.value].state.InFlight() && ActionValid(a, s.actionCount)
    ensures Valid(r) && Progress(s, r) && |r.histories| == |s.histories| && r.actionCount == s.actionCount
  {
    var c := s.current.value;
    var s2 := s.(navs := s.navs[c := s.navs[c].(state := Redirected(Server))] + [Navigation(a, Started, None, false)],
                 current := Some(|s.navs|));
    Begin(s2, ActionDecision(a))
  }

  /** A client redirect: the redirect action is decided like any other, and the current navigation is marked
      redirected, is no longer current, and every responder is told. */
  function ClientRedirect(s: DelegateState, a: NavigationAction): (r: DelegateState)
    requires Valid(s) && s.current.Some? && s.navs[s.current.value].state.InFlight() && ActionValid(a, s.actionCount)
    ensures Valid(r) && Progress(s, r) && |r.histories| == |s.histories| && r.actionCount == s.actionCount
  {
    var c := s.current.value;
    var s2 := Begin(s, ActionDecision(a));
    var s3 := s2.(navs := s2.navs[c := s2.navs[c].(state := Redirected(Client))], current := None);
    s3.(histories := Broadcast(s3.histories, DidReceiveRedirect(a, Snapshot(s3, c))))
  }

  /** A load the engine starts without asking for a policy (the initial `about:` load): it starts at once. */
  function StartWithoutPolicy(s: DelegateState, url: string): (r: DelegateState)
    requires Valid(s)
    ensures Valid(r) && Progress(s, r) && |r.histories| == |s.histories| && r.actionCount == s.actionCount + 1
  {
    var a := NavigationAction(s.actionCount, url, Other, []);
    Approve(s.(actionCount := s.actionCount + 1, pending := None), a)
  }

  /** Replies to a decision. A reply for a decision that is no longer pending is ignored. Otherwise the replies are
      taken in responder order from the awaited responder on: each `next` asks the following responder, and the
      first other verdict, or the end of the chain, resolves the decision. */
  function Reply(s: DelegateState, subject: Subject, replies: seq<Verdict>): (r: DelegateState)
    requires Valid(s)
    ensures Valid(r) && Progress(s, r) && |r.histories| == |s.histories|
  {
    if s.pending.None? || s.pending.value.subject != subject then s
    else
      var c := s.pending.value.cursor;
      var result := Scan(|s.histories|, c, replies);
      ScanBounds(|s.histories|, c, replies);
      var hs := AppendTo(s.histories, c + 1, LastAsked(|s.histories|, result) + 1, AskEvent(s, subject));
      if result.Suspended? then s.(histories := hs, pending := Some(Decision(subject, result.at)))
      else Resolve(s.(histories := hs, pending := None), subject, result)
  }

  /** `didStart`: the latest navigation, once approved, starts and becomes current. An older approved navigation
      has been superseded by a newer action and does not start. */
  function Start(s: DelegateState, id: nat): (r: DelegateState)
    requires Valid(s)
    ensures Valid(r) && Progress(s, r) && |r.histories| == |s.histories|
  {
    if id + 1 == |s.navs| && s.navs[id].state == Approved then
      var s1 := s.(navs := s.navs[id := s.navs[id].(state := Started)], current := Some(id));
      s1.(histories := Broadcast(s1.histories, DidStart(Snapshot(s1, id))))
    else s
  }

  /** `decidePolicyFor(navigationResponse:)`: a started navigation receives its response, which is decided on.
      The delegate keeps one pending decision, so the response's supersedes any other, a newer load's included. */
  function ReceiveResponse(s: DelegateState, id: nat, response: Response): (r: DelegateState)
    requires Valid(s)
    ensures Valid(r) && Progress(s, r) && |r.histories| == |s.histories|
  {
    if id < |s.navs| && s.navs[id].state == Started then
      var s1 := s.(navs := s.navs[id := s.navs[id].(state := ResponseReceived, response := Some(response))], pending := None);
      Begin(s1, ResponseDecision(id))
    else s
  }

  /** `didCommit`: a started navigation commits; its state is kept. */
  function Commit(s: DelegateState, id: nat): (r: DelegateState)
    requires Valid(s)
    ensures Valid(r) && Progress(s, r) && |r.histories| == |s.histories|
  {
    if id < |s.navs| && !s.navs[id].state.IsTerminal() && s.navs[id].state != Approved && !s.navs[id].committed then
      var s1 := s.(navs := s.navs[id := s.navs[id].(committed := true)]);
      s1.(histories := Broadcast(s1.histories, DidCommit(Snapshot(s1, id))))
    else s
  }

  /** `didFinish`: a committed navigation finishes, a redirected one too. */
  function Finish(s: DelegateState, id: nat): (r: DelegateState)
    requires Valid(s)
    ensures Valid(r) && Progress(s, r) && |r.histories| == |s.histories|
  {
    if id < |s.navs| && !s.navs[id].state.IsTerminal() && s.navs[id].committed then
      var s1 := s.(navs := s.navs[id := s.navs[id].(state := Finished)]);
      s1.(histories := Broadcast(s1.histories, DidFinish(Snapshot(s1, id))))
    else s
  }

  /** `didFail` / `didFailProvisionalNavigation`: any navigation not yet finished or failed fails, current or not. */
  function FailLoad(s: DelegateState, id: nat, error: NavigationError): (r: DelegateState)
    requires Valid(s)
    ensures Valid(r) && Progress(s, r) && |r.histories| == |s.histories|
  {
    if id < |s.navs| && !s.navs[id].state.IsTerminal() then FailNav(s, id, error) else s
  }

  /** `webContentProcessDidTerminate`: every responder is told, then the current navigation fails. */
  function Terminate(s: DelegateState, reason: TerminationReason): (r: DelegateState)
    requires Valid(s)
    ensures Valid(r) && Progress(s, r) && |r.histories| == |s.histories|
  {
    var s1 := s.(histories := Broadcast(s.histories, DidTerminate(reason)));
    if s1.current.Some? && !s1.navs[s1.current.value].state.IsTerminal() then
      FailNav(s1, s1.current.value, WebContentProcessTerminated)
    else s1
  }

  /** A run down the chain ends at a responder that exists and that comes no earlier than where it started. */
  lemma {:induction false} ScanBounds(responders: nat, cursor: nat, replies: seq<Verdict>)
    requires cursor < responders
    ensures var r := Scan(responders, cursor, replies);
      && cursor <= LastAsked(responders, r) < responders
      && (r.Suspended? ==> r.at < responders)
    decreases |replies|
  {
    if replies != [] && replies[0] == Next && cursor + 1 < responders {
      ScanBounds(responders, cursor + 1, replies[1..]);
    }
  }

  /** The delegate itself: its state is updated in place by the engine's callbacks and by the responders'
      replies. Each operation is specified by the function of the same behaviour above. */
  class DistributedNavigationDelegate {
    var histories: seq<seq<Event>>
    var navs: seq<Navigation>
    var current: Option<nat>
    var pending: Option<Decision>
    var actionCount: nat

    function State(): DelegateState
      reads this
    {
      DelegateState(histories, navs, current, pending, actionCount)
    }

    /** `setResponders`: a delegate with `responders` responders, each with an empty history. */
    constructor (responders: nat)
      ensures State() == Initial(responders)
    {
      histories := seq(responders, _ => []);
      navs := [];
      current := None;
      pending := None;
      actionCount := 0;
    }

    /** Delivers `e` to every responder, in registration order. */
    method Notify(e: Event)
      modifies this
      ensures State() == old(State()).(histories := Broadcast(old(histories), e))
    {
      var j := 0;
      while j < |histories|
        invariant 0 <= j <= |histories| == |old(histories)|
        invariant forall m :: 0 <= m < |histories| ==>
          histories[m] == if m < j then old(histories)[m] + [e] else old(histories)[m]
        invariant navs == old(navs) && current == old(current) && pending == old(pending)
        invariant actionCount == old(actionCount)
      {
        histories := histories[j := histories[j] + [e]];
        j := j + 1;
      }
    }

    method FailNavigation(id: nat, error: NavigationError)
      requires Valid(State()) && id < |navs|
      modifies this
      ensures State() == FailNav(old(State()), id, error)
    {
      navs := navs[id := navs[id].(state := Failed(error))];
      Notify(DidFail(Snapshot(State(), id), error));
    }

    method StartNavigation(a: NavigationAction)
      requires Valid(State()) && ActionValid(a, actionCount)
      modifies this
      ensures State() == Approve(old(State()), a)
    {
      navs := navs + [Navigation(a, Approved, None, false)];
      current := None;
      Notify(WillStart(Snapshot(State(), |navs| - 1)));
    }

    method ApplyVerdict(subject: Subject, result: ChainResult)
      requires Valid(State()) && !result.Suspended?
      requires subject.ActionDecision? ==> ActionValid(subject.action, actionCount)
      requires subject.ResponseDecision? ==> subject.navId < |navs|
      modifies this
      ensures State() == Resolve(old(State()), subject, result)
    {
      var verdict := if result.Exhausted? then Allow else result.verdict;
      match subject
      case ActionDecision(a) =>
        if verdict != Cancel && a.navigationType != Redirect(Server) {
          StartNavigation(a);
        }
      case ResponseDecision(id) =>
        if verdict == Cancel && !navs[id].state.IsTerminal() {
          FailNavigation(id, FrameLoadInterruptedByPolicyChange);
        }
    }

    method BeginDecision(subject: Subject)
      requires Valid(State())
      requires subject.ActionDecision? ==> ActionValid(subject.action, actionCount)
      requires subject.ResponseDecision? ==> subject.navId < |navs|
      modifies this
      ensures State() == Begin(old(State()), subject)
    {
      if |histories| == 0 {
        pending := None;
        ApplyVerdict(subject, Exhausted);
      } else {
        var e := AskEvent(State(), subject);
        histories := histories[0 := histories[0] + [e]];
        pending := Some(Decision(subject, 0));
      }
    }

    /** `decidePolicyFor(navigationAction:)`. */
    method DecidePolicyForNavigationAction(url: string, t: NavigationType)
      requires Valid(State())
      modifies this
      ensures State() == LoadRequest(old(State()), url, t)
    {
      var redirecting := Redirecting(State(), t);
      var a := NavigationAction(actionCount, url, t, RedirectsFor(State(), t));
      actionCount := actionCount + 1;
      pending := None;
      if redirecting {
        if t.kind == Server {
          RedirectOnServer(a);
        } else {
          RedirectOnClient(a);
        }
      } else {
        BeginDecision(ActionDecision(a));
      }
    }

    method RedirectOnServer(a: NavigationAction)
      requires Valid(State()) && current.Some? && navs[current.value].state.InFlight() && ActionValid(a, actionCount)
      modifies this
      ensures State() == ServerRedirect(old(State()), a)
    {
      var c := current.value;
      navs := navs[c := navs[c].(state := Redirected(Server))] + [Navigation(a, Started, None, false)];
      current := Some(|navs| - 1);
      BeginDecision(ActionDecision(a));
    }

    method RedirectOnClient(a: NavigationAction)
      requires Valid(State()) && current.Some? && navs[current.value].state.InFlight() && ActionValid(a, actionCount)
      modifies this
      ensures State() == ClientRedirect(old(State()), a)
    {
      var c := current.value;
      BeginDecision(ActionDecision(a));
      navs := navs[c := navs[c].(state := Redirected(Client))];
      current := None;
      Notify(DidReceiveRedirect(a, Snapshot(State(), c)));
    }

    /** The initial `about:` load, which starts without a policy decision. */
    method StartWithoutPolicyDecision(url: string)
      requires Valid(State())
      modifies this
      ensures State() == StartWithoutPolicy(old(State()), url)
    {
      var a := NavigationAction(actionCount, url, Other, []);
      actionCount := actionCount + 1;
      pending := None;
      StartNavigation(a);
    }

    /** Takes the replies down the chain from the awaited responder: each `next` asks the following responder. */
    method RunChain(subject: Subject, replies: seq<Verdict>) returns (result: ChainResult)
      requires Valid(State()) && pending.Some? && pending.value.subject == subject
      modifies this
      ensures pending == old(pending) && old(pending).value.cursor < |old(histories)|
      ensures result == Scan(|old(histories)|, pending.value.cursor, replies)
      ensures State() == old(State()).(histories := AppendTo(old(histories), pending.value.cursor + 1,
        LastAsked(|old(histories)|, result) + 1, AskEvent(old(State()), subject)))
    {
      var n := |histories|;
      var start := pending.value.cursor;
      var e := AskEvent(State(), subject);
      ghost var h0 := histories;
      ScanBounds(n, start, replies);
      var cursor := start;
      var i := 0;
      result := Suspended(start);
      while i < |replies|
        invariant start <= cursor < n == |histories|
        invariant i <= |replies|
        invariant Scan(n, start, replies) == Scan(n, cursor, replies[i..])
        invariant histories == AppendTo(h0, start + 1, cursor + 1, e)
        invariant result == Suspended(cursor)
        invariant navs == old(navs) && current == old(current) && pending == old(pending)
        invariant actionCount == old(actionCount)
        decreases |replies| - i
      {
        var verdict := replies[i];
        assert replies[i..][0] == verdict;
        if verdict != Next {
          result := Decided(verdict, cursor);
          break;
        }
        if cursor + 1 == n {
          result := Exhausted;
          break;
        }
        assert replies[i..][1..] == replies[i + 1..];
        cursor := cursor + 1;
        histories := histories[cursor := histories[cursor] + [e]];
        result := Suspended(cursor);
        i := i + 1;
      }
      assert result == Scan(n, start, replies) by {
        if i == |replies| && result.Suspended? {
          assert replies[i..] == [];
        }
      }
    }

    /** The responders' replies to a decision, taken one responder at a time down the chain. */
    method ResolvePolicy(subject: Subject, replies: seq<Verdict>)
      requires Valid(State())
      modifies this
      ensures State() == Reply(old(State()), subject, replies)
    {
      if pending.None? || pending.value.subject != subject {
        return;
      }
      var result := RunChain(subject, replies);
      if result.Suspended? {
        pending := Some(Decision(subject, result.at));
      } else {
        pending := None;
        ApplyVerdict(subject, result);
      }
    }

    /** `didStartProvisionalNavigation`. */
    method DidStartProvisionalNavigation(id: nat)
      requires Valid(State())
      modifies this
      ensures State() == Start(old(State()), id)
    {
      if id + 1 == |navs| && navs[id].state == Approved {
        navs := navs[id := navs[id].(state := Started)];
        current := Some(id);
        Notify(DidStart(Snapshot(State(), id)));
      }
    }

    /** `decidePolicyFor(navigationResponse:)`. */
    method DecidePolicyForNavigationResponse(id: nat, response: Response)
      requires Valid(State())
      modifies this
      ensures State() == ReceiveResponse(old(State()), id, response)
    {
      if id < |navs| && navs[id].state == Started {
        navs := navs[id := navs[id].(state := ResponseReceived, response := Some(response))];
        pending := None;
        BeginDecision(ResponseDecision(id));
      }
    }

    /** `didCommit`. */
    method DidCommitNavigation(id: nat)
      requires Valid(State())
      modifies this
      ensures State() == Commit(old(State()), id)
    {
      if id < |navs| && !navs[id].state.IsTerminal() && navs[id].state != Approved && !navs[id].committed {
        navs := navs[id := navs[id].(committed := true)];
        Notify(DidCommit(Snapshot(State(), id)));
      }
    }

    /** `didFinish`. */
    method DidFinishNavigation(id: nat)
      requires Valid(State())
      modifies this
      ensures State() == Finish(old(State()), id)
    {
      if id < |navs| && !navs[id].state.IsTerminal() && navs[id].committed {
        navs := navs[id := navs[id].(state := Finished)];
        Notify(DidFinish(Snapshot(State(), id)));
      }
    }

    /** `didFail` and `didFailProvisionalNavigation`. */
    method DidFailNavigation(id: nat, error: NavigationError)
      requires Valid(State())
      modifies this
      ensures State() == FailLoad(old(State()), id, error)
    {
      if id < |navs| && !navs[id].state.IsTerminal() {
        FailNavigation(id, error);
      }
    }

    /** `webContentProcessDidTerminate`. */
    method WebContentProcessDidTerminate(reason: TerminationReason)
      requires Valid(State())
      modifies this
      ensures State() == Terminate(old(State()), reason)
    {
      Notify(DidTerminate(reason));
      if current.Some? && !navs[current.value].state.IsTerminal() {
        FailNavigation(current.value, WebContentProcessTerminated);
      }
    }
  }
}
