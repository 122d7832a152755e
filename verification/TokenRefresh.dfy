/** Refreshing the access token of a client shared by concurrent calls, as a protocol of atomic steps: a call
  * refreshes when the token has expired or when its request was rejected with it, holding the refresh lock
  * throughout.
  *
  * Assumed of the issuer: it never issues the same access token twice.
  */
module TokenRefresh {
  import opened Wrappers

  type AccessToken = nat
  type RefreshToken = nat
  type CallId = nat

  /** Why a call wants a new token: its request was rejected with this one, or it saw this one expired. */
  datatype Reason = Rejected(token: AccessToken) | Expired(seen: AccessToken)

  /** A refresh that was asked for: the access token it is to replace and when it was found to expire, and when that
    * was. */
  datatype Request = Request(reason: Reason, replaced: AccessToken, sent: RefreshToken, expires: Option<int>, at: int)

  /** Where a call stands. `rejected` is the token it was refused with, if it is on its second request. */
  datatype Phase =
    | ToPost(rejected: Option<AccessToken>)
    | Posted(token: AccessToken, rejected: Option<AccessToken>)
    | Waiting(reason: Reason)
    | Locked(reason: Reason)
    | Refreshing(request: Request)
    | Saving(reason: Reason)

  datatype Refresh = Refresh(request: Request, new_: AccessToken, stored: RefreshToken)

  datatype State = State(
    access: AccessToken,
    refresh: RefreshToken,
    expires: Option<int>,
    now: int,
    holder: Option<CallId>,
    calls: map<CallId, Phase>,
    issued: set<AccessToken>,
    log: seq<Refresh>)

  datatype Action =
    | Tick(millis: nat)
    | Begin(call: CallId)
    | Post(call: CallId)
    | Answer(call: CallId, unauthorized: bool)
    | Lock(call: CallId)
    | Compare(call: CallId)
    | Succeed(call: CallId, access: AccessToken, refresh: Option<RefreshToken>, seconds: Option<nat>)
    | Fail(call: CallId)
    | Save(call: CallId, ok: bool)

  function Initial(access: AccessToken, refresh: RefreshToken, expires: Option<int>, now: int): State {
    State(access, refresh, expires, now, None, map[], {access}, [])
  }

  // ---------- Steps ----------

  predicate At(s: State, call: CallId) {
    call in s.calls
  }

  function Moved(s: State, call: CallId, phase: Phase): State {
    s.(calls := s.calls[call := phase])
  }

  function Ended(s: State, call: CallId): State {
    s.(calls := s.calls - {call})
  }

  function Rejection(reason: Reason): Option<AccessToken> {
    match reason
    case Rejected(token) => Some(token)
    case Expired(_) => None
  }

  /** Someone else has already done what the call wants. */
  predicate Settled(s: State, reason: Reason) {
    match reason
    case Rejected(token) => s.access != token
    case Expired(_) => s.expires.Some? && s.expires.value > s.now
  }

  function Compared(s: State, call: CallId): Option<State> {
    if !At(s, call) || !s.calls[call].Locked? then None
    else
      var reason := s.calls[call].reason;
      if Settled(s, reason) then Some(Moved(s, call, ToPost(Rejection(reason))).(holder := None))
      else Some(Moved(s, call, Refreshing(Request(reason, s.access, s.refresh, s.expires, s.now))))
  }

  function Succeeded(
    s: State, call: CallId, access: AccessToken, refresh: Option<RefreshToken>, seconds: Option<nat>): Option<State> {
    if !At(s, call) || !s.calls[call].Refreshing? || access in s.issued then None
    else
      var request := s.calls[call].request;
      var stored := refresh.GetOr(request.sent);
      Some(Moved(s, call, Saving(request.reason)).(
             access := access, refresh := stored,
             expires := if seconds.Some? then Some(s.now + seconds.value * 1000) else None,
             issued := s.issued + {access}, log := s.log + [Refresh(request, access, stored)]))
  }

  /** The state after an action, `None` when the action cannot happen. */
  function Apply(s: State, action: Action): Option<State> {
    match action
    case Tick(millis) => Some(s.(now := s.now + millis))
    case Begin(call) =>
      if At(s, call) then None
      else if s.expires.Some? && s.expires.value <= s.now then Some(Moved(s, call, Waiting(Expired(s.access))))
      else Some(Moved(s, call, ToPost(None)))
    case Post(call) =>
      if !At(s, call) || !s.calls[call].ToPost? then None
      else Some(Moved(s, call, Posted(s.access, s.calls[call].rejected)))
    case Answer(call, unauthorized) =>
      if !At(s, call) || !s.calls[call].Posted? then None
      else if unauthorized && s.calls[call].rejected.None? then
        Some(Moved(s, call, Waiting(Rejected(s.calls[call].token))))
      else Some(Ended(s, call))
    case Lock(call) =>
      if !At(s, call) || !s.calls[call].Waiting? || s.holder.Some? then None
      else Some(Moved(s, call, Locked(s.calls[call].reason)).(holder := Some(call)))
    case Compare(call) => Compared(s, call)
    case Succeed(call, access, refresh, seconds) => Succeeded(s, call, access, refresh, seconds)
    case Fail(call) =>
      if !At(s, call) || !s.calls[call].Refreshing? then None else Some(Ended(s, call).(holder := None))
    case Save(call, ok) =>
      if !At(s, call) || !s.calls[call].Saving? then None
      else if ok then Some(Moved(s, call, ToPost(Rejection(s.calls[call].reason))).(holder := None))
      else Some(Ended(s, call).(holder := None))
  }

  function Run(s: State, actions: seq<Action>): Option<State>
    decreases |actions|
  {
    if actions == [] then Some(s)
    else match Apply(s, actions[0])
      case None => None
      case Some(next) => Run(next, actions[1..])
  }

  // ---------- Invariants ----------

  predicate HoldsLock(phase: Phase) {
    phase.Locked? || phase.Refreshing? || phase.Saving?
  }

  ghost predicate LockInv(s: State) {
    && (forall call <- s.calls | HoldsLock(s.calls[call]) :: s.holder == Some(call))
    && (s.holder.Some? ==> s.holder.value in s.calls && HoldsLock(s.calls[s.holder.value]))
  }

  /** The token a call was rejected with, and whether the call has since seen it replaced. */
  function RejectedWith(phase: Phase): Option<AccessToken> {
    match phase
    case ToPost(rejected) => rejected
    case Posted(_, rejected) => rejected
    case Waiting(reason) => Rejection(reason)
    case Locked(reason) => Rejection(reason)
    case Refreshing(request) => Rejection(request.reason)
    case Saving(reason) => Rejection(reason)
  }

  predicate SeenReplaced(phase: Phase) {
    phase.ToPost? || phase.Posted? || phase.Saving?
  }

  function Wanting(phase: Phase): Option<Reason> {
    match phase
    case Waiting(reason) => Some(reason)
    case Locked(reason) => Some(reason)
    case _ => None
  }

  /** A token seen expired was issued, and as long as it is current it is past its expiry. */
  predicate SeenExpired(s: State, reason: Reason) {
    reason.Expired? ==>
      reason.seen in s.issued && (s.access == reason.seen ==> s.expires.Some? && s.expires.value <= s.now)
  }

  /** What a call knows of the tokens holds: a rejected token was issued, and is no longer current once the call has
    * seen it replaced; and nothing changes under a refresh in flight. */
  ghost predicate CallInv(s: State, phase: Phase) {
    && (RejectedWith(phase).Some? ==> RejectedWith(phase).value in s.issued)
    && (RejectedWith(phase).Some? && SeenReplaced(phase) ==> RejectedWith(phase).value != s.access)
    && (phase.Posted? ==> phase.token in s.issued && phase.rejected != Some(phase.token))
    && (phase.Refreshing? ==>
          phase.request.replaced == s.access && phase.request.sent == s.refresh && Warranted(phase.request))
    && (Wanting(phase).Some? ==> SeenExpired(s, Wanting(phase).value))
  }

  /** A refresh is asked for only to replace the very token that was rejected, or one that is past its expiry or has
    * none. */
  predicate Warranted(request: Request) {
    match request.reason
    case Rejected(token) => request.replaced == token
    case Expired(seen) =>
      if request.replaced == seen then request.expires.Some? && request.expires.value <= request.at
      else request.expires.None? || request.expires.value <= request.at
  }

  ghost predicate CallsInv(s: State) {
    s.access in s.issued && forall call <- s.calls :: CallInv(s, s.calls[call])
  }

  predicate Last(s: State, refresh: Refresh) {
    s.access == refresh.new_ && s.refresh == refresh.stored
  }

  /** The refreshes form a chain from the first tokens to the present ones, and never come back to an access token. */
  ghost predicate LogInv(s: State) {
    && (forall i | 0 <= i < |s.log| ::
          s.log[i].request.replaced in s.issued && s.log[i].new_ in s.issued && Warranted(s.log[i].request))
    && (forall i, j | 0 <= i <= j < |s.log| :: s.log[i].request.replaced != s.log[j].new_)
    && (forall i, j | 0 <= i < j < |s.log| :: s.log[i].request.replaced != s.log[j].request.replaced)
    && (forall i | 0 < i < |s.log| ::
          s.log[i].request.replaced == s.log[i - 1].new_ && s.log[i].request.sent == s.log[i - 1].stored)
    && (forall i | 0 <= i < |s.log| :: s.log[i].request.replaced != s.access)
    && (s.log != [] ==> Last(s, s.log[|s.log| - 1]))
  }

  ghost predicate Inv(s: State) {
    LockInv(s) && CallsInv(s) && LogInv(s)
  }

  lemma LocksKept(s: State, action: Action)
    requires LockInv(s) && Apply(s, action).Some?
    ensures LockInv(Apply(s, action).value)
  {
  }

  lemma CallsKept(s: State, action: Action)
    requires LockInv(s) && CallsInv(s) && Apply(s, action).Some?
    ensures CallsInv(Apply(s, action).value)
  {
    var t := Apply(s, action).value;
    forall call <- t.calls ensures CallInv(t, t.calls[call]) {
      assert call in s.calls ==> CallInv(s, s.calls[call]);
    }
  }

  lemma TokensKept(s: State, action: Action)
    requires Apply(s, action).Some? && !action.Succeed?
    ensures var t := Apply(s, action).value;
            t.log == s.log && t.access == s.access && t.refresh == s.refresh && t.issued == s.issued
  {
  }

  /** A successful refresh adds one link to the chain. */
  lemma LinkAdded(s: State, t: State, link: Refresh)
    requires LogInv(s) && s.access in s.issued && link.new_ !in s.issued && Warranted(link.request)
    requires link.request.replaced == s.access && link.request.sent == s.refresh
    requires t.log == s.log + [link] && t.issued == s.issued + {link.new_} && Last(t, link)
    ensures LogInv(t)
  {
    hide Warranted;
    var n := |s.log|;
    assert forall i | 0 <= i < n :: t.log[i] == s.log[i];
    assert t.log[n] == link;
    assert t.log[|t.log| - 1] == link;
  }

  lemma LogKept(s: State, action: Action)
    requires CallsInv(s) && LogInv(s) && Apply(s, action).Some?
    ensures LogInv(Apply(s, action).value)
  {
    var t := Apply(s, action).value;
    if action.Succeed? {
      var phase := s.calls[action.call];
      assert CallInv(s, phase);
      assert t.log[|s.log|] == t.log[|t.log| - 1];
      LinkAdded(s, t, t.log[|s.log|]);
    } else {
      TokensKept(s, action);
      hide Apply, Warranted;
    }
  }

  lemma {:induction false} InvAlways(s: State, actions: seq<Action>)
    requires Inv(s) && Run(s, actions).Some?
    ensures Inv(Run(s, actions).value)
    decreases |actions|
  {
    hide LockInv, CallsInv, LogInv, Apply;
    if actions != [] {
      LocksKept(s, actions[0]);
      CallsKept(s, actions[0]);
      LogKept(s, actions[0]);
      InvAlways(Apply(s, actions[0]).value, actions[1..]);
    }
  }

  lemma InitialInv(access: AccessToken, refresh: RefreshToken, expires: Option<int>, now: int)
    ensures Inv(Initial(access, refresh, expires, now))
  {
  }

  // ---------- Every run ----------

  /** In every interleaving at most one refresh is in flight, and it carries the refresh token that is current. */
  lemma SingleFlight(start: State, actions: seq<Action>, a: CallId, b: CallId)
    requires start == Initial(start.access, start.refresh, start.expires, start.now) && Run(start, actions).Some?
    requires var calls := Run(start, actions).value.calls;
             a in calls && b in calls && calls[a].Refreshing? && calls[b].Refreshing?
    ensures a == b && Run(start, actions).value.calls[a].request.sent == Run(start, actions).value.refresh
  {
    InitialInv(start.access, start.refresh, start.expires, start.now);
    InvAlways(start, actions);
    var s := Run(start, actions).value;
    assert CallInv(s, s.calls[a]);
  }

  /** In every interleaving an access token is replaced at most once, however many calls were rejected with it; each
    * refresh sends the refresh token that the one before it stored; and a rejected call refreshes nothing but the
    * token it was rejected with. */
  lemma TokensAreReplacedOnce(start: State, actions: seq<Action>)
    requires start == Initial(start.access, start.refresh, start.expires, start.now) && Run(start, actions).Some?
    ensures var log := Run(start, actions).value.log;
            && (forall i, j | 0 <= i < j < |log| :: log[i].request.replaced != log[j].request.replaced)
            && (forall i | 0 < i < |log| ::
                  log[i].request.replaced == log[i - 1].new_ && log[i].request.sent == log[i - 1].stored)
            && (forall i | 0 <= i < |log| :: Warranted(log[i].request))
  {
    InitialInv(start.access, start.refresh, start.expires, start.now);
    InvAlways(start, actions);
  }

  /** A second request never goes out with the token that the first was rejected with. */
  lemma RetryUsesAnotherToken(start: State, actions: seq<Action>, call: CallId)
    requires start == Initial(start.access, start.refresh, start.expires, start.now) && Run(start, actions).Some?
    requires call in Run(start, actions).value.calls && Run(start, actions).value.calls[call].Posted?
    ensures var phase := Run(start, actions).value.calls[call]; phase.rejected != Some(phase.token)
  {
    InitialInv(start.access, start.refresh, start.expires, start.now);
    InvAlways(start, actions);
    var s := Run(start, actions).value;
    assert CallInv(s, s.calls[call]);
  }

  /** A call that saw a token expired refreshes, when its turn comes, exactly when that token is still current, or
    * the one that replaced it came without an expiry or is past it. So such calls share one refresh unless the
    * issuer leaves the expiry out or it has passed again. */
  lemma ExpiredRefreshesIff(start: State, actions: seq<Action>, call: CallId)
    requires start == Initial(start.access, start.refresh, start.expires, start.now) && Run(start, actions).Some?
    requires var calls := Run(start, actions).value.calls;
             call in calls && calls[call].Locked? && calls[call].reason.Expired?
    ensures var s := Run(start, actions).value;
            && Apply(s, Compare(call)).Some? && call in Apply(s, Compare(call)).value.calls
            && (Apply(s, Compare(call)).value.calls[call].Refreshing? <==>
                s.access == s.calls[call].reason.seen || s.expires.None? || s.expires.value <= s.now)
  {
    InitialInv(start.access, start.refresh, start.expires, start.now);
    InvAlways(start, actions);
    var s := Run(start, actions).value;
    assert CallInv(s, s.calls[call]);
  }

  // ---------- A needless refresh ----------

  ghost predicate Reaches(start: State, s: State) {
    exists actions :: Run(start, actions) == Some(s)
  }

  lemma {:induction false} RunAppend(s: State, actions: seq<Action>, last: Action)
    requires Run(s, actions).Some?
    ensures Run(s, actions + [last]) == Apply(Run(s, actions).value, last)
    decreases |actions|
  {
    hide Apply;
    if actions == [] {
      assert ([] + [last])[1..] == [];
      assert [] + [last] == [last];
    } else {
      RunAppend(Apply(s, actions[0]).value, actions[1..], last);
      assert (actions + [last])[1..] == actions[1..] + [last];
    }
  }

  lemma ReachNext(start: State, s: State, action: Action)
    requires Reaches(start, s) && Apply(s, action).Some?
    ensures Reaches(start, Apply(s, action).value)
  {
    hide Apply, Run;
    var actions :| Run(start, actions) == Some(s);
    RunAppend(start, actions, action);
  }

  /** Two calls see token 1 expired, and the first replaces it by token 2, which comes without an expiry. */
  lemma FirstRefresh() returns (s: State)
    ensures Reaches(Initial(1, 0, Some(0), 0), s)
    ensures s.access == 2 && s.refresh == 0 && s.expires == None && s.now == 0 && s.holder == Some(0)
    ensures s.calls == map[0 := Saving(Expired(1)), 1 := Waiting(Expired(1))]
  {
    var start := Initial(1, 0, Some(0), 0);
    assert Run(start, []) == Some(start);
    assert Reaches(start, start);
    hide Reaches, Run;
    var s1 := Apply(start, Begin(0)).value;
    ReachNext(start, start, Begin(0));
    var s2 := Apply(s1, Begin(1)).value;
    ReachNext(start, s1, Begin(1));
    var s3 := Apply(s2, Lock(0)).value;
    ReachNext(start, s2, Lock(0));
    var s4 := Apply(s3, Compare(0)).value;
    ReachNext(start, s3, Compare(0));
    s := Apply(s4, Succeed(0, 2, None, None)).value;
    ReachNext(start, s4, Succeed(0, 2, None, None));
  }

  /** Two calls see token 1 expired; the first replaces it by token 2, which comes without an expiry; the second
    * then asks to replace token 2 although it has just been issued. */
  lemma NeedlessRefresh() returns (s: State)
    ensures Reaches(Initial(1, 0, Some(0), 0), s)
    ensures 1 in s.calls && s.calls[1] == Refreshing(Request(Expired(1), 2, 0, None, 0))
  {
    var start := Initial(1, 0, Some(0), 0);
    var s5 := FirstRefresh();
    hide Reaches, Run;
    var s6 := Apply(s5, Save(0, true)).value;
    ReachNext(start, s5, Save(0, true));
    var s7 := Apply(s6, Lock(1)).value;
    ReachNext(start, s6, Lock(1));
    s := Apply(s7, Compare(1)).value;
    ReachNext(start, s7, Compare(1));
  }

  // ---------- What a run stores and sends ----------

  lemma {:induction false} RunSplit(s: State, actions: seq<Action>, last: Action)
    requires Run(s, actions + [last]).Some?
    ensures Run(s, actions).Some? && Apply(Run(s, actions).value, last) == Run(s, actions + [last])
    decreases |actions|
  {
    hide Apply;
    if actions == [] {
      assert ([] + [last])[1..] == [];
      assert [] + [last] == [last];
    } else {
      assert (actions + [last])[1..] == actions[1..] + [last] && (actions + [last])[0] == actions[0];
      RunSplit(Apply(s, actions[0]).value, actions[1..], last);
    }
  }

  function Elapsed(actions: seq<Action>): nat {
    if actions == [] then 0 else (if actions[0].Tick? then actions[0].millis else 0) + Elapsed(actions[1..])
  }

  lemma {:induction false} ElapsedAppend(actions: seq<Action>, last: Action)
    ensures Elapsed(actions + [last]) == Elapsed(actions) + if last.Tick? then last.millis else 0
  {
    if actions == [] {
      assert [] + [last] == [last] && [last][1..] == [];
    } else {
      assert (actions + [last])[1..] == actions[1..] + [last] && (actions + [last])[0] == actions[0];
      ElapsedAppend(actions[1..], last);
    }
  }

  /** The last refresh of a run that succeeded. */
  ghost predicate LastSuccess(actions: seq<Action>, k: nat) {
    k < |actions| && actions[k].Succeed? && forall j | k < j < |actions| :: !actions[j].Succeed?
  }

  /** The last refresh token that an answer brought; answers may leave it out. */
  function LastBrought(actions: seq<Action>): Option<RefreshToken> {
    if actions == [] then None
    else
      var last := actions[|actions| - 1];
      if last.Succeed? && last.refresh.Some? then last.refresh else LastBrought(actions[..|actions| - 1])
  }

  ghost predicate HoldsAnswers(start: State, actions: seq<Action>, s: State) {
    && s.now == start.now + Elapsed(actions)
    && s.refresh == LastBrought(actions).GetOr(start.refresh)
    && (forall k: nat | LastSuccess(actions, k) ::
          s.access == actions[k].access && s.expires == Expiry(start, actions, k))
    && ((forall k | 0 <= k < |actions| :: !actions[k].Succeed?) ==>
          s.access == start.access && s.expires == start.expires)
  }

  function Expiry(start: State, actions: seq<Action>, k: nat): Option<int>
    requires k < |actions| && actions[k].Succeed?
  {
    var seconds := actions[k].seconds;
    if seconds.None? then None else Some(start.now + Elapsed(actions[..k]) + 1000 * seconds.value)
  }

  lemma AnswerHeld(s: State, action: Action)
    requires CallsInv(s) && Apply(s, action).Some?
    ensures var t := Apply(s, action).value;
            && t.now == s.now + (if action.Tick? then action.millis else 0)
            && (if action.Succeed?
                then && t.access == action.access && t.refresh == action.refresh.GetOr(s.refresh)
                     && t.expires == (if action.seconds.None? then None else Some(s.now + 1000 * action.seconds.value))
                else t.access == s.access && t.refresh == s.refresh && t.expires == s.expires)
  {
    if action.Succeed? {
      assert CallInv(s, s.calls[action.call]);
    }
  }

  lemma LastSuccessOn(front: seq<Action>, last: Action, k: nat)
    requires LastSuccess(front + [last], k)
    ensures if last.Succeed? then k == |front| else LastSuccess(front, k)
  {
    var actions := front + [last];
    assert actions[|front|] == last;
    assert forall j | 0 <= j < |front| :: front[j] == actions[j];
  }

  lemma ExpiryOn(start: State, front: seq<Action>, last: Action, k: nat)
    requires k <= |front| && (front + [last])[k].Succeed?
    ensures Expiry(start, front + [last], k) ==
            if k < |front| then Expiry(start, front, k)
            else if last.seconds.None? then None
            else Some(start.now + Elapsed(front) + 1000 * last.seconds.value)
  {
    hide Elapsed;
    assert (front + [last])[..k] == if k < |front| then front[..k] else front;
  }

  lemma LastSuccessIsSuccess(actions: seq<Action>, k: nat)
    requires LastSuccess(actions, k)
    ensures k < |actions| && actions[k].Succeed?
  {
  }

  lemma HeldOn(start: State, front: seq<Action>, s: State, last: Action)
    requires HoldsAnswers(start, front, s) && CallsInv(s) && Apply(s, last).Some?
    ensures HoldsAnswers(start, front + [last], Apply(s, last).value)
  {
    var actions, t := front + [last], Apply(s, last).value;
    AnswerHeld(s, last);
    ElapsedAppend(front, last);
    hide Apply, Elapsed, CallsInv, LastSuccess, Expiry;
    assert actions[..|front|] == front && actions[|front|] == last;
    assert forall j | 0 <= j < |front| :: actions[j] == front[j];
    forall k: nat | LastSuccess(actions, k)
      ensures k < |actions| && actions[k].Succeed?
      ensures t.access == actions[k].access && t.expires == Expiry(start, actions, k)
    {
      LastSuccessIsSuccess(actions, k);
      LastSuccessOn(front, last, k);
      ExpiryOn(start, front, last, k);
    }
  }

  /** In every run the tokens held are those the issuer answered last: the access token, the last refresh token it
    * sent, and an expiry so many seconds after the answer, in milliseconds, or none. */
  lemma {:induction false} AnswersAreHeld(start: State, actions: seq<Action>)
    requires start == Initial(start.access, start.refresh, start.expires, start.now) && Run(start, actions).Some?
    ensures HoldsAnswers(start, actions, Run(start, actions).value)
  {
    if actions != [] {
      var front, last := actions[..|actions| - 1], actions[|actions| - 1];
      assert actions == front + [last];
      RunSplit(start, front, last);
      AnswersAreHeld(start, front);
      InitialInv(start.access, start.refresh, start.expires, start.now);
      InvAlways(start, front);
      HeldOn(start, front, Run(start, front).value, last);
    }
    hide Apply, LockInv, LogInv;
  }

  /** How many requests a call has sent since it last began. */
  function Requests(actions: seq<Action>, call: CallId): nat {
    if actions == [] then 0
    else
      var last := actions[|actions| - 1];
      if last == Begin(call) then 0
      else Requests(actions[..|actions| - 1], call) + if last == Post(call) then 1 else 0
  }

  lemma RequestsAfter(s: State, n: nat, last: Action, call: CallId)
    requires Apply(s, last).Some? && RequestsAre(s, n, call)
    ensures var more := if last == Begin(call) then 0 else n + if last == Post(call) then 1 else 0;
            RequestsAre(Apply(s, last).value, more, call)
  {
  }

  /** A call that has not been rejected has sent one request or none, and one that has been rejected has sent that
    * one and at most another. */
  predicate RequestsAre(s: State, n: nat, call: CallId) {
    && n <= 2
    && (call in s.calls ==>
          n == (if s.calls[call].Posted? then 1 else 0) + (if RejectedWith(s.calls[call]).Some? then 1 else 0))
  }

  /** In every run no call sends a third request. */
  lemma {:induction false} AtMostTwoRequests(start: State, actions: seq<Action>, call: CallId)
    requires start == Initial(start.access, start.refresh, start.expires, start.now) && Run(start, actions).Some?
    ensures RequestsAre(Run(start, actions).value, Requests(actions, call), call)
  {
    if actions != [] {
      var front, last := actions[..|actions| - 1], actions[|actions| - 1];
      assert actions == front + [last];
      RunSplit(start, front, last);
      AtMostTwoRequests(start, front, call);
      RequestsAfter(Run(start, front).value, Requests(front, call), last, call);
      hide Apply, Run, RequestsAre;
    }
  }
}
