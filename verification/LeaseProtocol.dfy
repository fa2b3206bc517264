/** The master election: N pods, each running an init-config step, sfsmaster and
    the ha-sidecar loop, all sharing one Lease record.

    Time is the whole-second clock that `date +%s` shows; any number of steps
    may happen within one second. A call to the API server is split into the
    moment it is sent, the moment the server acts on it and the moment the
    caller hears the answer, so calls of different pods overlap freely, and a
    PATCH can still land after its sender gave up, crashed or was deleted. */
module LeaseProtocol {
  import opened Common
  import opened ElectionTimes
  import Backoff

  type PodName = string

  // ── The Lease record ─────────────────────────────────────────────────────

  /** An unset holderIdentity is "", as the script reads it. */
  datatype Lease = Lease(holder: PodName, acquireTime: Option<int>, renewTime: Option<int>, resVer: nat)

  /** The sidecar's test: no renewTime, or an age of at least 30 seconds. */
  predicate Expired(l: Lease, now: int) {
    l.renewTime.Some? ==> now - l.renewTime.value >= LEASE_DURATION
  }

  /** The three bodies a sidecar sends. Only Cas carries a resourceVersion. */
  datatype Patch =
    | Renew(from: PodName, stamp: int)
    | Release(from: PodName, stamp: int)
    | Cas(from: PodName, resVer: nat, stamp: int)

  /** JSON merge patch (section 2 of RFC 7396): absent fields keep their value. */
  function Merged(l: Lease, patch: Patch): Lease {
    match patch
    case Renew(p, t) => l.(holder := p, renewTime := Some(t))
    case Release(p, t) => l.(holder := "", renewTime := Some(t))
    case Cas(p, _, t) => l.(holder := p, acquireTime := Some(t), renewTime := Some(t))
  }

  /** The server refuses a PATCH of a missing Lease, or one whose
      resourceVersion is not the current one. */
  predicate Accepted(lease: Option<Lease>, patch: Patch) {
    lease.Some? && (patch.Cas? ==> patch.resVer == lease.value.resVer)
  }

  // ── Pods ─────────────────────────────────────────────────────────────────

  datatype Personality = Master | Shadow

  /** Where the sidecar loop is. `reply` is the server's verdict on a PATCH that
      has landed but whose answer has not come back. */
  datatype Sidecar =
    | Down
    | Polling(issued: int)
    | Answered(seen: Lease, issued: int)
    | Renewing(stamp: int, reply: Option<bool>)
    | Releasing(stamp: int, reply: Option<bool>)
    | BackingOff(resVer: nat, until: int)
    | Acquiring(resVer: nat, stamp: int, reply: Option<bool>)
    | Deleting(until: int)
    | Sleeping(until: int)

  /** `alive` is sfsmaster's process; `started` is START_EPOCH. Two history
      fields: `wasted`, seconds lost to failed reads since the last confirmed
      renewal or attempt to acquire, and `released`, whether a release in this pod's name has landed
      since the pod was created. The personality lives in an emptyDir, so only
      PodInit changes it. */
  datatype Pod =
    | Gone
    | Up(personality: Personality, alive: bool, started: int, wasted: nat, released: bool, sidecar: Sidecar)

  /** `rev` is the API server's revision counter; `wire` holds the PATCHes sent
      but not yet landed; `grace` is spec.master.startupGracePeriod. */
  datatype State = State(
    now: int,
    rev: nat,
    lease: Option<Lease>,
    pods: map<PodName, Pod>,
    wire: multiset<Patch>,
    grace: int)

  predicate IsUp(s: State, p: PodName) { p in s.pods && s.pods[p].Up? }

  predicate RunsAsMaster(s: State, p: PodName) { IsUp(s, p) && s.pods[p].personality == Master }

  predicate Holds(s: State, p: PodName) { s.lease.Some? && s.lease.value.holder == p }

  predicate Initial(s: State) {
    && s.lease == None
    && s.wire == multiset{}
    && "" !in s.pods
    && forall p :: p in s.pods ==> s.pods[p] == Gone
  }

  // ── Steps ────────────────────────────────────────────────────────────────

  datatype Step =
    | Tick                                    // one second passes
    | Bootstrap                               // the operator creates an empty Lease
    | DeleteLease                             // the operator, or a user, deletes it
    | PodGone(p: PodName)                     // deletion, eviction, node loss
    | PodInit(p: PodName, answered: bool)     // a new pod's init-config reads the Lease
    | Process(p: PodName, running: bool)      // sfsmaster dies or is restarted in place
    | StartSidecar(p: PodName)
    | CrashSidecar(p: PodName)
    | ServeGet(p: PodName)
    | FailGet(p: PodName)
    | Decide(p: PodName, mtime: int)
    | SendCas(p: PodName)
    | Land(patch: Patch)                      // the server handles a PATCH
    | Drop(patch: Patch)                      // the network loses it
    | Hear(p: PodName)
    | GiveUp(p: PodName)                      // wget fails or times out: empty answer
    | Wake(p: PodName)

  predicate Enabled(s: State, step: Step) {
    match step
    case Tick => true
    case Bootstrap => s.lease.None?
    case DeleteLease => s.lease.Some?
    case PodGone(p) => IsUp(s, p)
    case PodInit(p, answered) => p in s.pods && s.pods[p].Gone?
    case Process(p, _) => IsUp(s, p)
    case StartSidecar(p) => IsUp(s, p) && s.pods[p].sidecar.Down?
    case CrashSidecar(p) => IsUp(s, p)
    case ServeGet(p) => IsUp(s, p) && s.pods[p].sidecar.Polling? && s.lease.Some?
    case FailGet(p) => IsUp(s, p) && (s.pods[p].sidecar.Polling? || s.pods[p].sidecar.Answered?)
    case Decide(p, _) => IsUp(s, p) && s.pods[p].sidecar.Answered?
    case SendCas(p) => IsUp(s, p) && s.pods[p].sidecar.BackingOff? && s.pods[p].sidecar.until <= s.now
    case Land(patch) => patch in s.wire
    case Drop(patch) => patch in s.wire
    case Hear(p) => IsUp(s, p) && HasReply(s.pods[p].sidecar)
    case GiveUp(p) => IsUp(s, p) && InPatch(s.pods[p].sidecar)
    case Wake(p) =>
      && IsUp(s, p)
      && (s.pods[p].sidecar.Sleeping? || s.pods[p].sidecar.Deleting?)
      && s.pods[p].sidecar.until <= s.now
  }

  predicate InPatch(sc: Sidecar) { sc.Renewing? || sc.Releasing? || sc.Acquiring? }

  predicate HasReply(sc: Sidecar) { InPatch(sc) && sc.reply.Some? }

  /** The sidecar is waiting for this PATCH, which has not landed yet. */
  predicate WaitsFor(sc: Sidecar, patch: Patch) {
    match patch
    case Renew(_, t) => sc == Renewing(t, None)
    case Release(_, t) => sc == Releasing(t, None)
    case Cas(_, rv, t) => sc == Acquiring(rv, t, None)
  }

  function Elapsed(since: int, now: int): nat { if since < now then now - since else 0 }

  function WithSidecar(s: State, p: PodName, sc: Sidecar): State
    requires IsUp(s, p)
  {
    s.(pods := s.pods[p := s.pods[p].(sidecar := sc)])
  }

  function Send(s: State, patch: Patch, sc: Sidecar): State
    requires IsUp(s, patch.from)
  {
    WithSidecar(s, patch.from, sc).(wire := s.wire + multiset{patch})
  }

  /** What the loop body decides to do next. */
  datatype Action =
    | SendRelease
    | SendRenewal
    | Pause
    | BackOff(delay: int)

  /** The decision, from the Lease that was read. */
  function Choice(me: PodName, seen: Lease, alive: bool, started: int, grace: int, mtime: int, now: int): Action {
    if seen.holder == me then
      if now - started >= grace && !alive then SendRelease else SendRenewal
    else if !Expired(seen, now) then Pause
    else BackOff(Backoff.StaleDelay(me, mtime, now))
  }

  /** The body of the loop once the answer to the GET is in. */
  function Decided(s: State, p: PodName, mtime: int): State
    requires IsUp(s, p) && s.pods[p].sidecar.Answered?
  {
    var pod := s.pods[p];
    var l := pod.sidecar.seen;
    match Choice(p, l, pod.alive, pod.started, s.grace, mtime, s.now)
    case SendRelease => Send(s, Release(p, s.now), Releasing(s.now, None))
    case SendRenewal => Send(s, Renew(p, s.now), Renewing(s.now, None))
    case Pause => WithSidecar(s, p, Sleeping(s.now + OBSERVE_INTERVAL))
    case BackOff(delay) => WithSidecar(s, p, BackingOff(l.resVer, s.now + delay))
  }

  /** A write that changes the content takes the next revision; one that does
      not is answered but leaves the record as it is. */
  function Stored(s: State, patch: Patch): State
    requires Accepted(s.lease, patch)
  {
    var m := Merged(s.lease.value, patch);
    if m == s.lease.value then s else s.(lease := Some(m.(resVer := s.rev + 1)), rev := s.rev + 1)
  }

  function Marked(pod: Pod, patch: Patch, ok: bool): Pod
    requires pod.Up?
  {
    var sc := if !WaitsFor(pod.sidecar, patch) then pod.sidecar else pod.sidecar.(reply := Some(ok));
    pod.(sidecar := sc, released := pod.released || (ok && patch.Release?))
  }

  function Landed(s: State, patch: Patch): State
    requires patch in s.wire
  {
    var ok := Accepted(s.lease, patch);
    var s1 := (if ok then Stored(s, patch) else s).(wire := s.wire - multiset{patch});
    if IsUp(s, patch.from)
    then s1.(pods := s.pods[patch.from := Marked(s.pods[patch.from], patch, ok)])
    else s1
  }

  /** What follows the PATCH, given whether the answer names this pod as holder
      (for a release the answer is thrown away). */
  function AfterPatch(sc: Sidecar, ok: bool, now: int): Sidecar
    requires InPatch(sc)
  {
    if sc.Renewing? then
      if ok then Sleeping(now + RENEW_INTERVAL) else Deleting(now + DELETE_PAUSE + RENEW_INTERVAL)
    else if sc.Releasing? then Deleting(now + DELETE_PAUSE)
    else if ok then Deleting(now + DELETE_PAUSE + OBSERVE_INTERVAL)
    else Sleeping(now + OBSERVE_INTERVAL)
  }

  function Do(s: State, step: Step): State
    requires Enabled(s, step)
  {
    match step
    case Tick => s.(now := s.now + 1)
    case Bootstrap => s.(lease := Some(Lease("", None, None, s.rev + 1)), rev := s.rev + 1)
    case DeleteLease => s.(lease := None, rev := s.rev + 1)
    case PodGone(p) => s.(pods := s.pods[p := Gone])
    case PodInit(p, answered) =>
      var holds := answered && s.lease.Some? && s.lease.value.holder == p;
      s.(pods := s.pods[p := Up(if holds then Master else Shadow, false, s.now, 0, false, Down)])
    case Process(p, running) => s.(pods := s.pods[p := s.pods[p].(alive := running)])
    case StartSidecar(p) => s.(pods := s.pods[p := s.pods[p].(started := s.now, sidecar := Polling(s.now))])
    case CrashSidecar(p) => WithSidecar(s, p, Down)
    case ServeGet(p) => WithSidecar(s, p, Answered(s.lease.value, s.pods[p].sidecar.issued))
    case FailGet(p) =>
      var pod := s.pods[p];
      var cost := Elapsed(pod.sidecar.issued, s.now) + OBSERVE_INTERVAL;
      s.(pods := s.pods[p := pod.(wasted := pod.wasted + cost, sidecar := Sleeping(s.now + OBSERVE_INTERVAL))])
    case Decide(p, mtime) => Decided(s, p, mtime)
    case SendCas(p) =>
      var rv := s.pods[p].sidecar.resVer;
      Send(s.(pods := s.pods[p := s.pods[p].(wasted := 0)]), Cas(p, rv, s.now), Acquiring(rv, s.now, None))
    case Land(patch) => Landed(s, patch)
    case Drop(patch) => s.(wire := s.wire - multiset{patch})
    case Hear(p) =>
      var pod := s.pods[p];
      var ok := pod.sidecar.reply.value;
      var wasted := if pod.sidecar.Renewing? && ok then 0 else pod.wasted;
      s.(pods := s.pods[p := pod.(wasted := wasted, sidecar := AfterPatch(pod.sidecar, ok, s.now))])
    case GiveUp(p) => WithSidecar(s, p, AfterPatch(s.pods[p].sidecar, false, s.now))
    case Wake(p) => WithSidecar(s, p, Polling(s.now))
  }

  /** The pod a step belongs to; "" for the clock, the operator and the network. */
  function Actor(step: Step): PodName {
    match step
    case Tick => ""
    case Bootstrap => ""
    case DeleteLease => ""
    case Drop(_) => ""
    case Land(patch) => patch.from
    case _ => step.p
  }

  /** No step touches a pod that it does not belong to. */
  lemma OnlyActorMoves(s: State, step: Step, p: PodName)
    requires Enabled(s, step) && p in s.pods && p != Actor(step)
    ensures p in Do(s, step).pods && Do(s, step).pods[p] == s.pods[p]
  {
  }

  lemma LandedSidecar(s: State, patch: Patch)
    requires patch in s.wire && IsUp(s, patch.from)
    ensures IsUp(Landed(s, patch), patch.from)
    ensures var sc, sc' := s.pods[patch.from].sidecar, Landed(s, patch).pods[patch.from].sidecar;
            sc' == sc || (InPatch(sc) && exists ok :: sc' == sc.(reply := Some(ok)))
  {
  }

  lemma NewPodIsDown(s: State, step: Step, p: PodName)
    requires Enabled(s, step) && IsUp(Do(s, step), p) && !IsUp(s, p)
    ensures Do(s, step).pods[p].sidecar.Down? && step.PodInit? && step.p == p
  {
    if p in s.pods && p != Actor(step) { OnlyActorMoves(s, step, p); }
  }

  /** Only init-config writes the personality. */
  lemma PersonalityStays(s: State, step: Step, p: PodName)
    requires Enabled(s, step) && IsUp(s, p) && IsUp(Do(s, step), p)
    ensures Do(s, step).pods[p].personality == s.pods[p].personality
  {
    if p != Actor(step) { OnlyActorMoves(s, step, p); }
  }

  lemma OwnAnswer(s: State, step: Step, s': State, p: PodName)
    requires Enabled(s, step) && s' == Do(s, step) && IsUp(s, p) && p == Actor(step)
    requires IsUp(s', p) && s'.pods[p].sidecar.Answered? && !step.Decide? && !step.Land?
    ensures step == ServeGet(p) || s'.pods[p].sidecar == s.pods[p].sidecar
  {
  }

  /** An answer that a sidecar holds was there before or has just been read. */
  lemma AnsweredByRead(s: State, step: Step, p: PodName)
    requires Enabled(s, step) && IsUp(Do(s, step), p) && Do(s, step).pods[p].sidecar.Answered?
    ensures IsUp(s, p)
    ensures var sc' := Do(s, step).pods[p].sidecar;
            || s.pods[p].sidecar == sc'
            || (step == ServeGet(p) && s.lease == Some(sc'.seen) && s.pods[p].sidecar == Polling(sc'.issued)
                && Do(s, step).lease == s.lease)
  {
    var s' := Do(s, step);
    if !IsUp(s, p) {
      NewPodIsDown(s, step, p);
    } else if p != Actor(step) {
      OnlyActorMoves(s, step, p);
    } else {
      match step {
        case Land(patch) => LandedSidecar(s, patch);
        case Decide(_, _) =>
        case _ => OwnAnswer(s, step, s', p);
      }
    }
  }

  // ── Runs ─────────────────────────────────────────────────────────────────

  predicate StepAt(states: seq<State>, steps: seq<Step>, i: nat)
    requires |states| == |steps| + 1 && i < |steps|
  {
    Enabled(states[i], steps[i]) && states[i + 1] == Do(states[i], steps[i])
  }

  /** states[0] is followed by one state per step. */
  ghost predicate IsRun(states: seq<State>, steps: seq<Step>) {
    && |states| == |steps| + 1
    && forall i :: 0 <= i < |steps| ==> StepAt(states, steps, i)
  }

  lemma RunExtends(states: seq<State>, steps: seq<Step>, step: Step, t: State)
    requires IsRun(states, steps) && Enabled(states[|steps|], step) && t == Do(states[|steps|], step)
    ensures IsRun(states + [t], steps + [step])
  {
    forall i | 0 <= i < |steps + [step]| ensures StepAt(states + [t], steps + [step], i) {
      if i < |steps| { assert StepAt(states, steps, i); }
    }
  }

  /** This step is the landing of a compare-and-swap that the server accepts. */
  predicate Acquires(s: State, step: Step) {
    step.Land? && step.patch.Cas? && Accepted(s.lease, step.patch)
  }
}
