/** The accept side of the control connection: any number of sessions, each tracked, attached,
    ended, reported lost and untracked, running against revokes and any number of shutdowns.
    The machine is composed with the tunnel service of TunnelRuns in one process life. */
module LinkHandler {
  import opened Lifecycle
  import opened TunnelPolicy
  import opened TunnelRuns
  import TunnelTheorems

  type SessionId = nat

  /** What the handler's mutex and wait group guard. */
  datatype Door = Door(closing: bool, live: set<SessionId>, links: int) {
    /** Registers a session unless shutdown has begun. */
    function Admit(id: SessionId): (Door, bool) {
      if closing then (this, false) else (Door(closing, live + {id}, links + 1), true)
    }

    function Forget(id: SessionId): Door {
      this.(live := live - {id})
    }

    function Release(): Door {
      this.(links := links - 1)
    }

    function Close(): Door {
      this.(closing := true)
    }
  }

  /** The handler's own state; each method is one critical section. */
  class Handler {
    var closing: bool
    var live: set<SessionId>
    var links: int

    constructor ()
      ensures State() == Door(false, {}, 0)
    {
      closing, live, links := false, {}, 0;
    }

    function State(): Door
      reads this
    {
      Door(closing, live, links)
    }

    method Track(id: SessionId) returns (tracked: bool)
      modifies this
      ensures (State(), tracked) == old(State()).Admit(id)
    {
      if closing {
        return false;
      }
      live := live + {id};
      links := links + 1;
      return true;
    }

    method Forget(id: SessionId)
      modifies this
      ensures State() == old(State()).Forget(id)
    {
      live := live - {id};
    }

    method Done()
      modifies this
      ensures State() == old(State()).Release()
    {
      links := links - 1;
    }

    /** A second shutdown finds the channel closed already. */
    method BeginShutdown()
      modifies this
      ensures State() == old(State()).Close()
    {
      if !closing {
        closing := true;
      }
    }
  }

  /** How far a session's serve call has come. */
  datatype Phase =
    | Upgraded
    | TurnedAway
    | Tracked
    | Rejected
    | Attached(generation: nat)
    | Ended(generation: nat)
    | Reported
    | Forgotten
    | Finished

  datatype Session = Session(claim: Claim, link: LinkId, phase: Phase)

  datatype Caller = Waiting | Cutting | Returned

  /** `failed` holds the generations whose loss could not be written; `storeCalls` counts the
      store calls sessions have made. */
  datatype State = State(
    world: World,
    door: Door,
    sessions: map<SessionId, Session>,
    callers: map<nat, Caller>,
    failed: set<nat>,
    storeCalls: nat)

  datatype Move =
    | Upgrade(id: SessionId, claim: Claim, link: LinkId)
    | Track(id: SessionId)
    | AttachLink(id: SessionId, read: bool, checkedAt: Instant, recordedAt: Instant, committed: bool, stampedAt: Instant)
    | End(id: SessionId)
    | Report(id: SessionId, at: Instant, committed: bool)
    | Untrack(id: SessionId)
    | Release(id: SessionId)
    | Operate(step: Step)
    | BeginShutdown(caller: nat)
    | Deadline(caller: nat)
    | ReturnShutdown(caller: nat)

  function AttachStepOf(session: Session, m: Move): Step
    requires m.AttachLink?
  {
    Step.Attach(session.claim, session.link, m.read, m.checkedAt, m.recordedAt, m.committed, m.stampedAt)
  }

  predicate At(s: State, id: SessionId, phases: set<Phase>) {
    id in s.sessions && s.sessions[id].phase in phases
  }

  predicate Allowed(s: State, m: Move) {
    match m
    case Upgrade(id, _, link) =>
      id !in s.sessions && link !in s.world.links && forall other | other in s.sessions :: s.sessions[other].link != link
    case Track(id) => At(s, id, {Upgraded})
    case AttachLink(id, _, _, _, _, _) => At(s, id, {Tracked}) && Enabled(s.world, AttachStepOf(s.sessions[id], m))
    case End(id) => id in s.sessions && s.sessions[id].phase.Attached?
    case Report(id, at, committed) =>
      && id in s.sessions && s.sessions[id].phase.Ended?
      && Enabled(s.world, Lost(s.sessions[id].phase.generation, at, committed))
    case Untrack(id) => At(s, id, {Rejected, Reported})
    case Release(id) => At(s, id, {Forgotten})
    case Operate(step) => (step.ClaimTunnel? || step.RevokeTunnel?) && Enabled(s.world, step)
    case BeginShutdown(caller) => caller !in s.callers
    case Deadline(caller) => caller in s.callers && s.callers[caller].Waiting?
    case ReturnShutdown(caller) => caller in s.callers && s.door.links == 0
  }

  function Become(s: State, id: SessionId, phase: Phase): State
    requires id in s.sessions
  {
    s.(sessions := s.sessions[id := s.sessions[id].(phase := phase)])
  }

  function After(s: State, m: Move): State
    requires Allowed(s, m)
  {
    match m
    case Upgrade(id, claim, link) => s.(sessions := s.sessions[id := Session(claim, link, Upgraded)])
    case Track(id) =>
      var (door, admitted) := s.door.Admit(id);
      Become(s.(door := door), id, if admitted then Tracked else TurnedAway)
    case AttachLink(id, _, _, _, _, _) =>
      var step := AttachStepOf(s.sessions[id], m);
      var e := AttachEffect(s.world, step);
      Become(s.(world := Next(s.world, step), storeCalls := s.storeCalls + 1), id,
             if e.result.Ok? then Attached(e.result.value) else Rejected)
    case End(id) => Become(s, id, Ended(s.sessions[id].phase.generation))
    case Report(id, at, committed) =>
      var generation := s.sessions[id].phase.generation;
      var step := Lost(generation, at, committed);
      Become(s.(world := Next(s.world, step), storeCalls := s.storeCalls + 1,
                failed := s.failed + (if LostEffect(s.world, step).result.Err? then {generation} else {})), id, Reported)
    case Untrack(id) => Become(s.(door := s.door.Forget(id)), id, Forgotten)
    case Release(id) => Become(s.(door := s.door.Release()), id, Finished)
    case Operate(step) => s.(world := Next(s.world, step))
    case BeginShutdown(caller) => s.(door := s.door.Close(), callers := s.callers[caller := Waiting])
    case Deadline(caller) => s.(callers := s.callers[caller := Cutting])
    case ReturnShutdown(caller) => s.(callers := s.callers[caller := Returned])
  }

  /** A process that has just started over a sound world: nothing attached, nothing closing. */
  predicate Fresh(s: State) {
    && s.world.tunnels.live == map[] && s.world.handles == map[]
    && s.door == Door(false, {}, 0) && s.sessions == map[] && s.callers == map[] && s.failed == {} && s.storeCalls == 0
  }

  // ---------------------------------------------------------------------------------------
  // What every move keeps
  // ---------------------------------------------------------------------------------------

  predicate InTracking(phase: Phase) {
    phase.Tracked? || phase.Rejected? || phase.Attached? || phase.Ended? || phase.Reported?
  }

  /** The sessions the handler can still cut. */
  function Tracking(sessions: map<SessionId, Session>): set<SessionId> {
    set id | id in sessions && InTracking(sessions[id].phase)
  }

  /** The sessions the wait group counts. */
  function Counted(sessions: map<SessionId, Session>): set<SessionId> {
    set id | id in sessions && InWaitGroup(sessions[id].phase)
  }

  predicate DoorSound(s: State) {
    && s.door.live == Tracking(s.sessions)
    && s.door.links == |Counted(s.sessions)|
    && (s.callers != map[] ==> s.door.closing)
    && (forall c | c in s.callers && s.callers[c].Returned? :: Counted(s.sessions) == {})
  }

  predicate Holding(session: Session, generation: nat) {
    (session.phase.Attached? || session.phase.Ended?) && session.phase.generation == generation
  }

  /** Attached sessions hold the handle they were given, and every live attachment has a session
      that still owes the report of its loss, or a report that failed. */
  ghost predicate OwnersSound(s: State) {
    && HandlesHeld(s)
    && (forall t | t in s.world.tunnels.live :: Owned(s, s.world.tunnels.live[t].generation))
  }

  ghost predicate HandlesHeld(s: State) {
    forall id, g | id in s.sessions && Holding(s.sessions[id], g) ::
      g in s.world.handles && s.world.handles[g] == Handle(s.sessions[id].claim.subdomain, s.sessions[id].link)
  }

  ghost predicate Owned(s: State, generation: nat) {
    generation in s.failed || exists id :: id in s.sessions && Holding(s.sessions[id], generation)
  }

  /** A session that changes phase joins or leaves the two groups, and no other does. */
  lemma BecomeRegroups(sessions: map<SessionId, Session>, id: SessionId, session: Session)
    ensures Tracking(sessions[id := session])
         == Tracking(sessions) - {id} + (if InTracking(session.phase) then {id} else {})
    ensures Counted(sessions[id := session])
         == Counted(sessions) - {id} + (if InWaitGroup(session.phase) then {id} else {})
  {
  }

  predicate InWaitGroup(phase: Phase) {
    InTracking(phase) || phase.Forgotten?
  }

  /** A phase change and the door change that goes with it. */
  lemma RegroupKeepsDoor(s: State, v: State, id: SessionId, session: Session)
    requires DoorSound(s) && v.sessions == s.sessions[id := session] && v.callers == s.callers
    requires v.door.closing == s.door.closing
    requires InWaitGroup(session.phase) ==> !s.door.closing || (id in s.sessions && InWaitGroup(s.sessions[id].phase))
    requires v.door.live == s.door.live - {id} + (if InTracking(session.phase) then {id} else {})
    requires v.door.links == s.door.links
      - (if id in s.sessions && InWaitGroup(s.sessions[id].phase) then 1 else 0)
      + (if InWaitGroup(session.phase) then 1 else 0)
    ensures DoorSound(v)
  {
    BecomeRegroups(s.sessions, id, session);
    var before, stays := Counted(s.sessions), InWaitGroup(session.phase);
    assert id in before <==> id in s.sessions && InWaitGroup(s.sessions[id].phase);
    Regrouped(before, id, stays);
    hide Tracking, Counted, InWaitGroup, InTracking;
    assert stays && before == {} ==> !s.door.closing;
  }

  lemma Regrouped(group: set<SessionId>, id: SessionId, stays: bool)
    ensures |group - {id} + (if stays then {id} else {})|
         == |group| - (if id in group then 1 else 0) + (if stays then 1 else 0)
  {
    var others := group - {id};
    if id in group { assert group == others + {id}; } else { assert group == others; }
  }

  lemma MoveKeepsDoor(s: State, m: Move)
    requires DoorSound(s) && Allowed(s, m)
    ensures DoorSound(After(s, m))
  {
    var v := After(s, m);
    if m.Upgrade? || m.Track? || m.AttachLink? || m.End? || m.Report? || m.Untrack? || m.Release? {
      MoveRegroups(s, m);
      RegroupKeepsDoor(s, v, m.id, v.sessions[m.id]);
    } else {
      hide Next, Enabled;
      assert v.sessions == s.sessions;
    }
  }

  lemma MoveRegroups(s: State, m: Move)
    requires Allowed(s, m) && s.door.live == Tracking(s.sessions)
    requires m.Upgrade? || m.Track? || m.AttachLink? || m.End? || m.Report? || m.Untrack? || m.Release?
    ensures var v := After(s, m);
      && m.id in v.sessions && v.sessions == s.sessions[m.id := v.sessions[m.id]] && v.callers == s.callers
      && v.door.closing == s.door.closing
      && (InWaitGroup(v.sessions[m.id].phase) ==> !s.door.closing || (m.id in s.sessions && InWaitGroup(s.sessions[m.id].phase)))
      && v.door.live == s.door.live - {m.id} + (if InTracking(v.sessions[m.id].phase) then {m.id} else {})
      && v.door.links == s.door.links
           - (if m.id in s.sessions && InWaitGroup(s.sessions[m.id].phase) then 1 else 0)
           + (if InWaitGroup(v.sessions[m.id].phase) then 1 else 0)
  {
    hide Next, Enabled, AttachStep, LostStep;
    assert m.id in s.door.live <==> m.id in s.sessions && InTracking(s.sessions[m.id].phase);
  }

  lemma MoveKeepsSound(s: State, m: Move)
    requires Sound(s.world) && Allowed(s, m)
    ensures Sound(After(s, m).world)
  {
    hide Sound, Next, Enabled, AttachStep, LostStep;
    match m
    case AttachLink(id, _, _, _, _, _) => StepKeepsSound(s.world, AttachStepOf(s.sessions[id], m));
    case Report(id, at, committed) => StepKeepsSound(s.world, Lost(s.sessions[id].phase.generation, at, committed));
    case Operate(step) => StepKeepsSound(s.world, step);
    case _ =>
  }

  lemma AttachKeepsOwners(s: State, m: Move)
    requires OwnersSound(s) && TableSound(s.world) && Allowed(s, m) && m.AttachLink?
    ensures OwnersSound(After(s, m))
  {
    var step, v := AttachStepOf(s.sessions[m.id], m), After(s, m);
    AttachMoves(s.world, step);
    AttachGrants(s.world, step);
    AttachKeepsHandles(s, m);
    hide Next, AttachStep, Enabled, TableSound;
    forall t | t in v.world.tunnels.live ensures Owned(v, v.world.tunnels.live[t].generation) {
      if v.world.tunnels.live != s.world.tunnels.live && t == step.claim.subdomain {
        assert Holding(v.sessions[m.id], v.world.tunnels.live[t].generation);
      } else {
        assert Owned(s, s.world.tunnels.live[t].generation);
        OwnerStays(s, v, m.id, s.world.tunnels.live[t].generation);
      }
    }
  }

  /** What an attach does to its session and the handles. */
  lemma AttachShapes(s: State, m: Move)
    requires Allowed(s, m) && m.AttachLink?
    ensures var w, v, g := s.world, After(s, m), s.world.tunnels.generation + 1;
      var session := s.sessions[m.id];
      if AttachEffect(w, AttachStepOf(session, m)).result.Ok? then
        && v.sessions == s.sessions[m.id := session.(phase := Attached(g))]
        && v.world.handles == w.handles[g := Handle(session.claim.subdomain, session.link)]
      else v.sessions == s.sessions[m.id := session.(phase := Rejected)] && v.world.handles == w.handles
  {
    AttachMoves(s.world, AttachStepOf(s.sessions[m.id], m));
    AttachGrants(s.world, AttachStepOf(s.sessions[m.id], m));
    hide Next, AttachEffect, Enabled;
  }

  lemma AttachKeepsHandles(s: State, m: Move)
    requires HandlesHeld(s) && TableSound(s.world) && Allowed(s, m) && m.AttachLink?
    ensures HandlesHeld(After(s, m))
  {
    AttachShapes(s, m);
    var v := After(s, m);
    assert forall g | g in s.world.handles :: g <= s.world.tunnels.generation;
    hide After, Allowed, AttachEffect, TableSound;
    forall id, g | id in v.sessions && Holding(v.sessions[id], g)
      ensures g in v.world.handles && v.world.handles[g] == Handle(v.sessions[id].claim.subdomain, v.sessions[id].link)
    {
      if id != m.id { assert v.sessions[id] == s.sessions[id] && Holding(s.sessions[id], g); }
    }
  }

  lemma AttachGrants(w: World, step: Step)
    requires step.Attach? && Enabled(w, step)
    ensures AttachEffect(w, step).result.Ok? ==> AttachEffect(w, step).result.value == w.tunnels.generation + 1
  {
  }

  /** A holder other than the session that moved still holds. */
  lemma OwnerStays(s: State, v: State, id: SessionId, generation: nat)
    requires Owned(s, generation) && s.failed <= v.failed && id in v.sessions
    requires v.sessions == s.sessions[id := v.sessions[id]]
    requires id in s.sessions && Holding(s.sessions[id], generation) ==>
      Holding(v.sessions[id], generation) || generation in v.failed
    ensures Owned(v, generation)
  {
    if generation !in v.failed {
      var o :| o in s.sessions && Holding(s.sessions[o], generation);
      assert o in v.sessions && Holding(v.sessions[o], generation);
    }
  }

  lemma ReportKeepsOwners(s: State, m: Move)
    requires OwnersSound(s) && TableSound(s.world) && Allowed(s, m) && m.Report?
    ensures OwnersSound(After(s, m))
  {
    var g, v := s.sessions[m.id].phase.generation, After(s, m);
    var step := Lost(g, m.at, m.committed);
    LostMoves(s.world, step);
    LostRefuses(s.world, step);
    hide Next, LostStep, Enabled;
    forall t | t in v.world.tunnels.live ensures Owned(v, v.world.tunnels.live[t].generation) {
      assert v.world.tunnels.live[t] == s.world.tunnels.live[t];
      OwnerStays(s, v, m.id, s.world.tunnels.live[t].generation);
    }
  }

  lemma LostRefuses(w: World, step: Step)
    requires step.Lost? && Enabled(w, step)
    ensures LostEffect(w, step).result.Err? <==>
      var s := w.handles[step.generation].subdomain;
      s in w.tunnels.live && w.tunnels.live[s].generation == step.generation && !step.committed
  {
  }

  lemma OperateKeepsOwners(s: State, m: Move)
    requires OwnersSound(s) && TableSound(s.world) && Allowed(s, m) && m.Operate?
    ensures OwnersSound(After(s, m))
  {
    var v := After(s, m);
    OperateMoves(s.world, m.step);
    hide Next, Enabled;
    forall t | t in v.world.tunnels.live ensures Owned(v, v.world.tunnels.live[t].generation) {
      assert Owned(s, s.world.tunnels.live[t].generation);
    }
  }

  /** An operator's step hands out nothing and attaches nothing. */
  lemma OperateMoves(w: World, step: Step)
    requires (step.ClaimTunnel? || step.RevokeTunnel?) && Enabled(w, step)
    ensures var v := Next(w, step);
      && v.handles == w.handles
      && forall t | t in v.tunnels.live :: t in w.tunnels.live && v.tunnels.live[t] == w.tunnels.live[t]
  {
    if step.RevokeTunnel? { RevokeMoves(w, step); }
  }

  lemma QuietKeepsOwners(s: State, m: Move)
    requires OwnersSound(s) && Allowed(s, m) && !m.AttachLink? && !m.Report? && !m.Operate?
    ensures OwnersSound(After(s, m))
  {
    hide Next, Enabled;
    var v := After(s, m);
    forall t | t in v.world.tunnels.live ensures Owned(v, v.world.tunnels.live[t].generation) {
      var g := s.world.tunnels.live[t].generation;
      assert Owned(s, g);
      if g !in s.failed {
        var o :| o in s.sessions && Holding(s.sessions[o], g);
        assert o in v.sessions && Holding(v.sessions[o], g);
      }
    }
  }

  ghost predicate AllSound(s: State) {
    Sound(s.world) && DoorSound(s) && OwnersSound(s)
  }

  lemma MoveKeepsAll(s: State, m: Move)
    requires AllSound(s) && Allowed(s, m)
    ensures AllSound(After(s, m))
  {
    TunnelTheorems.SoundParts(s.world);
    hide Sound, DoorSound, OwnersSound, After, Allowed, TableSound;
    MoveKeepsSound(s, m);
    MoveKeepsDoor(s, m);
    if m.AttachLink? { AttachKeepsOwners(s, m); }
    else if m.Report? { ReportKeepsOwners(s, m); }
    else if m.Operate? { OperateKeepsOwners(s, m); }
    else { QuietKeepsOwners(s, m); }
  }

  // ---------------------------------------------------------------------------------------
  // Every interleaving
  // ---------------------------------------------------------------------------------------

  ghost predicate Behavior(ss: seq<State>, moves: seq<Move>) {
    && |ss| == |moves| + 1
    && Fresh(ss[0]) && Sound(ss[0].world)
    && forall i | 0 <= i < |moves| :: Allowed(ss[i], moves[i]) && ss[i + 1] == After(ss[i], moves[i])
  }

  lemma {:induction false} AlwaysAllSound(ss: seq<State>, moves: seq<Move>, i: nat)
    requires Behavior(ss, moves) && i < |ss|
    ensures AllSound(ss[i])
    decreases i
  {
    hide After, Allowed, Sound;
    if i == 0 {
      assert Counted(ss[0].sessions) == {} && Tracking(ss[0].sessions) == {};
    } else {
      AlwaysAllSound(ss, moves, i - 1);
      hide AllSound;
      MoveKeepsAll(ss[i - 1], moves[i - 1]);
    }
  }

  /** Once closing has begun it stays so, no session joins the wait group, and a shutdown that
      has returned has returned for good. */
  lemma ClosingOnlyDrains(s: State, m: Move)
    requires DoorSound(s) && Allowed(s, m) && s.door.closing
    ensures After(s, m).door.closing
    ensures Counted(After(s, m).sessions) <= Counted(s.sessions)
    ensures After(s, m).door.links <= s.door.links
  {
    if m.Upgrade? || m.Track? || m.AttachLink? || m.End? || m.Report? || m.Untrack? || m.Release? {
      MoveRegroups(s, m);
      BecomeRegroups(s.sessions, m.id, After(s, m).sessions[m.id]);
    } else {
      hide Next, Enabled;
      assert After(s, m).sessions == s.sessions;
    }
  }

  /** From the first shutdown call on, in every interleaving, nothing is added to the wait
      group: the sessions it counts only ever leave it. */
  lemma {:induction false} NothingJoinsAfterClosing(ss: seq<State>, moves: seq<Move>, i: nat, j: nat)
    requires Behavior(ss, moves) && i <= j < |ss| && ss[i].door.closing
    ensures ss[j].door.closing && ss[j].door.links <= ss[i].door.links
    ensures Counted(ss[j].sessions) <= Counted(ss[i].sessions)
    decreases j
  {
    hide After, Allowed, Sound, Counted;
    if i < j {
      NothingJoinsAfterClosing(ss, moves, i, j - 1);
      AlwaysAllSound(ss, moves, j - 1);
      hide DoorSound;
      ClosingOnlyDrains(ss[j - 1], moves[j - 1]);
    }
  }

  /** A session that calls the store is counted by the wait group when it does. */
  lemma CallersAreCounted(s: State, m: Move)
    requires Allowed(s, m)
    ensures After(s, m).storeCalls != s.storeCalls ==>
      (m.AttachLink? || m.Report?) && m.id in Counted(s.sessions)
    ensures m.AttachLink? || m.Report? ==> m.id in Counted(s.sessions)
  {
    hide Next, Enabled, AttachStep, LostStep;
  }

  /** Once some shutdown has returned, no session attaches or reports a loss ever again, so none
      reads or writes the store. */
  lemma {:induction false} SilentAfterShutdown(ss: seq<State>, moves: seq<Move>, caller: nat, i: nat, j: nat)
    requires Behavior(ss, moves) && i <= j < |ss|
    requires caller in ss[i].callers && ss[i].callers[caller].Returned?
    ensures ss[j].storeCalls == ss[i].storeCalls && Counted(ss[j].sessions) == {}
    ensures j < |moves| ==> !moves[j].AttachLink? && !moves[j].Report?
    decreases j
  {
    hide After, Allowed, Sound, Counted, DoorSound, OwnersSound;
    NobodyCounted(ss, moves, caller, i, j);
    if j < |moves| { CallersAreCounted(ss[j], moves[j]); }
    if i < j {
      SilentAfterShutdown(ss, moves, caller, i, j - 1);
      CallersAreCounted(ss[j - 1], moves[j - 1]);
    }
  }

  lemma NobodyCounted(ss: seq<State>, moves: seq<Move>, caller: nat, i: nat, j: nat)
    requires Behavior(ss, moves) && i <= j < |ss|
    requires caller in ss[i].callers && ss[i].callers[caller].Returned?
    ensures Counted(ss[j].sessions) == {}
  {
    hide After, Allowed, Sound, Counted;
    AlwaysAllSound(ss, moves, i);
    ReturnedIsClosing(ss[i], caller);
    hide DoorSound, OwnersSound;
    NothingJoinsAfterClosing(ss, moves, i, j);
  }

  lemma ReturnedIsClosing(s: State, caller: nat)
    requires DoorSound(s) && caller in s.callers && s.callers[caller].Returned?
    ensures s.door.closing && Counted(s.sessions) == {}
  {
    hide Counted;
  }

  lemma MoveKeepsTears(s: State, m: Move, t: Subdomain)
    requires Sound(s.world) && Allowed(s, m)
    ensures Count(After(s, m).world.Journal(t), Torn) == Count(s.world.Journal(t), Torn)
  {
    hide Sound, Next, Enabled, AttachStep, LostStep, Count;
    match m
    case AttachLink(id, _, _, _, _, _) => TunnelTheorems.StepTears(s.world, AttachStepOf(s.sessions[id], m), t);
    case Report(id, at, committed) => TunnelTheorems.StepTears(s.world, Lost(s.sessions[id].phase.generation, at, committed), t);
    case Operate(step) => TunnelTheorems.StepTears(s.world, step, t);
    case _ =>
  }

  lemma {:induction false} TearsStay(ss: seq<State>, moves: seq<Move>, i: nat, t: Subdomain)
    requires Behavior(ss, moves) && i < |ss|
    ensures Count(ss[i].world.Journal(t), Torn) == Count(ss[0].world.Journal(t), Torn)
    decreases i
  {
    hide After, Allowed, Sound, Count;
    if i > 0 {
      TearsStay(ss, moves, i - 1, t);
      AlwaysAllSound(ss, moves, i - 1);
      MoveKeepsTears(ss[i - 1], moves[i - 1], t);
    }
  }

  /** When a shutdown has returned, what is still in the table is exactly left over from loss
      reports that could not be written. If none failed the table is empty and every
      subdomain's connections are matched by supersessions and disconnects, but for the
      tenancies that crashes of earlier processes cut off. */
  lemma ShutdownDrains(ss: seq<State>, moves: seq<Move>, caller: nat, i: nat)
    requires Behavior(ss, moves) && i < |ss|
    requires caller in ss[i].callers && ss[i].callers[caller].Returned?
    ensures forall t | t in ss[i].world.tunnels.live :: ss[i].world.tunnels.live[t].generation in ss[i].failed
    ensures ss[i].failed == {} ==> ss[i].world.tunnels.live == map[]
    ensures ss[i].failed == {} ==> forall t: Subdomain ::
      var rows := KindsOf(ss[i].world.tunnels.audit, t);
      CountKind(rows, Connected) - CountKind(rows, Superseded) - CountKind(rows, Disconnected)
      == Count(ss[0].world.Journal(t), Torn)
  {
    AlwaysAllSound(ss, moves, i);
    ReturnedLeavesFailures(ss[i], caller);
    if ss[i].failed == {} {
      forall t: Subdomain
        ensures var rows := KindsOf(ss[i].world.tunnels.audit, t);
          CountKind(rows, Connected) - CountKind(rows, Superseded) - CountKind(rows, Disconnected)
          == Count(ss[0].world.Journal(t), Torn)
      {
        TearsStay(ss, moves, i, t);
        SoundBalances(ss[i].world, t);
      }
    }
  }

  lemma ReturnedLeavesFailures(s: State, caller: nat)
    requires DoorSound(s) && OwnersSound(s) && caller in s.callers && s.callers[caller].Returned?
    ensures forall t | t in s.world.tunnels.live :: s.world.tunnels.live[t].generation in s.failed
    ensures s.failed == {} ==> s.world.tunnels.live == map[]
  {
    forall t | t in s.world.tunnels.live ensures s.world.tunnels.live[t].generation in s.failed {
      var g := s.world.tunnels.live[t].generation;
      assert Owned(s, g);
      assert forall id | id in s.sessions && Holding(s.sessions[id], g) :: id in Counted(s.sessions);
    }
  }

  lemma SoundBalances(w: World, t: Subdomain)
    requires Sound(w)
    ensures var rows := KindsOf(w.tunnels.audit, t);
      CountKind(rows, Connected) - CountKind(rows, Superseded) - CountKind(rows, Disconnected)
      == Count(w.Journal(t), Torn) + (if w.IsLive(t) then 1 else 0)
  {
    var journal := w.Journal(t);
    assert Written(journal) == KindsOf(w.tunnels.audit, t) && Replay(journal) == PositionIn(w.tunnels, t);
    ReplayBalances(journal);
    CountWritten(journal, Connected);
    CountWritten(journal, Superseded);
    CountWritten(journal, Disconnected);
  }

  /** In the first process ever started, with no loss write failing, the books balance. */
  lemma FirstProcessBalances(ss: seq<State>, moves: seq<Move>, caller: nat, i: nat, principal: string, t: Subdomain)
    requires Behavior(ss, moves) && i < |ss| && ss[0].world == Initial(principal)
    requires caller in ss[i].callers && ss[i].callers[caller].Returned? && ss[i].failed == {}
    ensures var rows := KindsOf(ss[i].world.tunnels.audit, t);
      CountKind(rows, Connected) == CountKind(rows, Superseded) + CountKind(rows, Disconnected)
  {
    hide After, Allowed, Sound;
    ShutdownDrains(ss, moves, caller, i);
    assert ss[0].world.Journal(t) == [];
  }
}
