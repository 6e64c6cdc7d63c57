/** The execution coordinator: who holds a session, what is registered as running, and what cleanup leaves behind. */
module Coordination {
  import opened Basics

  type ExecutionKey = (string, string)

  /** The seven maps of the executor, as the execution keys registered in each. */
  datatype Running = Running(
    requests: set<ExecutionKey>,
    stopEvents: set<ExecutionKey>,
    identities: set<ExecutionKey>,
    sessionIds: set<ExecutionKey>,
    directories: set<ExecutionKey>,
    workspaceIds: set<ExecutionKey>,
    bindingContextIds: set<ExecutionKey>)
  {
    function All(): set<ExecutionKey> {
      requests + stopEvents + identities + sessionIds + directories + workspaceIds + bindingContextIds
    }

    function WithRequest(k: ExecutionKey): Running {
      this.(requests := requests + {k}, stopEvents := stopEvents + {k}, identities := identities + {k})
    }

    function WithSession(k: ExecutionKey): Running {
      this.(sessionIds := sessionIds + {k}, directories := directories + {k}, workspaceIds := workspaceIds + {k},
            bindingContextIds := bindingContextIds + {k})
    }

    function Without(k: ExecutionKey): Running {
      Running(requests - {k}, stopEvents - {k}, identities - {k}, sessionIds - {k}, directories - {k}, workspaceIds - {k},
              bindingContextIds - {k})
    }
  }

  class SessionLock {
    var locked: bool

    constructor ()
      ensures !locked
    {
      locked := false;
    }
  }

  /** The consumer task of a streaming request. */
  class StreamTask {
    var cancelled: bool
    var finished: bool

    constructor ()
      ensures !cancelled && !finished
    {
      cancelled, finished := false, false;
    }
  }

  class Executor {
    var requests: map<ExecutionKey, int>
    var stopEvents: map<ExecutionKey, int>
    var identities: map<ExecutionKey, string>
    var sessionIds: map<ExecutionKey, string>
    var directories: map<ExecutionKey, Option<string>>
    var workspaceIds: map<ExecutionKey, Option<string>>
    var bindingContextIds: map<ExecutionKey, string>
    /** Unfinalised claims, as (session, identity). */
    var claims: set<(string, string)>

    ghost function View(): Running
      reads this
    {
      Running(requests.Keys, stopEvents.Keys, identities.Keys, sessionIds.Keys, directories.Keys, workspaceIds.Keys,
              bindingContextIds.Keys)
    }
  }

  lemma KeyAdded<V>(m: map<ExecutionKey, V>, k: ExecutionKey, v: V)
    ensures m[k := v].Keys == m.Keys + {k}
  {
  }

  class ExecutionCoordinator {
    const executor: Executor
    const key: ExecutionKey
    const identity: string
    var sessionId: string
    var pendingPreferredClaim: bool
    var sessionLock: Option<SessionLock>
    var streamTask: Option<StreamTask>
    var stopped: bool

    constructor (executor: Executor, key: ExecutionKey, identity: string)
      ensures this.executor == executor && this.key == key && this.identity == identity
      ensures sessionId == "" && !pendingPreferredClaim && sessionLock.None? && streamTask.None? && !stopped
    {
      this.executor, this.key, this.identity := executor, key, identity;
      sessionId, pendingPreferredClaim, sessionLock, streamTask, stopped := "", false, None, None, false;
    }

    method RegisterRunningRequest(task: int, stopEvent: int)
      modifies executor
      ensures executor.View() == old(executor.View()).WithRequest(key) && executor.claims == old(executor.claims)
      ensures executor.requests == old(executor.requests)[key := task]
      ensures executor.stopEvents == old(executor.stopEvents)[key := stopEvent]
      ensures executor.identities == old(executor.identities)[key := identity]
    {
      executor.requests := executor.requests[key := task];
      executor.stopEvents := executor.stopEvents[key := stopEvent];
      executor.identities := executor.identities[key := identity];
    }

    /** The part of session binding after the lock has been acquired. */
    method RegisterSession(directory: Option<string>, workspaceId: Option<string>, contextId: string)
      modifies executor
      ensures executor.View() == old(executor.View()).WithSession(key) && executor.claims == old(executor.claims)
      ensures executor.sessionIds == old(executor.sessionIds)[key := sessionId]
      ensures executor.directories == old(executor.directories)[key := directory]
      ensures executor.workspaceIds == old(executor.workspaceIds)[key := workspaceId]
      ensures executor.bindingContextIds == old(executor.bindingContextIds)[key := contextId]
    {
      KeyAdded(executor.sessionIds, key, sessionId);
      KeyAdded(executor.directories, key, directory);
      KeyAdded(executor.workspaceIds, key, workspaceId);
      KeyAdded(executor.bindingContextIds, key, contextId);
      executor.sessionIds := executor.sessionIds[key := sessionId];
      executor.directories := executor.directories[key := directory];
      executor.workspaceIds := executor.workspaceIds[key := workspaceId];
      executor.bindingContextIds := executor.bindingContextIds[key := contextId];
    }

    method ReleaseClaim()
      modifies executor
      ensures executor.View() == old(executor.View())
      ensures executor.claims == old(executor.claims) - if pendingPreferredClaim && sessionId != "" then {(sessionId, identity)} else {}
    {
      if pendingPreferredClaim && sessionId != "" {
        executor.claims := executor.claims - {(sessionId, identity)};
      }
    }

    /** The consumer is told to stop, cancelled, and awaited; its cancellation is swallowed. */
    method StopStream()
      modifies this`stopped, if streamTask.Some? then {streamTask.value} else {}
      ensures stopped && (streamTask.Some? ==> streamTask.value.cancelled && streamTask.value.finished)
    {
      stopped := true;
      if streamTask.Some? {
        streamTask.value.cancelled := true;
        streamTask.value.finished := true;
      }
    }

    /** Cleanup asks whether the lock is locked, not whether this coordinator locked it. */
    method ReleaseLock()
      modifies if sessionLock.Some? then {sessionLock.value} else {}
      ensures sessionLock.Some? ==> !sessionLock.value.locked
    {
      if sessionLock.Some? && sessionLock.value.locked {
        sessionLock.value.locked := false;
      }
    }

    method Unregister()
      modifies executor
      ensures executor.View() == old(executor.View()).Without(key) && executor.claims == old(executor.claims)
      ensures key !in executor.View().All()
      ensures executor.requests == old(executor.requests) - {key} && executor.sessionIds == old(executor.sessionIds) - {key}
    {
      executor.requests := executor.requests - {key};
      executor.stopEvents := executor.stopEvents - {key};
      executor.identities := executor.identities - {key};
      executor.sessionIds := executor.sessionIds - {key};
      executor.directories := executor.directories - {key};
      executor.workspaceIds := executor.workspaceIds - {key};
      executor.bindingContextIds := executor.bindingContextIds - {key};
    }

    /** An unfinalised claim is released, the stream stopped and awaited, and then the lock, whoever holds it, let go. */
    method Cleanup()
      modifies executor, this`stopped, if sessionLock.Some? then {sessionLock.value} else {},
               if streamTask.Some? then {streamTask.value} else {}
      ensures stopped && (streamTask.Some? ==> streamTask.value.cancelled && streamTask.value.finished)
      ensures sessionLock.Some? ==> !sessionLock.value.locked
      ensures executor.View() == old(executor.View()).Without(key) && key !in executor.View().All()
      ensures executor.claims == old(executor.claims) - if pendingPreferredClaim && sessionId != "" then {(sessionId, identity)} else {}
    {
      ReleaseClaim();
      StopStream();
      ReleaseLock();
      Unregister();
    }
  }

  // ---- Every interleaving of coordinators ----

  /** Where a coordinator is: it queues for the session lock, holds it, or is somewhere in its cleanup. */
  datatype Stage = Registered | Bound | Queued | Holding | Leaving | Unclaimed | Unlocked | Done

  datatype Coordinator = Coordinator(
    key: ExecutionKey,
    identity: string,
    stage: Stage,
    sessionId: string,
    pending: bool,
    lock: Option<nat>,
    acquired: bool)

  datatype World = World(
    coordinators: map<nat, Coordinator>,
    locks: map<nat, bool>,
    sessionLocks: map<string, nat>,
    running: Running,
    claims: set<(string, string)>)

  datatype Event =
    | Register(p: nat, key: ExecutionKey, identity: string)
    | BindSession(p: nat, sessionId: string, pending: bool)
    | TakeLock(p: nat, newLock: nat)
    | Acquire(p: nat)
    | RegisterSession(p: nat)
    | Finalize(p: nat)
    | Leave(p: nat)
    | CleanClaim(p: nat)
    | CleanLock(p: nat)
    | CleanMaps(p: nat)
    | Collect(sessionId: string)

  predicate At(w: World, p: nat, stage: Stage) {
    p in w.coordinators && w.coordinators[p].stage == stage
  }

  predicate Live(w: World, p: nat) {
    p in w.coordinators && w.coordinators[p].stage != Done
  }

  function With(w: World, p: nat, c: Coordinator): World {
    w.(coordinators := w.coordinators[p := c])
  }

  function Step(w: World, e: Event): World {
    match e
    case Register(p, k, i) =>
      if p in w.coordinators then w
      else With(w, p, Coordinator(k, i, Registered, "", false, None, false)).(running := w.running.WithRequest(k))
    case BindSession(p, s, pending) =>
      if !At(w, p, Registered) || s == "" then w
      else
        var c := w.coordinators[p];
        With(w, p, c.(stage := Bound, sessionId := s, pending := pending))
        .(claims := w.claims + if pending then {(s, c.identity)} else {})
    case TakeLock(p, newLock) =>
      if !At(w, p, Bound) then w else OnTakeLock(w, p, w.coordinators[p], newLock)
    case Acquire(p) =>
      if At(w, p, Queued) && w.coordinators[p].lock.Some? && w.coordinators[p].lock.value in w.locks
         && !w.locks[w.coordinators[p].lock.value]
      then With(w, p, w.coordinators[p].(stage := Holding, acquired := true))
           .(locks := w.locks[w.coordinators[p].lock.value := true])
      else w
    case RegisterSession(p) =>
      if At(w, p, Holding) then w.(running := w.running.WithSession(w.coordinators[p].key)) else w
    case Finalize(p) =>
      if At(w, p, Holding) && w.coordinators[p].pending
      then With(w, p, w.coordinators[p].(pending := false))
           .(claims := w.claims - {(w.coordinators[p].sessionId, w.coordinators[p].identity)})
      else w
    case Leave(p) =>
      if p in w.coordinators && w.coordinators[p].stage in {Registered, Bound, Queued, Holding}
      then With(w, p, w.coordinators[p].(stage := Leaving)) else w
    case CleanClaim(p) =>
      if At(w, p, Leaving)
      then With(w, p, w.coordinators[p].(stage := Unclaimed))
           .(claims := w.claims - if w.coordinators[p].pending then {(w.coordinators[p].sessionId, w.coordinators[p].identity)} else {})
      else w
    case CleanLock(p) =>
      if At(w, p, Unclaimed)
      then With(w, p, w.coordinators[p].(stage := Unlocked, acquired := false))
           .(locks := if w.coordinators[p].lock.Some? then w.locks[w.coordinators[p].lock.value := false] else w.locks)
      else w
    case CleanMaps(p) =>
      if At(w, p, Unlocked)
      then With(w, p, w.coordinators[p].(stage := Done)).(running := w.running.Without(w.coordinators[p].key)) else w
    case Collect(s) =>
      if s in w.sessionLocks && forall p :: p in w.coordinators && w.coordinators[p].stage != Done ==> w.coordinators[p].lock != Some(w.sessionLocks[s])
      then w.(sessionLocks := w.sessionLocks - {s}) else w
  }

  /** The session's lock if someone still refers to it, otherwise a new one. */
  function OnTakeLock(w: World, p: nat, c: Coordinator, newLock: nat): World {
    if c.sessionId in w.sessionLocks
    then With(w, p, c.(stage := Queued, lock := Some(w.sessionLocks[c.sessionId])))
    else if newLock in w.locks then w
    else With(w, p, c.(stage := Queued, lock := Some(newLock)))
         .(locks := w.locks[newLock := false], sessionLocks := w.sessionLocks[c.sessionId := newLock])
  }

  function Run(w: World, events: seq<Event>): World
    decreases |events|
  {
    if events == [] then w else Run(Step(w, events[0]), events[1..])
  }

  const Empty := World(map[], map[], map[], Running({}, {}, {}, {}, {}, {}, {}), {})

  // ---- Mutual exclusion ----

  /** Every live user of a session refers to the session's one lock. */
  ghost predicate OneLockPerSession(w: World) {
    && (forall s :: s in w.sessionLocks ==> w.sessionLocks[s] in w.locks)
    && (forall p :: p in w.coordinators ==> SharesLock(w, w.coordinators[p]))
  }

  predicate SharesLock(w: World, c: Coordinator) {
    c.stage != Done && c.lock.Some? ==> c.sessionId in w.sessionLocks && c.lock.value == w.sessionLocks[c.sessionId]
  }

  /** A coordinator has no lock before it takes one, and has acquired it while it holds it. */
  ghost predicate AllShaped(w: World) {
    forall p :: p in w.coordinators ==> Shaped(w, w.coordinators[p])
  }

  predicate Shaped(w: World, c: Coordinator) {
    && (c.acquired ==> c.lock.Some? && c.stage in {Holding, Leaving, Unclaimed})
    && (c.stage == Holding ==> c.acquired)
    && (c.stage in {Registered, Bound} ==> c.lock.None?)
    && (c.lock.Some? ==> c.lock.value in w.locks)
  }

  /** Whoever has acquired its lock finds it locked, and is alone in having acquired it. */
  ghost predicate Excludes(w: World) {
    && (forall p :: p in w.coordinators ==> FindsLocked(w, w.coordinators[p]))
    && (forall p, q :: p in w.coordinators && q in w.coordinators && HoldTogether(w.coordinators[p], w.coordinators[q]) ==> p == q)
  }

  predicate FindsLocked(w: World, c: Coordinator) {
    c.acquired ==> c.lock.Some? && c.lock.value in w.locks && w.locks[c.lock.value]
  }

  predicate HoldTogether(a: Coordinator, b: Coordinator) {
    a.acquired && b.acquired && a.lock == b.lock
  }

  /** Cleanup unlocks a lock that it did not acquire and that someone else has acquired. */
  ghost predicate FreesHeldLock(w: World, e: Event) {
    && e.CleanLock? && At(w, e.p, Unclaimed) && w.coordinators[e.p].lock.Some? && !w.coordinators[e.p].acquired
    && exists q :: q in w.coordinators && w.coordinators[q].acquired && w.coordinators[q].lock == w.coordinators[e.p].lock
  }

  // What every step keeps

  lemma StepKeepsSharing(w: World, e: Event)
    requires OneLockPerSession(w) && AllShaped(w)
    ensures OneLockPerSession(Step(w, e)) && AllShaped(Step(w, e))
  {
    var v := Step(w, e);
    LocksStayKnown(w, e);
    forall p | p in v.coordinators
      ensures SharesLock(v, v.coordinators[p]) && Shaped(v, v.coordinators[p])
    {
      if p in w.coordinators {
        assert SharesLock(w, w.coordinators[p]) && Shaped(w, w.coordinators[p]);
      }
      SharingStays(w, e, p);
      ShapeStays(w, e, p);
    }
  }

  lemma LocksStayKnown(w: World, e: Event)
    requires forall s :: s in w.sessionLocks ==> w.sessionLocks[s] in w.locks
    requires AllShaped(w)
    ensures forall s :: s in Step(w, e).sessionLocks ==> Step(w, e).sessionLocks[s] in Step(w, e).locks
    ensures w.locks.Keys <= Step(w, e).locks.Keys
  {
  }

  lemma SharingStays(w: World, e: Event, p: nat)
    requires p in Step(w, e).coordinators
    requires p in w.coordinators ==> SharesLock(w, w.coordinators[p]) && Shaped(w, w.coordinators[p])
    ensures SharesLock(Step(w, e), Step(w, e).coordinators[p])
  {
  }

  lemma ShapeStays(w: World, e: Event, p: nat)
    requires p in Step(w, e).coordinators && w.locks.Keys <= Step(w, e).locks.Keys
    requires forall s :: s in w.sessionLocks ==> w.sessionLocks[s] in w.locks
    requires p in w.coordinators ==> Shaped(w, w.coordinators[p])
    ensures Shaped(Step(w, e), Step(w, e).coordinators[p])
  {
  }

  // When a step keeps exclusion

  /** A coordinator holds its lock after a step if it held it before, or has just acquired it free. */
  lemma StepHolders(w: World, e: Event, p: nat)
    requires p in Step(w, e).coordinators && Step(w, e).coordinators[p].acquired
    requires p in w.coordinators ==> Shaped(w, w.coordinators[p])
    ensures p in w.coordinators && Step(w, e).coordinators[p].lock == w.coordinators[p].lock
    ensures !w.coordinators[p].acquired ==> JustAcquires(w, e, p)
    ensures e.CleanLock? ==> e.p != p || !At(w, p, Unclaimed)
  {
  }

  predicate JustAcquires(w: World, e: Event, p: nat) {
    && e == Acquire(p) && p in w.coordinators && w.coordinators[p].lock.Some? && w.coordinators[p].lock.value in w.locks
    && !w.locks[w.coordinators[p].lock.value]
  }

  lemma HoldersStayAlone(w: World, e: Event, p: nat, q: nat)
    requires Excludes(w) && p in w.coordinators && q in w.coordinators && w.coordinators[p].lock == w.coordinators[q].lock
    requires w.coordinators[p].acquired || JustAcquires(w, e, p)
    requires w.coordinators[q].acquired || JustAcquires(w, e, q)
    ensures p == q
  {
    assert FindsLocked(w, w.coordinators[p]) && FindsLocked(w, w.coordinators[q]);
    if w.coordinators[p].acquired && w.coordinators[q].acquired {
      assert HoldTogether(w.coordinators[p], w.coordinators[q]);
    }
  }

  /** Only an acquire locks and only a cleanup unlocks. */
  lemma LocksChange(w: World, e: Event, l: nat)
    requires l in w.locks
    ensures l in Step(w, e).locks
    ensures w.locks[l] && !Step(w, e).locks[l] ==> e.CleanLock? && At(w, e.p, Unclaimed) && w.coordinators[e.p].lock == Some(l)
    ensures forall p :: JustAcquires(w, e, p) && At(w, p, Queued) && w.coordinators[p].lock == Some(l) ==> Step(w, e).locks[l]
  {
  }

  lemma LockedStays(w: World, e: Event, p: nat)
    requires AllShaped(w) && Excludes(w) && !FreesHeldLock(w, e) && p in Step(w, e).coordinators
    ensures FindsLocked(Step(w, e), Step(w, e).coordinators[p])
  {
    var v := Step(w, e);
    if v.coordinators[p].acquired {
      assert p in w.coordinators ==> Shaped(w, w.coordinators[p]);
      StepHolders(w, e, p);
      assert FindsLocked(w, w.coordinators[p]);
      LocksChange(w, e, w.coordinators[p].lock.value);
      if e.CleanLock? && At(w, e.p, Unclaimed) && w.coordinators[e.p].lock == w.coordinators[p].lock {
        assert w.coordinators[p].acquired && p != e.p;
        assert !HoldTogether(w.coordinators[p], w.coordinators[e.p]);
      }
    }
  }

  /** A step keeps exclusion exactly unless it is the cleanup of a coordinator that frees a lock someone else holds. */
  lemma StepExcludesIff(w: World, e: Event)
    requires AllShaped(w) && Excludes(w)
    ensures Excludes(Step(w, e)) <==> !FreesHeldLock(w, e)
  {
    var v := Step(w, e);
    if FreesHeldLock(w, e) {
      var q :| q in w.coordinators && w.coordinators[q].acquired && w.coordinators[q].lock == w.coordinators[e.p].lock;
      assert v.coordinators[q] == w.coordinators[q] && !FindsLocked(v, v.coordinators[q]);
    } else {
      forall p | p in v.coordinators
        ensures FindsLocked(v, v.coordinators[p])
      {
        LockedStays(w, e, p);
      }
      forall p, q | p in v.coordinators && q in v.coordinators && HoldTogether(v.coordinators[p], v.coordinators[q])
        ensures p == q
      {
        assert forall x :: x in w.coordinators ==> Shaped(w, w.coordinators[x]);
        StepHolders(w, e, p);
        StepHolders(w, e, q);
        HoldersStayAlone(w, e, p, q);
      }
    }
  }

  // Over runs

  /** Exclusion holds at every point of the run. */
  ghost predicate ExcludesThroughout(w: World, events: seq<Event>)
    decreases |events|
  {
    Excludes(w) && (events != [] ==> ExcludesThroughout(Step(w, events[0]), events[1..]))
  }

  ghost predicate NeverFreesHeldLock(w: World, events: seq<Event>)
    decreases |events|
  {
    events != [] ==> !FreesHeldLock(w, events[0]) && NeverFreesHeldLock(Step(w, events[0]), events[1..])
  }

  lemma {:induction false} ThroughoutIff(w: World, events: seq<Event>)
    requires OneLockPerSession(w) && AllShaped(w) && Excludes(w)
    ensures ExcludesThroughout(w, events) <==> NeverFreesHeldLock(w, events)
    ensures OneLockPerSession(Run(w, events))
    ensures ExcludesThroughout(w, events) ==> Excludes(Run(w, events))
    decreases |events|
  {
    if events != [] {
      var v := Step(w, events[0]);
      StepKeepsSharing(w, events[0]);
      StepExcludesIff(w, events[0]);
      if Excludes(v) {
        ThroughoutIff(v, events[1..]);
      } else {
        SharedThroughout(v, events[1..]);
        assert !ExcludesThroughout(v, events[1..]);
      }
    }
  }

  lemma {:induction false} SharedThroughout(w: World, events: seq<Event>)
    requires OneLockPerSession(w) && AllShaped(w)
    ensures OneLockPerSession(Run(w, events))
    decreases |events|
  {
    if events != [] {
      StepKeepsSharing(w, events[0]);
      SharedThroughout(Step(w, events[0]), events[1..]);
    }
  }

  /** From the start: exclusion holds at every point of a run exactly if no cleanup in it frees a lock someone else
      holds. */
  lemma ExclusionIff(events: seq<Event>)
    ensures ExcludesThroughout(Empty, events) <==> NeverFreesHeldLock(Empty, events)
  {
    ThroughoutIff(Empty, events);
  }

  // At most one holder, whatever the lock says

  /** No two coordinators have acquired one lock and not let go of it. */
  ghost predicate OneHolder(w: World) {
    forall p, q :: p in w.coordinators && q in w.coordinators && HoldTogether(w.coordinators[p], w.coordinators[q]) ==> p == q
  }

  /** A coordinator acquires a lock that another has acquired and not let go of. */
  ghost predicate TakesHeldLock(w: World, e: Event) {
    && e.Acquire? && At(w, e.p, Queued) && JustAcquires(w, e, e.p)
    && exists q :: q in w.coordinators && w.coordinators[q].acquired && w.coordinators[q].lock == w.coordinators[e.p].lock
  }

  ghost predicate OneHolderThroughout(w: World, events: seq<Event>)
    decreases |events|
  {
    OneHolder(w) && (events != [] ==> OneHolderThroughout(Step(w, events[0]), events[1..]))
  }

  ghost predicate NeverTakesHeldLock(w: World, events: seq<Event>)
    decreases |events|
  {
    events != [] ==> !TakesHeldLock(w, events[0]) && NeverTakesHeldLock(Step(w, events[0]), events[1..])
  }

  lemma StepOneHolderIff(w: World, e: Event)
    requires AllShaped(w) && OneHolder(w)
    ensures OneHolder(Step(w, e)) <==> !TakesHeldLock(w, e)
  {
    var v := Step(w, e);
    if TakesHeldLock(w, e) {
      var q :| q in w.coordinators && w.coordinators[q].acquired && w.coordinators[q].lock == w.coordinators[e.p].lock;
      assert Shaped(w, w.coordinators[e.p]);
      assert HoldTogether(v.coordinators[e.p], v.coordinators[q]) && e.p != q;
    } else {
      forall p, q | p in v.coordinators && q in v.coordinators && HoldTogether(v.coordinators[p], v.coordinators[q])
        ensures p == q
      {
        assert forall x :: x in w.coordinators ==> Shaped(w, w.coordinators[x]);
        StepHolders(w, e, p);
        StepHolders(w, e, q);
        if w.coordinators[p].acquired && w.coordinators[q].acquired {
          assert HoldTogether(w.coordinators[p], w.coordinators[q]);
        }
      }
    }
  }

  lemma {:induction false} OneHolderThroughoutIff(w: World, events: seq<Event>)
    requires OneLockPerSession(w) && AllShaped(w) && OneHolder(w)
    ensures OneHolderThroughout(w, events) <==> NeverTakesHeldLock(w, events)
    decreases |events|
  {
    if events != [] {
      var v := Step(w, events[0]);
      StepKeepsSharing(w, events[0]);
      StepOneHolderIff(w, events[0]);
      if OneHolder(v) {
        OneHolderThroughoutIff(v, events[1..]);
      } else {
        assert !OneHolderThroughout(v, events[1..]);
      }
    }
  }

  lemma {:induction false} ExcludingIsOneHolder(w: World, events: seq<Event>)
    requires ExcludesThroughout(w, events)
    ensures OneHolderThroughout(w, events)
    decreases |events|
  {
    if events != [] {
      ExcludingIsOneHolder(Step(w, events[0]), events[1..]);
    }
  }

  /** From the start: no lock ever has two holders exactly if no coordinator acquires a lock that another still holds;
      and that takes a cleanup that freed a held lock. */
  lemma OneHolderIff(events: seq<Event>)
    ensures OneHolderThroughout(Empty, events) <==> NeverTakesHeldLock(Empty, events)
    ensures NeverFreesHeldLock(Empty, events) ==> NeverTakesHeldLock(Empty, events)
  {
    OneHolderThroughoutIff(Empty, events);
    ThroughoutIff(Empty, events);
    if NeverFreesHeldLock(Empty, events) {
      ExcludingIsOneHolder(Empty, events);
    }
  }

  /** In every run in which no cleanup frees a lock someone else holds, at most one coordinator per session is between
      acquire and release; and in any run all live users of a session share one lock. */
  lemma SessionsAreExclusive(events: seq<Event>, p: nat, q: nat)
    requires var w := Run(Empty, events); Live(w, p) && Live(w, q) && w.coordinators[p].sessionId == w.coordinators[q].sessionId
    ensures var w := Run(Empty, events);
            && (w.coordinators[p].lock.Some? && w.coordinators[q].lock.Some? ==> w.coordinators[p].lock == w.coordinators[q].lock)
            && (NeverFreesHeldLock(Empty, events) && w.coordinators[p].acquired && w.coordinators[q].acquired ==> p == q)
  {
    ThroughoutIff(Empty, events);
    var w := Run(Empty, events);
    assert SharesLock(w, w.coordinators[p]) && SharesLock(w, w.coordinators[q]);
    if NeverFreesHeldLock(Empty, events) && w.coordinators[p].acquired && w.coordinators[q].acquired {
      assert FindsLocked(w, w.coordinators[p]) && FindsLocked(w, w.coordinators[q]);
      assert HoldTogether(w.coordinators[p], w.coordinators[q]);
    }
  }

  // A caller's rule that suffices

  /** No coordinator leaves while it is still waiting for the lock. */
  predicate NoneLeavesTheQueue(w: World, events: seq<Event>)
    decreases |events|
  {
    events != [] ==> !(events[0].Leave? && At(w, events[0].p, Queued)) && NoneLeavesTheQueue(Step(w, events[0]), events[1..])
  }

  ghost predicate CleanersHold(w: World) {
    forall p :: p in w.coordinators ==> CleanerHolds(w.coordinators[p])
  }

  predicate CleanerHolds(c: Coordinator) { c.stage in {Leaving, Unclaimed} && c.lock.Some? ==> c.acquired }

  lemma StepKeepsCleaners(w: World, e: Event)
    requires AllShaped(w) && CleanersHold(w) && !(e.Leave? && At(w, e.p, Queued))
    ensures CleanersHold(Step(w, e))
  {
    var v := Step(w, e);
    forall p | p in v.coordinators
      ensures CleanerHolds(v.coordinators[p])
    {
      if p in w.coordinators {
        assert CleanerHolds(w.coordinators[p]) && Shaped(w, w.coordinators[p]);
      }
    }
  }

  lemma StayingFreesNothing(w: World, e: Event)
    requires CleanersHold(w)
    ensures !FreesHeldLock(w, e)
  {
  }

  lemma {:induction false} WaitersThatStaySuffice(w: World, events: seq<Event>)
    requires OneLockPerSession(w) && AllShaped(w) && CleanersHold(w) && NoneLeavesTheQueue(w, events)
    ensures NeverFreesHeldLock(w, events)
    decreases |events|
  {
    if events != [] {
      StayingFreesNothing(w, events[0]);
      StepKeepsSharing(w, events[0]);
      StepKeepsCleaners(w, events[0]);
      WaitersThatStaySuffice(Step(w, events[0]), events[1..]);
    }
  }

  /** If no coordinator is cancelled while it waits for the lock, exclusion holds throughout. */
  lemma ExclusiveUnlessCancelledWaiting(events: seq<Event>)
    requires NoneLeavesTheQueue(Empty, events)
    ensures ExcludesThroughout(Empty, events)
  {
    WaitersThatStaySuffice(Empty, events);
    ThroughoutIff(Empty, events);
  }

  /** The exclusion that is lost: after such a cleanup any waiter acquires the lock beside its holder. */
  lemma CancelledWaiterBreaksExclusion(w: World, holder: nat, waiter: nat, next: nat)
    requires holder != waiter && waiter != next && holder != next
    requires At(w, holder, Holding) && w.coordinators[holder].acquired && w.coordinators[holder].lock.Some?
    requires At(w, waiter, Queued) && At(w, next, Queued)
    requires w.coordinators[holder].lock == w.coordinators[waiter].lock == w.coordinators[next].lock
    requires w.coordinators[holder].lock.value in w.locks
    ensures var v := Run(w, [Leave(waiter), CleanClaim(waiter), CleanLock(waiter), Acquire(next)]);
            && holder in v.coordinators && next in v.coordinators
            && v.coordinators[holder].acquired && v.coordinators[next].acquired
            && v.coordinators[holder].lock == v.coordinators[next].lock
  {
    var w1 := Step(w, Leave(waiter));
    var w2 := Step(w1, CleanClaim(waiter));
    var w3 := Step(w2, CleanLock(waiter));
    RunFour(w, Leave(waiter), CleanClaim(waiter), CleanLock(waiter), Acquire(next));
    assert w3.coordinators[holder] == w.coordinators[holder] && w3.coordinators[next] == w.coordinators[next];
    assert !w3.locks[w.coordinators[holder].lock.value];
  }

  /** A coordinator arrives, is bound to the one session and takes its lock. */
  function Arrival(p: nat): seq<Event> {
    [Register(p, ("t", Decimal(p)), "i"), BindSession(p, "s", false), TakeLock(p, 0)]
  }

  function Arrived(p: nat): Coordinator { Coordinator(("t", Decimal(p)), "i", Queued, "s", false, Some(0), false) }

  lemma Arrives(w: World, p: nat)
    requires p !in w.coordinators
    requires if "s" in w.sessionLocks then w.sessionLocks["s"] == 0 else 0 !in w.locks
    ensures var v := Run(w, Arrival(p));
            && v.coordinators == w.coordinators[p := Arrived(p)]
            && "s" in v.sessionLocks && v.sessionLocks["s"] == 0
            && v.locks == if "s" in w.sessionLocks then w.locks else w.locks[0 := false]
  {
    RunThree(w, Arrival(p)[0], Arrival(p)[1], Arrival(p)[2]);
    var w2 := Step(Step(w, Arrival(p)[0]), Arrival(p)[1]);
    Binds(w, p);
    assert Step(w2, TakeLock(p, 0)).coordinators == w.coordinators[p := Arrived(p)];
  }

  lemma Binds(w: World, p: nat)
    requires p !in w.coordinators
    ensures var v := Step(Step(w, Register(p, ("t", Decimal(p)), "i")), BindSession(p, "s", false));
            && v.coordinators == w.coordinators[p := Arrived(p).(stage := Bound, lock := None)]
            && v.locks == w.locks && v.sessionLocks == w.sessionLocks
  {
    var v := Step(w, Register(p, ("t", Decimal(p)), "i"));
    assert v.coordinators[p] == Coordinator(("t", Decimal(p)), "i", Registered, "", false, None, false);
  }

  lemma {:induction false} RunConcat(w: World, a: seq<Event>, b: seq<Event>)
    ensures Run(w, a + b) == Run(Run(w, a), b)
    decreases |a|
  {
    if a == [] {
      assert a + b == b;
    } else {
      assert (a + b)[1..] == a[1..] + b;
      RunConcat(Step(w, a[0]), a[1..], b);
    }
  }

  /** Three coordinators of one session, of which the first acquires its lock. */
  function Crowd(): seq<Event> { Arrival(0) + Arrival(1) + Arrival(2) + [Acquire(0)] }

  const Waiting := map[0 := Arrived(0), 1 := Arrived(1), 2 := Arrived(2)]

  lemma CrowdWaits()
    ensures var w := Run(Run(Run(Empty, Arrival(0)), Arrival(1)), Arrival(2));
            w.coordinators == Waiting && w.locks == map[0 := false]
  {
    var w1 := Run(Empty, Arrival(0));
    Arrives(Empty, 0);
    var w2 := Run(w1, Arrival(1));
    Arrives(w1, 1);
    Arrives(w2, 2);
  }

  lemma FirstAcquires(w: World)
    requires w.coordinators == Waiting && w.locks == map[0 := false]
    ensures var v := Run(w, [Acquire(0)]);
            && v.coordinators == Waiting[0 := Arrived(0).(stage := Holding, acquired := true)] && v.locks == map[0 := true]
  {
    assert [Acquire(0)][1..] == [] && Run(w, [Acquire(0)]) == Run(Step(w, Acquire(0)), []);
  }

  lemma CrowdGathers()
    ensures var w := Run(Empty, Crowd());
            && w.coordinators == Waiting[0 := Arrived(0).(stage := Holding, acquired := true)] && w.locks == map[0 := true]
  {
    RunConcat(Empty, Arrival(0), Arrival(1));
    RunConcat(Empty, Arrival(0) + Arrival(1), Arrival(2));
    RunConcat(Empty, Arrival(0) + Arrival(1) + Arrival(2), [Acquire(0)]);
    CrowdWaits();
    FirstAcquires(Run(Run(Run(Empty, Arrival(0)), Arrival(1)), Arrival(2)));
  }

  /** From the start: the second coordinator is cancelled while it waits, and its cleanup lets the third in beside the
      first. */
  lemma ExclusionCanBeLost()
    ensures var w := Run(Empty, Crowd() + [Leave(1), CleanClaim(1), CleanLock(1), Acquire(2)]);
            && 0 in w.coordinators && 2 in w.coordinators
            && w.coordinators[0].acquired && w.coordinators[2].acquired && w.coordinators[0].lock == w.coordinators[2].lock
  {
    CrowdGathers();
    RunConcat(Empty, Crowd(), [Leave(1), CleanClaim(1), CleanLock(1), Acquire(2)]);
    CrowdLosesExclusion(Run(Empty, Crowd()));
  }

  lemma CrowdLosesExclusion(w: World)
    requires w.coordinators == Waiting[0 := Arrived(0).(stage := Holding, acquired := true)] && w.locks == map[0 := true]
    ensures var v := Run(w, [Leave(1), CleanClaim(1), CleanLock(1), Acquire(2)]);
            && 0 in v.coordinators && 2 in v.coordinators
            && v.coordinators[0].acquired && v.coordinators[2].acquired && v.coordinators[0].lock == v.coordinators[2].lock
  {
    CancelledWaiterBreaksExclusion(w, 0, 1, 2);
  }

  lemma RunThree(w: World, a: Event, b: Event, c: Event)
    ensures Run(w, [a, b, c]) == Step(Step(Step(w, a), b), c)
  {
    var none: seq<Event> := [];
    assert [c][1..] == none && [b, c][1..] == [c] && [a, b, c][1..] == [b, c];
    assert Run(Step(Step(w, a), b), [c]) == Step(Step(Step(w, a), b), c);
    assert Run(Step(w, a), [b, c]) == Run(Step(Step(w, a), b), [c]);
  }

  lemma RunFour(w: World, a: Event, b: Event, c: Event, d: Event)
    ensures Run(w, [a, b, c, d]) == Step(Step(Step(Step(w, a), b), c), d)
  {
    var none: seq<Event> := [];
    assert [d][1..] == none && [c, d][1..] == [d] && [b, c, d][1..] == [c, d] && [a, b, c, d][1..] == [b, c, d];
    var w3 := Step(Step(Step(w, a), b), c);
    assert Run(w3, [d]) == Step(w3, d);
    assert Run(Step(Step(w, a), b), [c, d]) == Run(w3, [d]);
    assert Run(Step(w, a), [b, c, d]) == Run(Step(Step(w, a), b), [c, d]);
  }

  // ---- What is registered ----

  /** A request that registers, binds a session or registers it leaves its key in the maps, and its claim, if it made
      one, among the claims. */
  lemma StepRegisters(w: World, e: Event)
    requires e.Register? || e.BindSession? || e.RegisterSession?
    ensures var v := Step(w, e);
            && (e.Register? && e.p !in w.coordinators ==>
                  e.key in v.running.requests && e.key in v.running.stopEvents && e.key in v.running.identities)
            && (e.BindSession? && At(w, e.p, Registered) && e.sessionId != "" && e.pending ==>
                  (e.sessionId, w.coordinators[e.p].identity) in v.claims)
            && (e.RegisterSession? && At(w, e.p, Holding) ==>
                  var k := w.coordinators[e.p].key;
                  && k in v.running.sessionIds && k in v.running.directories && k in v.running.workspaceIds
                  && k in v.running.bindingContextIds)
  {
  }

  predicate CleansKey(w: World, e: Event, k: ExecutionKey) { e.CleanMaps? && At(w, e.p, Unlocked) && w.coordinators[e.p].key == k }

  predicate NeverCleans(w: World, events: seq<Event>, k: ExecutionKey)
    decreases |events|
  {
    events != [] ==> !CleansKey(w, events[0], k) && NeverCleans(Step(w, events[0]), events[1..], k)
  }

  /** Each of the seven maps keeps a key until a coordinator of that key cleans up. */
  lemma {:induction false} RegisteredStays(w: World, events: seq<Event>, k: ExecutionKey)
    requires NeverCleans(w, events, k)
    ensures var r, s := w.running, Run(w, events).running;
            && (k in r.requests ==> k in s.requests) && (k in r.stopEvents ==> k in s.stopEvents)
            && (k in r.identities ==> k in s.identities) && (k in r.sessionIds ==> k in s.sessionIds)
            && (k in r.directories ==> k in s.directories) && (k in r.workspaceIds ==> k in s.workspaceIds)
            && (k in r.bindingContextIds ==> k in s.bindingContextIds)
    decreases |events|
  {
    if events != [] {
      RegisteredStays(Step(w, events[0]), events[1..], k);
    }
  }

  // ---- Cleanup ----

  /** Whatever is registered as running, or claimed and not finalised, belongs to a coordinator still to clean it up. */
  ghost predicate NothingLeaks(w: World) {
    && (forall k :: k in w.running.All() ==> exists p :: Live(w, p) && w.coordinators[p].key == k)
    && (forall x :: x in w.claims ==> exists p :: WillRelease(w, p, x))
  }

  predicate WillRelease(w: World, p: nat, claim: (string, string)) {
    && p in w.coordinators && w.coordinators[p].stage in {Bound, Queued, Holding, Leaving}
    && w.coordinators[p].pending && (w.coordinators[p].sessionId, w.coordinators[p].identity) == claim
  }

  lemma StepLeaksNoKeys(w: World, e: Event)
    requires NothingLeaks(w)
    ensures forall k :: k in Step(w, e).running.All() ==> exists p :: Live(Step(w, e), p) && Step(w, e).coordinators[p].key == k
  {
    var v := Step(w, e);
    forall k | k in v.running.All()
      ensures exists p :: Live(v, p) && v.coordinators[p].key == k
    {
      if k in w.running.All() {
        var p :| Live(w, p) && w.coordinators[p].key == k;
        KeyStaysLive(w, e, p);
      } else {
        NewKeyIsLive(w, e, k);
      }
    }
  }

  lemma KeyStaysLive(w: World, e: Event, p: nat)
    requires Live(w, p) && w.coordinators[p].key in Step(w, e).running.All()
    ensures Live(Step(w, e), p) && Step(w, e).coordinators[p].key == w.coordinators[p].key
  {
  }

  lemma NewKeyIsLive(w: World, e: Event, k: ExecutionKey)
    requires k in Step(w, e).running.All() && k !in w.running.All()
    ensures e.Register? || e.RegisterSession?
    ensures Live(Step(w, e), e.p) && Step(w, e).coordinators[e.p].key == k
  {
  }

  lemma StepLeaksNoClaims(w: World, e: Event)
    requires NothingLeaks(w)
    ensures forall x :: x in Step(w, e).claims ==> exists p :: WillRelease(Step(w, e), p, x)
  {
    var v := Step(w, e);
    forall x | x in v.claims
      ensures exists p :: WillRelease(v, p, x)
    {
      if x in w.claims {
        var p :| WillRelease(w, p, x);
        assert WillRelease(v, p, x);
      } else {
        assert WillRelease(v, e.p, x);
      }
    }
  }

  lemma {:induction false} RunLeaksNothing(w: World, events: seq<Event>)
    requires NothingLeaks(w)
    ensures NothingLeaks(Run(w, events))
    decreases |events|
  {
    if events != [] {
      StepLeaksNoKeys(w, events[0]);
      StepLeaksNoClaims(w, events[0]);
      RunLeaksNothing(Step(w, events[0]), events[1..]);
    }
  }

  /** However coordinators exit, once they have all cleaned up nothing is registered as running and no claim is left. */
  lemma CleanupIsComplete(events: seq<Event>)
    requires var w := Run(Empty, events); forall p :: p in w.coordinators ==> w.coordinators[p].stage == Done
    ensures Run(Empty, events).running.All() == {} && Run(Empty, events).claims == {}
  {
    RunLeaksNothing(Empty, events);
  }

  /** A finished coordinator's execution key is gone from all seven maps, unless a live coordinator reuses the key. */
  lemma FinishedKeysAreGone(events: seq<Event>, p: nat)
    requires At(Run(Empty, events), p, Done)
    requires var w := Run(Empty, events); forall q :: Live(w, q) ==> w.coordinators[q].key != w.coordinators[p].key
    ensures var w := Run(Empty, events); w.coordinators[p].key !in w.running.All()
  {
    RunLeaksNothing(Empty, events);
  }

  function ClaimOf(c: Coordinator): (string, string) { (c.sessionId, c.identity) }

  /** A finished coordinator's claim is gone, unless a live coordinator of the same identity has claimed the same
      session. */
  lemma FinishedClaimsAreGone(events: seq<Event>, p: nat)
    requires At(Run(Empty, events), p, Done)
    requires var w := Run(Empty, events);
             forall q :: Live(w, q) && w.coordinators[q].pending ==> ClaimOf(w.coordinators[q]) != ClaimOf(w.coordinators[p])
    ensures var w := Run(Empty, events); ClaimOf(w.coordinators[p]) !in w.claims
  {
    RunLeaksNothing(Empty, events);
    var w := Run(Empty, events);
    if ClaimOf(w.coordinators[p]) in w.claims {
      var q :| WillRelease(w, q, ClaimOf(w.coordinators[p]));
      assert Live(w, q);
    }
  }
}
