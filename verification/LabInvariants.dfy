/** What every interleaving of calls, sweeps and late callbacks keeps. */
module LabInvariants {
  import opened Text
  import opened LabLifecycle
  import Plan

  // ----- Fields fit the state -----

  lemma UpdateKeepsLabs(s: Store, id: Uuid, p: Push, now: int)
    requires LabsInOrder(s) && PushInOrder(p)
    requires id in s.labs ==> s.labs[id].state != Scheduled
    ensures LabsInOrder(UpdateState(s, id, p, now)) && UpdateState(s, id, p, now).jobs == s.jobs
  {
  }

  lemma DispatchKeepsLabs(s: Store, id: Uuid, d: Dispatch, deploy: bool)
    requires LabsInOrder(s) && id in s.events && (id in s.labs ==> s.labs[id].state != Scheduled)
    ensures LabsInOrder(s.(jobs := s.jobs + DispatchJobs(id, if deploy then DeployPushes else DestroyPushes, d)))
  {
  }

  lemma NextKeepsLabs(s: Store, step: Step)
    requires LabsInOrder(s)
    ensures LabsInOrder(Next(s, step))
  {
    hide UpdateState, DispatchJobs;
    match step
    case DoCreate(id, creator, org, now) =>
    case DoEdit(id, now) =>
    case DoDelete(id) =>
    case DoDeploy(id, plan, picked, prepared, d, now) =>
      DeployKeepsLabs(s, id, plan, picked, prepared, d, now);
    case DoDestroy(id, workerKnown, d, now) =>
      DestroyKeepsLabs(s, id, workerKnown, d, now);
    case DoUnstick(id, cutoff, now) =>
      if id in s.labs && Stuck(s.labs[id], cutoff) {
        UpdateKeepsLabs(s, id, StuckPush(s.labs[id]), now);
      }
    case DoDeliver(job, lost, now) =>
      DeliverKeepsLabs(s, job, lost, now);
  }

  lemma DeployKeepsLabs(s: Store, id: Uuid, plan: string, picked: Option<Picked>, prepared: bool, d: Dispatch, now: int)
    requires LabsInOrder(s)
    ensures LabsInOrder(Deploy(s, id, plan, picked, prepared, d, now).0)
  {
    hide DispatchJobs;
    if Deploy(s, id, plan, picked, prepared, d, now).1 == Done {
      var l := s.labs[id];
      var l' := l.(worker := Some(picked.value.id), state := Deploying, clabName := Some(ClabName(id)),
                   deployedAt := Some(now), error := None, updatedAt := now);
      var s' := Saved(s, id, l', Event(DeployStarted, OnWorker(picked.value.name)));
      assert LabsInOrder(s');
      DispatchKeepsLabs(s', id, d, true);
    }
  }

  lemma DestroyKeepsLabs(s: Store, id: Uuid, workerKnown: bool, d: Dispatch, now: int)
    requires LabsInOrder(s)
    ensures LabsInOrder(Destroy(s, id, workerKnown, d, now).0)
  {
    hide DispatchJobs, UpdateState;
    if Destroy(s, id, workerKnown, d, now).1 == Done {
      var s' := Saved(s, id, s.labs[id].(state := Stopping, updatedAt := now), Event(DestroyStarted, Nothing));
      assert LabsInOrder(s');
      DispatchKeepsLabs(s', id, d, false);
      UpdateKeepsLabs(s', id, Push(Stopped, None), now);
    }
  }

  lemma DeliverKeepsLabs(s: Store, job: Job, lost: bool, now: int)
    requires LabsInOrder(s)
    ensures LabsInOrder(Deliver(s, job, lost, now))
  {
    hide UpdateState;
    if job in s.jobs && job.pushes != [] {
      var s' := s.(jobs := s.jobs - multiset{job} + multiset{Job(job.lab, job.pushes[1..])});
      assert JobInOrder(s, job);
      assert forall i | 0 <= i < |job.pushes[1..]| :: job.pushes[1..][i] == job.pushes[i + 1];
      assert LabsInOrder(s');
      UpdateKeepsLabs(s', job.lab, job.pushes[0], now);
    }
  }

  lemma EmptyInOrder()
    ensures LabsInOrder(EMPTY) && AuditInOrder(EMPTY)
  {
  }

  /** In every reachable store each lab's fields fit its state. */
  lemma {:induction false} AlwaysInOrder(steps: seq<Step>)
    ensures LabsInOrder(RunFrom(EMPTY, steps))
    decreases |steps|
  {
    hide LabsInOrder, Next;
    if steps == [] {
      EmptyInOrder();
    } else {
      AlwaysInOrder(steps[..|steps| - 1]);
      NextKeepsLabs(RunFrom(EMPTY, steps[..|steps| - 1]), steps[|steps| - 1]);
    }
  }

  /** A lab that has left the scheduled state never returns to it, as long as it exists. */
  lemma LeavesScheduledForGood(s: Store, step: Step, id: Uuid)
    requires LabsInOrder(s) && id in s.labs && s.labs[id].state != Scheduled
    requires id in Next(s, step).labs
    ensures Next(s, step).labs[id].state != Scheduled
  {
    hide DispatchJobs;
    if step.DoDeliver? && step.job in s.jobs {
      assert JobInOrder(s, step.job);
    }
  }

  lemma {:induction false} NeverScheduledAgain(before: seq<Step>, after: seq<Step>, id: Uuid)
    requires var s := RunFrom(EMPTY, before); id in s.labs && s.labs[id].state != Scheduled
    ensures var s := RunFrom(EMPTY, before + after); id in s.events && (id in s.labs ==> s.labs[id].state != Scheduled)
    decreases |after|
  {
    hide Next, LabsInOrder;
    if after == [] {
      assert before + after == before;
      AlwaysInOrder(before);
      KnownLabs(RunFrom(EMPTY, before), id);
    } else {
      var init, last := before + after[..|after| - 1], after[|after| - 1];
      NeverScheduledAgain(before, after[..|after| - 1], id);
      AlwaysInOrder(init);
      assert (before + after)[..|before + after| - 1] == init;
      StillNotScheduled(RunFrom(EMPTY, init), last, id);
    }
  }

  lemma KnownLabs(s: Store, id: Uuid)
    requires LabsInOrder(s) && id in s.labs
    ensures id in s.events
  {
  }

  /** Ids are not reused, so a deleted lab stays away. */
  lemma StillNotScheduled(s: Store, step: Step, id: Uuid)
    requires LabsInOrder(s) && id in s.events && (id in s.labs ==> s.labs[id].state != Scheduled)
    ensures var t := Next(s, step); id in t.events && (id in t.labs ==> t.labs[id].state != Scheduled)
  {
    hide DispatchJobs;
    if id in s.labs && id in Next(s, step).labs {
      LeavesScheduledForGood(s, step, id);
    }
  }

  // ----- The audit trail -----

  lemma Append(events: seq<Event>, e: Event)
    requires ChangesFit(events)
    requires e.details.Change? ==> e.details.from == Replay(events) && e.details.to == Replay(events + [e])
    ensures ChangesFit(events + [e])
  {
    var all := events + [e];
    forall i | 0 <= i < |all| && all[i].details.Change?
      ensures all[i].details.from == Replay(all[..i]) && all[i].details.to == Replay(all[..i + 1])
    {
      if i < |events| {
        assert all[..i] == events[..i] && all[..i + 1] == events[..i + 1];
      } else {
        assert all[..i] == events && all[..i + 1] == all;
      }
    }
  }

  lemma SavedKeepsAudit(s: Store, id: Uuid, l: Lab, e: Event)
    requires AuditInOrder(s) && id in s.labs
    requires Replay(s.events[id] + [e]) == l.state
    requires e.details.Change? ==> e.details.from == s.labs[id].state && e.details.to == l.state
    ensures AuditInOrder(Saved(s, id, l, e))
  {
    hide Replay, ChangesFit;
    Append(s.events[id], e);
  }

  lemma UpdateKeepsAudit(s: Store, id: Uuid, p: Push, now: int)
    requires AuditInOrder(s)
    ensures AuditInOrder(UpdateState(s, id, p, now))
  {
    hide ChangesFit, AuditInOrder;
    if id in s.labs && id in s.events {
      var l := s.labs[id];
      var l' := l.(state := p.state, error := p.error, updatedAt := now,
                   stoppedAt := if p.state == Stopped then Some(now) else l.stoppedAt);
      SavedKeepsAudit(s, id, l', ChangeEvent(l.state, p.state, p.error));
    }
  }

  lemma SameRecordsSameAudit(s: Store, t: Store)
    requires AuditInOrder(s) && t.labs == s.labs && t.events == s.events
    ensures AuditInOrder(t)
  {
  }

  lemma NextKeepsAudit(s: Store, step: Step)
    requires AuditInOrder(s)
    ensures AuditInOrder(Next(s, step))
  {
    hide DispatchJobs, UpdateState, ChangesFit;
    match step
    case DoCreate(id, creator, org, now) =>
      assert ChangesFit([]) by { NoChanges(); }
    case DoEdit(id, now) =>
    case DoDelete(id) =>
    case DoDeploy(id, plan, picked, prepared, d, now) =>
      if Deploy(s, id, plan, picked, prepared, d, now).1 == Done {
        var l' := Deploy(s, id, plan, picked, prepared, d, now).0.labs[id];
        var e := Event(DeployStarted, OnWorker(picked.value.name));
        SavedKeepsAudit(s, id, l', e);
        SameRecordsSameAudit(Saved(s, id, l', e), Next(s, step));
      }
    case DoDestroy(id, workerKnown, d, now) =>
      DestroyKeepsAudit(s, id, workerKnown, d, now);
    case DoUnstick(id, cutoff, now) =>
      if id in s.labs && Stuck(s.labs[id], cutoff) {
        UpdateKeepsAudit(s, id, StuckPush(s.labs[id]), now);
      }
    case DoDeliver(job, lost, now) =>
      if job in s.jobs && job.pushes != [] {
        var s' := s.(jobs := s.jobs - multiset{job} + multiset{Job(job.lab, job.pushes[1..])});
        SameRecordsSameAudit(s, s');
        UpdateKeepsAudit(s', job.lab, job.pushes[0], now);
      }
  }

  lemma NoChanges()
    ensures ChangesFit([])
  {
  }

  lemma DestroyKeepsAudit(s: Store, id: Uuid, workerKnown: bool, d: Dispatch, now: int)
    requires AuditInOrder(s)
    ensures AuditInOrder(Destroy(s, id, workerKnown, d, now).0)
  {
    hide DispatchJobs, UpdateState, ChangesFit, AuditInOrder;
    if Destroy(s, id, workerKnown, d, now).1 == Done {
      var l, e := s.labs[id].(state := Stopping, updatedAt := now), Event(DestroyStarted, Nothing);
      var s' := Saved(s, id, l, e);
      SavedKeepsAudit(s, id, l, e);
      SameRecordsSameAudit(s', s'.(jobs := s'.jobs + DispatchJobs(id, DestroyPushes, d)));
      UpdateKeepsAudit(s', id, Push(Stopped, None), now);
    }
  }

  /** Replaying a lab's events gives exactly its stored state, and every "a -> b" entry fits
      the replay, after every run, late callbacks included. */
  lemma {:induction false} AuditReplays(steps: seq<Step>)
    ensures AuditInOrder(RunFrom(EMPTY, steps))
    decreases |steps|
  {
    hide AuditInOrder, Next;
    if steps == [] {
      EmptyInOrder();
    } else {
      AuditReplays(steps[..|steps| - 1]);
      NextKeepsAudit(RunFrom(EMPTY, steps[..|steps| - 1]), steps[|steps| - 1]);
    }
  }

  // ----- The concurrency quota -----

  /** The push this step brings would put a lab back into an active state. */
  predicate Revives(s: Store, step: Step) {
    && step.DoDeliver? && !step.lost && step.job in s.jobs && step.job.pushes != []
    && step.job.pushes[0].state in {Deploying, Running}
    && step.job.lab in s.labs && step.job.lab in s.events && !Active(s.labs[step.job.lab])
  }

  lemma ActiveAfterSave(s: Store, id: Uuid, l: Lab, e: Event, creator: nat)
    requires id in s.labs && id in s.events && l.creator == s.labs[id].creator
    ensures ActiveLabs(Saved(s, id, l, e), creator)
         == if l.creator == creator && Active(l) then ActiveLabs(s, creator) + {id} else ActiveLabs(s, creator) - {id}
  {
  }

  lemma ActiveAfterUpdate(s: Store, id: Uuid, p: Push, now: int, creator: nat)
    ensures ActiveLabs(UpdateState(s, id, p, now), creator)
         == if id !in s.labs || id !in s.events then ActiveLabs(s, creator)
            else if s.labs[id].creator == creator && p.state in {Deploying, Running} then ActiveLabs(s, creator) + {id}
            else ActiveLabs(s, creator) - {id}
  {
    hide ActiveLabs;
    if id in s.labs && id in s.events {
      var l := s.labs[id];
      var l' := l.(state := p.state, error := p.error, updatedAt := now,
                   stoppedAt := if p.state == Stopped then Some(now) else l.stoppedAt);
      ActiveAfterSave(s, id, l', ChangeEvent(l.state, p.state, p.error), creator);
    }
  }

  /** Only a deployment or a reviving callback makes a lab active. */
  lemma OnlyDeployOrRevivalActivates(s: Store, step: Step, creator: nat)
    requires LabsInOrder(s) && !step.DoDeploy? && !Revives(s, step)
    ensures ActiveLabs(Next(s, step), creator) <= ActiveLabs(s, creator)
  {
    hide UpdateState, DispatchJobs, LabsInOrder;
    match step
    case DoCreate(id, _, _, now) => KnownAll(s, id);
    case DoEdit(id, now) =>
    case DoDelete(id) =>
    case DoDestroy(id, workerKnown, d, now) =>
      if Destroy(s, id, workerKnown, d, now).1 == Done {
        var l, e := s.labs[id].(state := Stopping, updatedAt := now), Event(DestroyStarted, Nothing);
        ActiveAfterSave(s, id, l, e, creator);
        ActiveAfterUpdate(Saved(s, id, l, e), id, Push(Stopped, None), now, creator);
      }
    case DoUnstick(id, cutoff, now) =>
      if id in s.labs && Stuck(s.labs[id], cutoff) {
        ActiveAfterUpdate(s, id, StuckPush(s.labs[id]), now, creator);
      }
    case DoDeliver(job, lost, now) =>
      if job in s.jobs && job.pushes != [] {
        var s' := s.(jobs := s.jobs - multiset{job} + multiset{Job(job.lab, job.pushes[1..])});
        assert ActiveLabs(s', creator) == ActiveLabs(s, creator);
        ActiveAfterUpdate(s', job.lab, job.pushes[0], now, creator);
      }
  }

  lemma KnownAll(s: Store, id: Uuid)
    requires LabsInOrder(s)
    ensures id in s.labs ==> id in s.events
  {
  }

  /** A reviving callback adds exactly the lab it is about. */
  lemma RevivalAdds(s: Store, step: Step)
    requires Revives(s, step)
    ensures var c := s.labs[step.job.lab].creator;
      |ActiveLabs(Next(s, step), c)| == |ActiveLabs(s, c)| + 1
  {
    hide UpdateState;
    var job, c := step.job, s.labs[step.job.lab].creator;
    var s' := s.(jobs := s.jobs - multiset{job} + multiset{Job(job.lab, job.pushes[1..])});
    assert ActiveLabs(s', c) == ActiveLabs(s, c);
    ActiveAfterUpdate(s', job.lab, job.pushes[0], step.now, c);
    assert job.lab !in ActiveLabs(s, c);
  }

  /** A deployment that goes through finds fewer active labs than its plan allows. */
  lemma DeployWithinLimit(s: Store, step: Step, creator: nat, limit: int)
    requires LabsInOrder(s) && step.DoDeploy? && |ActiveLabs(s, creator)| <= limit
    requires step.id in s.labs && s.labs[step.id].creator == creator ==> Plan.Get(step.plan).maxConcurrentLabs <= limit
    ensures |ActiveLabs(Next(s, step), creator)| <= limit
  {
    hide DispatchJobs, LabsInOrder;
    var (t, reply) := Deploy(s, step.id, step.plan, step.picked, step.prepared, step.dispatch, step.now);
    if reply == Done {
      var e := Event(DeployStarted, OnWorker(step.picked.value.name));
      ActiveAfterSave(s, step.id, t.labs[step.id], e, creator);
      assert ActiveLabs(t, creator) == ActiveLabs(Saved(s, step.id, t.labs[step.id], e), creator);
    }
  }

  /** The stores a run goes through before each of its steps see no reviving callback. */
  predicate NoRevival(steps: seq<Step>) {
    forall i | 0 <= i < |steps| :: !Revives(RunFrom(EMPTY, steps[..i]), steps[i])
  }

  /** Every deployment of the creator's labs runs under a plan with at most that limit. */
  predicate PlansWithin(steps: seq<Step>, creator: nat, limit: int) {
    forall i | 0 <= i < |steps| && steps[i].DoDeploy? ::
      var s := RunFrom(EMPTY, steps[..i]);
      steps[i].id in s.labs && s.labs[steps[i].id].creator == creator ==>
        Plan.Get(steps[i].plan).maxConcurrentLabs <= limit
  }

  lemma {:induction false} QuotaWithin(steps: seq<Step>, creator: nat, limit: nat)
    requires NoRevival(steps) && PlansWithin(steps, creator, limit)
    ensures |ActiveLabs(RunFrom(EMPTY, steps), creator)| <= limit
    decreases |steps|
  {
    hide Next, ActiveLabs, LabsInOrder, Revives;
    if steps == [] {
      NoneActive(creator);
    } else {
      var init, last := steps[..|steps| - 1], steps[|steps| - 1];
      var s := RunFrom(EMPTY, init);
      assert forall i | 0 <= i < |init| :: init[i] == steps[i] && init[..i] == steps[..i];
      QuotaWithin(init, creator, limit);
      AlwaysInOrder(init);
      if last.DoDeploy? {
        DeployWithinLimit(s, last, creator, limit);
      } else {
        OnlyDeployOrRevivalActivates(s, last, creator);
        SmallerSet(ActiveLabs(Next(s, last), creator), ActiveLabs(s, creator));
      }
    }
  }

  lemma NoneActive(creator: nat)
    ensures ActiveLabs(EMPTY, creator) == {}
  {
  }

  lemma SmallerSet(a: set<Uuid>, b: set<Uuid>)
    requires a <= b
    ensures |a| <= |b|
  {
    assert b == a + (b - a);
  }

  /** Without reviving callbacks no creator ever has more than ten active labs, and never more
      than the limit of a plan all of the creator's deployments run under. */
  lemma Quota(steps: seq<Step>, creator: nat, plan: string)
    requires NoRevival(steps)
    ensures |ActiveLabs(RunFrom(EMPTY, steps), creator)| <= 10
    ensures PlansWithin(steps, creator, Plan.Get(plan).maxConcurrentLabs) ==>
      |ActiveLabs(RunFrom(EMPTY, steps), creator)| <= Plan.Get(plan).maxConcurrentLabs
  {
    hide RunFrom, ActiveLabs, Revives;
    QuotaWithin(steps, creator, 10);
    if PlansWithin(steps, creator, Plan.Get(plan).maxConcurrentLabs) {
      QuotaWithin(steps, creator, Plan.Get(plan).maxConcurrentLabs);
    }
  }

  /** A step other than a deployment makes a creator's number of active labs grow exactly when
      it is a callback that revives one of the creator's labs. */
  lemma GrowthIffRevival(s: Store, step: Step, creator: nat)
    requires LabsInOrder(s) && !step.DoDeploy?
    ensures |ActiveLabs(Next(s, step), creator)| > |ActiveLabs(s, creator)|
       <==> Revives(s, step) && s.labs[step.job.lab].creator == creator
  {
    hide ActiveLabs, LabsInOrder, UpdateState;
    if Revives(s, step) {
      if s.labs[step.job.lab].creator == creator {
        RevivalAdds(s, step);
      } else {
        var job := step.job;
        var s' := s.(jobs := s.jobs - multiset{job} + multiset{Job(job.lab, job.pushes[1..])});
        ActiveAfterUpdate(s', job.lab, job.pushes[0], step.now, creator);
        SameLabsSameActive(s, s', creator);
        SmallerSet(ActiveLabs(Next(s, step), creator), ActiveLabs(s, creator));
      }
    } else {
      OnlyDeployOrRevivalActivates(s, step, creator);
      SmallerSet(ActiveLabs(Next(s, step), creator), ActiveLabs(s, creator));
    }
  }

  lemma SameLabsSameActive(s: Store, t: Store, creator: nat)
    requires s.labs == t.labs
    ensures ActiveLabs(s, creator) == ActiveLabs(t, creator)
  {
  }

  /** Deploy a, destroy it, deploy b, and only then let the first push of a's deploy job arrive. */
  function LateCallbackRun(): seq<Step> {
    [DoCreate("a", 0, 0, 0), DoCreate("b", 0, 0, 0),
     DoDeploy("a", "free", Some(Picked(1, "w")), true, Dispatch(Some(Succeeds), None), 1),
     DoDestroy("a", true, Dispatch(None, None), 2),
     DoDeploy("b", "free", Some(Picked(1, "w")), true, Dispatch(None, None), 3),
     DoDeliver(Job("a", DeployPushes(Succeeds)), false, 4)]
  }

  const NEW_LAB := Lab(0, 0, Scheduled, None, None, None, None, None, 0)
  const FIRST_LAB := Lab(0, 0, Deploying, Some(1), Some(ClabName("a")), Some(1), None, None, 1)
  const SECOND_LAB := Lab(0, 0, Deploying, Some(1), Some(ClabName("b")), Some(3), None, None, 3)
  const FIRST_JOB := Job("a", DeployPushes(Succeeds))

  /** Labs a and b as given, and the jobs in flight. */
  predicate Holds(s: Store, a: Lab, b: Lab, jobs: multiset<Job>) {
    s.labs == map["a" := a, "b" := b] && s.jobs == jobs && s.events.Keys == {"a", "b"}
  }

  lemma LateRunCreates()
    ensures Holds(RunFrom(EMPTY, LateCallbackRun()[..2]), NEW_LAB, NEW_LAB, multiset{})
  {
    var run := LateCallbackRun();
    assert run[..0] == [];
    assert "a"[0] != "b"[0];
    RunStep(run, 0);
    RunStep(run, 1);
    assert RunFrom(EMPTY, run[..1]) == Store(map["a" := NEW_LAB], map["a" := []], multiset{});
  }

  lemma LateRunDeploysA(s: Store)
    requires Holds(s, NEW_LAB, NEW_LAB, multiset{})
    ensures Holds(Next(s, LateCallbackRun()[2]), FIRST_LAB, NEW_LAB, multiset{FIRST_JOB})
  {
    assert "a"[0] != "b"[0];
    assert ActiveLabs(s, 0) == {};
    assert DispatchJobs("a", DeployPushes, Dispatch(Some(Succeeds), None)) == multiset{FIRST_JOB};
  }

  lemma LateRunMovesOn(s: Store)
    requires Holds(s, FIRST_LAB, NEW_LAB, multiset{FIRST_JOB})
    ensures Holds(Next(Next(s, LateCallbackRun()[3]), LateCallbackRun()[4]),
                  FIRST_LAB.(state := Stopping, updatedAt := 2), SECOND_LAB, multiset{FIRST_JOB})
  {
    assert "a"[0] != "b"[0];
    var t := Next(s, LateCallbackRun()[3]);
    assert t.labs == map["a" := FIRST_LAB.(state := Stopping, updatedAt := 2), "b" := NEW_LAB];
    assert ActiveLabs(t, 0) == {};
  }

  lemma LateRunRevives(s: Store)
    requires Holds(s, FIRST_LAB.(state := Stopping, updatedAt := 2), SECOND_LAB, multiset{FIRST_JOB})
    ensures ActiveLabs(Next(s, LateCallbackRun()[5]), 0) == {"a", "b"}
  {
    assert "a"[0] != "b"[0];
  }

  /** The quota does not hold of all runs: on the free plan, which allows one active lab, a late
      callback leaves two. */
  lemma LateCallbackBreaksQuota()
    ensures PlansWithin(LateCallbackRun(), 0, 1) && |ActiveLabs(RunFrom(EMPTY, LateCallbackRun()), 0)| == 2
  {
    hide Next, Holds, ActiveLabs;
    var run := LateCallbackRun();
    LateRunCreates();
    RunStep(run, 2);
    RunStep(run, 3);
    RunStep(run, 4);
    RunStep(run, 5);
    assert run[..6] == run;
    LateRunDeploysA(RunFrom(EMPTY, run[..2]));
    LateRunMovesOn(RunFrom(EMPTY, run[..3]));
    LateRunRevives(RunFrom(EMPTY, run[..5]));
    assert "a"[0] != "b"[0];
  }

  lemma RunStep(steps: seq<Step>, k: nat)
    requires k < |steps|
    ensures RunFrom(EMPTY, steps[..k + 1]) == Next(RunFrom(EMPTY, steps[..k]), steps[k])
  {
    assert steps[..k + 1][..k] == steps[..k];
  }
}
