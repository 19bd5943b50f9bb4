/** What each call on a lab answers and leaves behind, and how the jobs it starts end, told in
    literal states (platform/internal/domain/lab/service.go, worker/internal/api/handlers.go). */
module LabOutcomes {
  import opened Text
  import opened LabLifecycle
  import opened LabInvariants
  import Plan

  // ----- Jobs and how they end -----

  /** All that a job still has to push arrives, in order. */
  function DeliverAll(s: Store, job: Job, now: int): Store
    decreases |job.pushes|
  {
    if job.pushes == [] then s
    else DeliverAll(Deliver(s, job, false, now), Job(job.lab, job.pushes[1..]), now)
  }

  ghost predicate EndsIn(s: Store, id: Uuid, job: Job, now: int, state: LabState, error: Option<string>) {
    var t := DeliverAll(s, job, now);
    && job.lab == id && id in t.labs
    && t.labs[id].state == state && t.labs[id].error == error
    && (state == Stopped ==> t.labs[id].stoppedAt == Some(now))
  }

  lemma TwoPushesEnd(s: Store, id: Uuid, first: Push, last: Push, now: int)
    requires id in s.labs && id in s.events && Job(id, [first, last]) in s.jobs
    ensures EndsIn(s, id, Job(id, [first, last]), now, last.state, last.error)
  {
    hide ChangeEvent;
    var job := Job(id, [first, last]);
    assert job.pushes[1..] == [last] && [last][1..] == [];
    var t := Deliver(s, job, false, now);
    OnePushEnds(t, id, last, now);
    assert DeliverAll(s, job, now) == DeliverAll(t, Job(id, [last]), now);
  }

  lemma OnePushEnds(s: Store, id: Uuid, last: Push, now: int)
    requires id in s.labs && id in s.events && Job(id, [last]) in s.jobs
    ensures EndsIn(s, id, Job(id, [last]), now, last.state, last.error)
  {
    hide ChangeEvent;
    assert [last][1..] == [];
    var t := Deliver(s, Job(id, [last]), false, now);
    assert DeliverAll(t, Job(id, []), now) == t;
  }

  /** The job a worker starts for a deployment reports deploying and then how it went; a failed call
      reports failed. */
  lemma DeployJobs(s: Store, id: Uuid, plan: string, picked: Option<Picked>, prepared: bool, d: Dispatch, now: int)
    requires Deploy(s, id, plan, picked, prepared, d, now).1 == Done
    ensures var t := Deploy(s, id, plan, picked, prepared, d, now).0;
      t.jobs == s.jobs
                + (if d.job == None then multiset{}
                   else if d.job == Some(Succeeds) then multiset{Job(id, [Push(Deploying, None), Push(Running, None)])}
                   else multiset{Job(id, [Push(Deploying, None), Push(Failed, Some(d.job.value.message))])})
                + (if d.callError == None then multiset{} else multiset{Job(id, [Push(Failed, d.callError)])})
  {
  }

  /** The job a worker starts for a destruction reports stopping and then how it went. */
  lemma DestroyJobs(s: Store, id: Uuid, workerKnown: bool, d: Dispatch, now: int)
    requires Destroy(s, id, workerKnown, d, now).1 == Done
    ensures var t := Destroy(s, id, workerKnown, d, now).0;
      if s.labs[id].worker.None? || s.labs[id].clabName.None? || !workerKnown then t.jobs == s.jobs
      else
        t.jobs == s.jobs
                  + (if d.job == None then multiset{}
                     else if d.job == Some(Succeeds)
                     then multiset{Job(id, [Push(Stopping, None), Push(Stopped, None)])}
                     else multiset{Job(id, [Push(Stopping, None), Push(Failed, Some(d.job.value.message))])})
                  + (if d.callError == None then multiset{} else multiset{Job(id, [Push(Failed, d.callError)])})
  {
  }

  /** A deployment whose job succeeds ends with the lab running, one whose job fails with the lab failed
      for the job's reason, and one whose call fails with the lab failed for the call's. */
  lemma DeployEnds(s: Store, id: Uuid, plan: string, picked: Option<Picked>, prepared: bool, d: Dispatch, now: int,
                   later: int)
    requires Deploy(s, id, plan, picked, prepared, d, now).1 == Done
    ensures var t := Deploy(s, id, plan, picked, prepared, d, now).0;
      && (d.job == Some(Succeeds) ==> exists j :: j in t.jobs && EndsIn(t, id, j, later, Running, None))
      && (d.job.Some? && d.job.value.Fails? ==>
            exists j :: j in t.jobs && EndsIn(t, id, j, later, Failed, Some(d.job.value.message)))
      && (d.callError.Some? ==> exists j :: j in t.jobs && EndsIn(t, id, j, later, Failed, d.callError))
  {
    hide EndsIn, Deploy;
    var t := Deploy(s, id, plan, picked, prepared, d, now).0;
    DeployJobs(s, id, plan, picked, prepared, d, now);
    DeployKnows(s, id, plan, picked, prepared, d, now);
    if d.job == Some(Succeeds) {
      TwoPushesEnd(t, id, Push(Deploying, None), Push(Running, None), later);
    } else if d.job.Some? {
      TwoPushesEnd(t, id, Push(Deploying, None), Push(Failed, Some(d.job.value.message)), later);
    }
    if d.callError.Some? {
      OnePushEnds(t, id, Push(Failed, d.callError), later);
    }
  }

  lemma DeployKnows(s: Store, id: Uuid, plan: string, picked: Option<Picked>, prepared: bool, d: Dispatch, now: int)
    requires Deploy(s, id, plan, picked, prepared, d, now).1 == Done
    ensures var t := Deploy(s, id, plan, picked, prepared, d, now).0; id in t.labs && id in t.events
  {
    hide DispatchJobs;
  }

  /** A destruction whose job succeeds ends with the lab stopped, one whose job or call fails with the
      lab failed for that reason, and one without a reachable worker stops at once. */
  lemma DestroyEnds(s: Store, id: Uuid, workerKnown: bool, d: Dispatch, now: int, later: int)
    requires Destroy(s, id, workerKnown, d, now).1 == Done
    ensures id in s.labs
    ensures var t := Destroy(s, id, workerKnown, d, now).0;
      id in t.labs &&
      if s.labs[id].worker.None? || s.labs[id].clabName.None? || !workerKnown
      then t.labs[id].state == Stopped && t.labs[id].stoppedAt == Some(now) && t.labs[id].error == None
      else
        && t.labs[id] == s.labs[id].(state := Stopping, updatedAt := now)
        && (d.job == Some(Succeeds) ==> exists j :: j in t.jobs && EndsIn(t, id, j, later, Stopped, None))
        && (d.job.Some? && d.job.value.Fails? ==>
              exists j :: j in t.jobs && EndsIn(t, id, j, later, Failed, Some(d.job.value.message)))
        && (d.callError.Some? ==> exists j :: j in t.jobs && EndsIn(t, id, j, later, Failed, d.callError))
  {
    hide EndsIn, Destroy;
    var t := Destroy(s, id, workerKnown, d, now).0;
    DestroyJobs(s, id, workerKnown, d, now);
    DestroyLeaves(s, id, workerKnown, d, now);
    if s.labs[id].worker.Some? && s.labs[id].clabName.Some? && workerKnown {
      if d.job == Some(Succeeds) {
        TwoPushesEnd(t, id, Push(Stopping, None), Push(Stopped, None), later);
      } else if d.job.Some? {
        TwoPushesEnd(t, id, Push(Stopping, None), Push(Failed, Some(d.job.value.message)), later);
      }
      if d.callError.Some? {
        OnePushEnds(t, id, Push(Failed, d.callError), later);
      }
    }
  }

  lemma DestroyLeaves(s: Store, id: Uuid, workerKnown: bool, d: Dispatch, now: int)
    requires Destroy(s, id, workerKnown, d, now).1 == Done
    ensures id in s.labs
    ensures var t := Destroy(s, id, workerKnown, d, now).0;
      id in t.labs && id in t.events &&
      if s.labs[id].worker.None? || s.labs[id].clabName.None? || !workerKnown
      then t.labs[id].state == Stopped && t.labs[id].stoppedAt == Some(now) && t.labs[id].error == None
      else t.labs[id] == s.labs[id].(state := Stopping, updatedAt := now)
  {
    hide DispatchJobs, ChangeEvent;
  }

  /** A job of the lab that will still report it running. */
  predicate WillReportRunning(j: Job, id: Uuid) {
    j.lab == id && exists i :: 0 <= i < |j.pushes| && j.pushes[i].state == Running
  }

  ghost predicate SomeWillReportRunning(s: Store, id: Uuid) {
    exists j :: j in s.jobs && WillReportRunning(j, id)
  }

  lemma DeployPromisesItsOwn(s: Store, step: Step, j: Job, id: Uuid)
    requires step.DoDeploy? && j in Next(s, step).jobs && WillReportRunning(j, id)
    ensures step.id == id || SomeWillReportRunning(s, id)
  {
    hide Deploy;
    var reply := Deploy(s, step.id, step.plan, step.picked, step.prepared, step.dispatch, step.now);
    DeployKeepsOtherwise(s, step.id, step.plan, step.picked, step.prepared, step.dispatch, step.now);
    if reply.1 == Done {
      DeployJobs(s, step.id, step.plan, step.picked, step.prepared, step.dispatch, step.now);
      assert j in s.jobs || j.lab == step.id;
    }
  }

  lemma DeployKeepsOtherwise(s: Store, id: Uuid, plan: string, picked: Option<Picked>, prepared: bool, d: Dispatch,
                             now: int)
    ensures Deploy(s, id, plan, picked, prepared, d, now).1 != Done ==>
              Deploy(s, id, plan, picked, prepared, d, now).0 == s
  {
    hide DispatchJobs;
  }

  lemma DestroyPromisesNone(s: Store, step: Step, j: Job, id: Uuid)
    requires step.DoDestroy? && j in Next(s, step).jobs && WillReportRunning(j, id)
    ensures SomeWillReportRunning(s, id)
  {
    hide Destroy;
    var reply := Destroy(s, step.id, step.workerKnown, step.dispatch, step.now);
    DestroyKeepsOtherwise(s, step.id, step.workerKnown, step.dispatch, step.now);
    if reply.1 == Done {
      DestroyLeaves(s, step.id, step.workerKnown, step.dispatch, step.now);
      DestroyJobs(s, step.id, step.workerKnown, step.dispatch, step.now);
      assert j in s.jobs;
    }
  }

  lemma DestroyKeepsOtherwise(s: Store, id: Uuid, workerKnown: bool, d: Dispatch, now: int)
    ensures Destroy(s, id, workerKnown, d, now).1 != Done ==> Destroy(s, id, workerKnown, d, now).0 == s
  {
    hide DispatchJobs, UpdateState;
  }

  lemma DeliveryPromisesNoMore(s: Store, step: Step, j: Job, id: Uuid)
    requires step.DoDeliver? && j in Next(s, step).jobs && WillReportRunning(j, id)
    ensures SomeWillReportRunning(s, id)
  {
    hide UpdateState;
    var job := step.job;
    if job in s.jobs && job.pushes != [] {
      var rest := Job(job.lab, job.pushes[1..]);
      var s' := s.(jobs := s.jobs - multiset{job} + multiset{rest});
      UpdateKeepsJobs(s', job.lab, job.pushes[0], step.now);
      if j == rest {
        var i :| 0 <= i < |rest.pushes| && rest.pushes[i].state == Running;
        assert job.pushes[i + 1].state == Running;
        assert WillReportRunning(job, id);
      } else {
        assert j in s.jobs;
      }
    }
  }

  /** Only a deployment starts a job that will report a lab running. */
  lemma OnlyDeployPromisesRunning(s: Store, step: Step, id: Uuid)
    requires SomeWillReportRunning(Next(s, step), id)
    ensures (step.DoDeploy? && step.id == id) || SomeWillReportRunning(s, id)
  {
    hide UpdateState, WillReportRunning, Deploy, Destroy, Deliver;
    var j :| j in Next(s, step).jobs && WillReportRunning(j, id);
    match step
    case DoDeploy(_, _, _, _, _, _) => DeployPromisesItsOwn(s, step, j, id);
    case DoDestroy(_, _, _, _) => DestroyPromisesNone(s, step, j, id);
    case DoUnstick(lab, cutoff, now) =>
      if lab in s.labs && Stuck(s.labs[lab], cutoff) {
        UpdateKeepsJobs(s, lab, StuckPush(s.labs[lab]), now);
      }
    case DoDeliver(_, _, _) => DeliveryPromisesNoMore(s, step, j, id);
    case _ =>
  }

  lemma UpdateKeepsJobs(s: Store, id: Uuid, p: Push, now: int)
    ensures UpdateState(s, id, p, now).jobs == s.jobs
  {
  }

  // ----- Replies and records -----

  /** How many labs of the creator are running or being deployed. */
  function ActiveCount(s: Store, creator: nat): nat {
    |set id | id in s.labs && s.labs[id].creator == creator && s.labs[id].state in {Running, Deploying}|
  }

  /** A deployment goes through exactly for a scheduled, failed or stopped lab whose creator has fewer
      active labs than the plan allows, when a worker is found and everything is prepared. */
  lemma DeployDoneIff(s: Store, id: Uuid, plan: string, picked: Option<Picked>, prepared: bool, d: Dispatch, now: int)
    requires LabsInOrder(s)
    ensures Deploy(s, id, plan, picked, prepared, d, now).1 == Done
       <==> && id in s.labs && s.labs[id].state in {Scheduled, Failed, Stopped}
            && ActiveCount(s, s.labs[id].creator) < (if plan == "heavy" then 10 else if plan == "light" then 3 else 1)
            && picked.Some? && prepared
    ensures Deploy(s, id, plan, picked, prepared, d, now).1 != Done ==>
              Deploy(s, id, plan, picked, prepared, d, now).0 == s
  {
    hide DispatchJobs;
    KnownAll(s, id);
    if id in s.labs {
      SameCount(s, s.labs[id].creator);
    }
  }

  /** A refused call is told the first reason that applies. */
  lemma RefusalReasons(s: Store, id: Uuid, plan: string, picked: Option<Picked>, prepared: bool, known: bool,
                       d: Dispatch, now: int)
    requires LabsInOrder(s)
    ensures var deploy := Deploy(s, id, plan, picked, prepared, d, now).1;
      && (id !in s.labs ==> deploy == NotFound)
      && (id in s.labs && s.labs[id].state in {Deploying, Running, Stopping} ==> deploy == WrongState)
      && (id in s.labs && s.labs[id].state in {Scheduled, Failed, Stopped} ==>
            var full := ActiveCount(s, s.labs[id].creator)
                        >= (if plan == "heavy" then 10 else if plan == "light" then 3 else 1);
            deploy == if full then PlanLimit
                      else if picked.None? then NoWorker
                      else if !prepared then NotPrepared
                      else Done)
    ensures Destroy(s, id, known, d, now).1
         == if id !in s.labs then NotFound
            else if s.labs[id].state in {Scheduled, Stopping, Stopped} then WrongState
            else Done
    ensures Delete(s, id).1
         == if id !in s.labs then NotFound else if s.labs[id].state in {Running, Deploying} then WrongState else Done
  {
    hide DispatchJobs, UpdateState;
    KnownAll(s, id);
    if id in s.labs {
      SameCount(s, s.labs[id].creator);
    }
  }

  lemma SameCount(s: Store, creator: nat)
    ensures ActiveCount(s, creator) == |ActiveLabs(s, creator)|
  {
    assert ActiveLabs(s, creator)
        == set id | id in s.labs && s.labs[id].creator == creator && s.labs[id].state in {Running, Deploying};
  }

  /** What a deployment records. */
  lemma DeployRecords(s: Store, id: Uuid, plan: string, picked: Option<Picked>, prepared: bool, d: Dispatch, now: int)
    requires Deploy(s, id, plan, picked, prepared, d, now).1 == Done && |id| >= 8
    ensures id in s.labs && id in s.events && picked.Some?
    ensures var t, l := Deploy(s, id, plan, picked, prepared, d, now).0, s.labs[id];
      && t.labs == s.labs[id := Lab(l.creator, l.org, Deploying, Some(picked.value.id), Some("lab-" + id[..8]),
                                    Some(now), l.stoppedAt, None, now)]
      && t.events == s.events[id := s.events[id] + [Event(DeployStarted, OnWorker(picked.value.name))]]
  {
    hide DispatchJobs;
    assert |id| == 8 ==> id[..8] == id;
  }

  /** A destruction goes through exactly for a running, deploying or failed lab. */
  lemma DestroyDoneIff(s: Store, id: Uuid, workerKnown: bool, d: Dispatch, now: int)
    requires LabsInOrder(s)
    ensures Destroy(s, id, workerKnown, d, now).1 == Done
       <==> id in s.labs && s.labs[id].state in {Running, Deploying, Failed}
    ensures Destroy(s, id, workerKnown, d, now).1 != Done ==> Destroy(s, id, workerKnown, d, now).0 == s
  {
    hide DispatchJobs, UpdateState;
    KnownAll(s, id);
  }

  /** A lab is deleted exactly when it is neither running nor being deployed, and its audit stays. */
  lemma DeleteDoneIff(s: Store, id: Uuid)
    ensures Delete(s, id).1 == Done <==> id in s.labs && s.labs[id].state !in {Running, Deploying}
    ensures Delete(s, id).0 == if Delete(s, id).1 == Done then s.(labs := s.labs - {id}) else s
  {
  }

  /** A new lab is scheduled and has no history; an id that was used before is refused. */
  lemma CreateDoneIff(s: Store, id: Uuid, creator: nat, org: nat, now: int)
    ensures Create(s, id, creator, org, now).1 == Done <==> id !in s.events
    ensures var t := Create(s, id, creator, org, now).0;
      if id in s.events then t == s
      else
        && t.jobs == s.jobs && t.events == s.events[id := []]
        && t.labs == s.labs[id := Lab(creator, org, Scheduled, None, None, None, None, None, now)]
  {
  }

  // ----- Status reports -----

  /** A report is taken over as it is: state and error, the time, and the stop time for a stopped lab. */
  lemma ReportRecords(s: Store, id: Uuid, p: Push, now: int)
    requires id in s.labs && id in s.events
    ensures var t, l := UpdateState(s, id, p, now), s.labs[id];
      t.labs == s.labs[id := Lab(l.creator, l.org, p.state, l.worker, l.clabName, l.deployedAt,
                                 if p.state == Stopped then Some(now) else l.stoppedAt, p.error, now)]
  {
    hide ChangeEvent;
  }

  /** What a report adds to the audit: a running lab counts as deployed, a stopped one as destroyed, the
      failure of a deployment is noted with its error, and anything else as the change it is. */
  lemma ReportAudits(s: Store, id: Uuid, p: Push, now: int)
    requires id in s.labs && id in s.events
    ensures var t, before := UpdateState(s, id, p, now), s.labs[id].state;
      && t.events.Keys == s.events.Keys && (forall k | k in s.events && k != id :: t.events[k] == s.events[k])
      && t.events[id] == s.events[id] + [
           if p.state == Running then Event(DeployCompleted, Change(before, Running))
           else if p.state == Stopped then Event(DestroyCompleted, Change(before, Stopped))
           else if p.state == Failed && before == Deploying && p.error.Some?
           then Event(DeployFailed, Message(p.error.value))
           else if p.state == Failed && before == Deploying then Event(DeployFailed, Change(Deploying, Failed))
           else Event(StateChanged, Change(before, p.state))]
  {
  }

  /** The sweep fails a deployment and ends a destruction that were last saved before the cutoff, and
      leaves every other lab alone. */
  lemma UnstickCases(s: Store, id: Uuid, cutoff: int, now: int)
    requires LabsInOrder(s) && id in s.labs
    ensures var t, l := Unstick(s, id, cutoff, now), s.labs[id];
      if l.state == Deploying && l.updatedAt < cutoff
      then id in t.labs && t.labs[id].state == Failed && t.labs[id].error.Some?
      else if l.state == Stopping && l.updatedAt < cutoff
      then id in t.labs && t.labs[id].state == Stopped && t.labs[id].stoppedAt == Some(now) && t.labs[id].error == None
      else t == s
  {
    hide ChangeEvent;
    KnownAll(s, id);
  }

  // ----- One lab a step -----

  function LabOf(step: Step): Uuid {
    if step.DoDeliver? then step.job.lab else step.id
  }

  ghost predicate SameLab(s: Store, t: Store, id: Uuid) {
    && (id in t.labs <==> id in s.labs) && (id in s.labs ==> t.labs[id] == s.labs[id])
    && (id in t.events <==> id in s.events) && (id in s.events ==> t.events[id] == s.events[id])
  }

  lemma UpdateTouchesOne(s: Store, lab: Uuid, p: Push, now: int, id: Uuid)
    requires id != lab
    ensures SameLab(s, UpdateState(s, lab, p, now), id)
  {
    hide ChangeEvent;
  }

  lemma DeployTouchesOne(s: Store, lab: Uuid, plan: string, picked: Option<Picked>, prepared: bool, d: Dispatch,
                         now: int, id: Uuid)
    requires id != lab
    ensures SameLab(s, Deploy(s, lab, plan, picked, prepared, d, now).0, id)
  {
    hide DispatchJobs, Plan.Get;
  }

  lemma DestroyTouchesOne(s: Store, lab: Uuid, workerKnown: bool, d: Dispatch, now: int, id: Uuid)
    requires id != lab
    ensures SameLab(s, Destroy(s, lab, workerKnown, d, now).0, id)
  {
    hide DispatchJobs, UpdateState;
    if Destroy(s, lab, workerKnown, d, now).1 == Done {
      UpdateTouchesOne(Saved(s, lab, s.labs[lab].(state := Stopping, updatedAt := now), Event(DestroyStarted, Nothing)),
                       lab, Push(Stopped, None), now, id);
    }
  }

  /** A step changes one lab at most, with its events. */
  lemma StepTouchesOneLab(s: Store, step: Step, id: Uuid)
    requires id != LabOf(step)
    ensures (id in Next(s, step).labs <==> id in s.labs) && (id in s.labs ==> Next(s, step).labs[id] == s.labs[id])
    ensures id in Next(s, step).events <==> id in s.events
    ensures id in s.events ==> Next(s, step).events[id] == s.events[id]
  {
    hide DispatchJobs, UpdateState, Deploy, Destroy;
    match step
    case DoDeploy(lab, plan, picked, prepared, d, now) => DeployTouchesOne(s, lab, plan, picked, prepared, d, now, id);
    case DoDestroy(lab, workerKnown, d, now) => DestroyTouchesOne(s, lab, workerKnown, d, now, id);
    case DoUnstick(lab, cutoff, now) =>
      if lab in s.labs && Stuck(s.labs[lab], cutoff) {
        UpdateTouchesOne(s, lab, StuckPush(s.labs[lab]), now, id);
      }
    case DoDeliver(job, lost, now) =>
      if job in s.jobs && job.pushes != [] {
        UpdateTouchesOne(s.(jobs := s.jobs - multiset{job} + multiset{Job(job.lab, job.pushes[1..])}), job.lab,
                         job.pushes[0], now, id);
      }
    case _ =>
  }

  /** A delivery uses up the next push of its job; a lost one changes no lab, another reports it. */
  lemma DeliveryTakesOnePush(s: Store, job: Job, lost: bool, now: int)
    requires job in s.jobs && job.pushes != []
    ensures var t := Deliver(s, job, lost, now);
      && t.jobs == s.jobs - multiset{job} + multiset{Job(job.lab, job.pushes[1..])}
      && (lost ==> t.labs == s.labs && t.events == s.events)
      && (!lost ==> t.labs == UpdateState(s, job.lab, job.pushes[0], now).labs
                    && t.events == UpdateState(s, job.lab, job.pushes[0], now).events)
  {
    hide ChangeEvent;
  }

  /** Renaming or rescheduling a lab moves its save time and nothing else that is modelled. */
  lemma EditChangesTimeOnly(s: Store, id: Uuid, now: int)
    ensures Edit(s, id, now).1 == Done <==> id in s.labs
    ensures Edit(s, id, now).0
         == if id in s.labs then s.(labs := s.labs[id := s.labs[id].(updatedAt := now)]) else s
  {
  }

  lemma ChangesAreDated(s: Store, step: Step, id: Uuid)
    requires id in s.labs && id in Next(s, step).labs && Next(s, step).labs[id] != s.labs[id]
    ensures !step.DoDelete? && Next(s, step).labs[id].updatedAt == step.now
  {
    hide DispatchJobs, ChangeEvent;
  }

  /** Creator and organisation of a lab are the same, and its events only longer. */
  ghost predicate Grown(s: Store, t: Store, id: Uuid) {
    && (id in s.labs && id in t.labs ==> t.labs[id].creator == s.labs[id].creator && t.labs[id].org == s.labs[id].org)
    && (id in s.events ==> id in t.events && s.events[id] <= t.events[id])
  }

  lemma UpdateGrows(s: Store, lab: Uuid, p: Push, now: int, id: Uuid)
    ensures Grown(s, UpdateState(s, lab, p, now), id)
  {
    hide ChangeEvent;
  }

  lemma DestroyGrows(s: Store, lab: Uuid, workerKnown: bool, d: Dispatch, now: int, id: Uuid)
    ensures Grown(s, Destroy(s, lab, workerKnown, d, now).0, id)
  {
    hide DispatchJobs, UpdateState;
    if Destroy(s, lab, workerKnown, d, now).1 == Done {
      UpdateGrows(Saved(s, lab, s.labs[lab].(state := Stopping, updatedAt := now), Event(DestroyStarted, Nothing)), lab,
                  Push(Stopped, None), now, id);
    }
  }

  /** Who created a lab, for which organisation, never changes, and events are only added. */
  lemma HistoryOnlyGrows(s: Store, step: Step, id: Uuid)
    requires LabsInOrder(s)
    ensures id in s.labs && id in Next(s, step).labs ==>
              Next(s, step).labs[id].creator == s.labs[id].creator && Next(s, step).labs[id].org == s.labs[id].org
    ensures id in s.events ==> id in Next(s, step).events && s.events[id] <= Next(s, step).events[id]
  {
    hide DispatchJobs, UpdateState, Destroy, LabsInOrder;
    KnownAll(s, id);
    match step
    case DoDestroy(lab, workerKnown, d, now) => DestroyGrows(s, lab, workerKnown, d, now, id);
    case DoUnstick(lab, cutoff, now) =>
      if lab in s.labs && Stuck(s.labs[lab], cutoff) {
        UpdateGrows(s, lab, StuckPush(s.labs[lab]), now, id);
      }
    case DoDeliver(job, lost, now) =>
      if job in s.jobs && job.pushes != [] {
        UpdateGrows(s.(jobs := s.jobs - multiset{job} + multiset{Job(job.lab, job.pushes[1..])}), job.lab,
                    job.pushes[0], now, id);
      }
    case _ =>
  }
}
