/** The service object: its methods update the stored labs, events and jobs in place
    (platform/internal/domain/lab/service.go). */
module LabServices {
  import opened Text
  import opened LabLifecycle
  import opened LabInvariants
  import opened DeployPreparation
  import Plan

  class LabService {
    var labs: map<Uuid, Lab>
    var events: map<Uuid, seq<Event>>
    var jobs: multiset<Job>

    function State(): Store
      reads this
    {
      Store(labs, events, jobs)
    }

    ghost predicate Valid()
      reads this
    {
      LabsInOrder(State())
    }

    constructor ()
      ensures Valid() && State() == EMPTY
    {
      labs, events, jobs := map[], map[], multiset{};
    }

    /** `s.repo.Update(l)` followed by `s.recordEvent`. */
    method SaveAndRecord(id: Uuid, l: Lab, e: Event)
      requires id in events
      modifies this
      ensures State() == Saved(old(State()), id, l, e)
    {
      labs := labs[id := l];
      events := events[id := events[id] + [e]];
    }

    method Create(id: Uuid, creator: nat, org: nat, now: int) returns (r: Reply)
      requires Valid()
      modifies this
      ensures Valid() && (State(), r) == LabLifecycle.Create(old(State()), id, creator, org, now)
    {
      NextKeepsLabs(State(), DoCreate(id, creator, org, now));
      if id in events {
        return Exists;
      }
      labs := labs[id := Lab(creator, org, Scheduled, None, None, None, None, None, now)];
      events := events[id := []];
      r := Done;
    }

    method Delete(id: Uuid) returns (r: Reply)
      requires Valid()
      modifies this
      ensures Valid() && (State(), r) == LabLifecycle.Delete(old(State()), id)
    {
      NextKeepsLabs(State(), DoDelete(id));
      if id !in labs {
        return NotFound;
      }
      if labs[id].state == Running || labs[id].state == Deploying {
        return WrongState;
      }
      labs := labs - {id};
      r := Done;
    }

    /** `sent` is what the worker is asked to deploy. */
    method Deploy(id: Uuid, plan: string, picked: Option<Picked>, req: Request, d: Dispatch, now: int)
      returns (r: Reply, sent: Option<Payload>)
      requires Valid()
      modifies this
      ensures Valid()
      ensures (State(), r) == LabLifecycle.Deploy(old(State()), id, plan, picked, Preparable(req, plan), d, now)
      ensures sent.Some? <==> r == Done
      ensures r == Done ==>
                Preparable(req, plan)
                && sent.value == Payload(FinalDefinition(req).value, FilesSent(req, FinalDefinition(req).value))
    {
      hide LabsInOrder, DispatchJobs, FinalDefinition, FilesSent, Preparable, Plan.Get, ClabName;
      sent := None;
      NextKeepsLabs(State(), DoDeploy(id, plan, picked, Preparable(req, plan), d, now));
      KnownAll(State(), id);
      if id !in labs {
        return NotFound, None;
      }
      var l := labs[id];
      if l.state != Scheduled && l.state != Failed && l.state != Stopped {
        return WrongState, None;
      }
      var limits := Plan.Get(plan);
      var runningLabs := ActiveLabs(State(), l.creator);
      if limits.maxConcurrentLabs > 0 && |runningLabs| >= limits.maxConcurrentLabs {
        return PlanLimit, None;
      }
      if picked.None? {
        return NoWorker, None;
      }
      var prepared := Prepare(req, plan);
      if prepared.Refused? {
        return NotPrepared, None;
      }
      l := l.(worker := Some(picked.value.id), state := Deploying, clabName := Some(ClabName(id)));
      l := l.(deployedAt := Some(now), error := None, updatedAt := now);
      SaveAndRecord(id, l, Event(DeployStarted, OnWorker(picked.value.name)));
      jobs := jobs + DispatchJobs(id, DeployPushes, d);
      r, sent := Done, Some(prepared.payload);
    }

    method UpdateState(id: Uuid, p: Push, now: int) returns (r: Reply)
      requires id in labs ==> id in events
      modifies this
      ensures State() == LabLifecycle.UpdateState(old(State()), id, p, now)
      ensures r == if id in old(labs) then Done else NotFound
    {
      if id !in labs {
        return NotFound;
      }
      var l := labs[id];
      var oldState := l.state;
      l := l.(state := p.state, error := p.error);
      if p.state == Stopped {
        l := l.(stoppedAt := Some(now));
      }
      l := l.(updatedAt := now);
      var event, details := StateChanged, Change(oldState, p.state);
      if p.state == Running {
        event := DeployCompleted;
      } else if p.state == Failed && oldState == Deploying {
        event := DeployFailed;
        if p.error.Some? {
          details := Message(p.error.value);
        }
      } else if p.state == Stopped {
        event := DestroyCompleted;
      }
      SaveAndRecord(id, l, Event(event, details));
      r := Done;
    }

    method Destroy(id: Uuid, workerKnown: bool, d: Dispatch, now: int) returns (r: Reply)
      requires Valid()
      modifies this
      ensures Valid() && (State(), r) == LabLifecycle.Destroy(old(State()), id, workerKnown, d, now)
    {
      hide LabsInOrder, DispatchJobs, LabLifecycle.UpdateState;
      NextKeepsLabs(State(), DoDestroy(id, workerKnown, d, now));
      KnownAll(State(), id);
      if id !in labs {
        return NotFound;
      }
      var l := labs[id];
      if l.state != Running && l.state != Deploying && l.state != Failed {
        return WrongState;
      }
      SaveAndRecord(id, l.(state := Stopping, updatedAt := now), Event(DestroyStarted, Nothing));
      if l.worker.Some? && l.clabName.Some? && workerKnown {
        jobs := jobs + DispatchJobs(id, DestroyPushes, d);
      } else {
        var _ := UpdateState(id, Push(Stopped, None), now);
      }
      r := Done;
    }

    /** Destroys every active lab of the creator. `steps` lists the calls made; afterwards none of
        them is active, the count is right, and no other lab or event list has changed. */
    method PauseAllLabs(creator: nat, known: Uuid -> bool, d: Uuid -> Dispatch, now: int)
      returns (count: nat, ghost steps: seq<Step>)
      requires Valid()
      modifies this
      ensures Valid() && State() == RunFrom(old(State()), steps)
      ensures forall i | 0 <= i < |steps| :: steps[i].DoDestroy? && steps[i].id in old(ActiveLabs(State(), creator))
      ensures count == |steps| == |old(ActiveLabs(State(), creator))|
      ensures ActiveLabs(State(), creator) == {} && labs.Keys == old(labs.Keys)
      ensures forall id | id in labs :: if id in old(ActiveLabs(State(), creator))
                                        then labs[id].state in {Stopping, Stopped}
                                        else labs[id] == old(labs[id])
      ensures forall id | id in old(events) && id !in old(ActiveLabs(State(), creator)) ::
                id in events && events[id] == old(events[id])
    {
      hide LabsInOrder, DispatchJobs, Next, Paused, ActiveLabs, RunFrom;
      ghost var before := State();
      var todo := ActiveLabs(State(), creator);
      PauseStarts(before, creator);
      count, steps := 0, [];
      while todo != {}
        invariant Valid() && State() == RunFrom(before, steps) && todo <= ActiveLabs(before, creator)
        invariant count == |steps| && count + |todo| == |ActiveLabs(before, creator)|
        invariant forall i | 0 <= i < |steps| :: steps[i].DoDestroy? && steps[i].id in ActiveLabs(before, creator)
        invariant Paused(before, State(), creator, todo)
        decreases |todo|
      {
        var id :| id in todo;
        ghost var at := State();
        DestroyPauses(before, at, creator, todo, id, known(id), d(id), now);
        var r := Destroy(id, known(id), d(id), now);
        if r == Done {
          count := count + 1;
        }
        ghost var step := DoDestroy(id, known(id), d(id), now);
        RunOneMore(before, steps, step);
        assert Next(at, step) == State() by { NextIsDestroy(at, id, known(id), d(id), now); }
        steps := steps + [step];
        todo := todo - {id};
      }
      PauseEnds(before, State(), creator);
    }

    /** Marks the labs stuck since before now - threshold; `cutoff` is what the query compares. */
    method CleanupStuckLabs(threshold: int, now: int)
      requires Valid()
      modifies this
      ensures Valid() && jobs == old(jobs) && labs.Keys == old(labs.Keys) && events.Keys == old(events.Keys)
      ensures forall id | id in labs ::
                var l := old(labs[id]);
                labs[id] == if l.state == Deploying && l.updatedAt < now - threshold
                            then l.(state := Failed, error := Some(TIMED_OUT), updatedAt := now)
                            else if l.state == Stopping && l.updatedAt < now - threshold
                            then l.(state := Stopped, error := None, stoppedAt := Some(now), updatedAt := now)
                            else l
      ensures forall id | id in events ::
                events[id]
                == old(events[id]) + (if id !in labs then [] else AuditOfSweep(old(labs[id]), now - threshold))
    {
      hide LabsInOrder, Swept, AuditOfSweep;
      var cutoff := now - threshold;
      ghost var before := State();
      var todo := set id | id in labs && Stuck(labs[id], cutoff);
      SweepStarts(before, cutoff, now, todo);
      while todo != {}
        invariant Valid() && Swept(before, State(), cutoff, now, todo)
        decreases |todo|
      {
        var id :| id in todo;
        UnstickSweeps(before, State(), cutoff, now, todo, id);
        EndStuck(id, cutoff, now);
        todo := todo - {id};
      }
      SweepEnds(before, State(), cutoff, now);
    }

    /** The loop body for one stuck lab. */
    method EndStuck(id: Uuid, cutoff: int, now: int)
      requires Valid() && id in labs && Stuck(labs[id], cutoff)
      modifies this
      ensures Valid()
      ensures State() == LabLifecycle.UpdateState(old(State()), id, StuckPush(old(labs[id])), now)
    {
      hide LabsInOrder, LabLifecycle.UpdateState;
      KnownAll(State(), id);
      UnstickKeepsLabs(State(), cutoff, now, id);
      var l := labs[id];
      if l.state == Stopping {
        var _ := UpdateState(id, Push(Stopped, None), now);
      } else {
        var _ := UpdateState(id, Push(Failed, Some(TIMED_OUT)), now);
      }
    }
  }

  /** What the sweep makes of a lab. */
  function Unstuck(l: Lab, cutoff: int, now: int): Lab {
    if !Stuck(l, cutoff) then l
    else if l.state == Stopping then l.(state := Stopped, error := None, stoppedAt := Some(now), updatedAt := now)
    else l.(state := Failed, error := Some(TIMED_OUT), updatedAt := now)
  }

  /** The event the sweep leaves in a lab's audit. */
  function AuditOfSweep(l: Lab, cutoff: int): seq<Event> {
    if l.updatedAt >= cutoff then []
    else if l.state == Deploying then [Event(DeployFailed, Message(TIMED_OUT))]
    else if l.state == Stopping then [Event(DestroyCompleted, Change(Stopping, Stopped))]
    else []
  }

  /** A sweep that has yet to visit the labs of todo. */
  ghost predicate Swept(before: Store, s: Store, cutoff: int, now: int, todo: set<Uuid>) {
    && s.jobs == before.jobs && s.labs.Keys == before.labs.Keys && s.events.Keys == before.events.Keys
    && (forall id | id in todo :: id in before.labs && Stuck(before.labs[id], cutoff))
    && (forall id | id in s.labs ::
          s.labs[id] == if id in todo then before.labs[id] else Unstuck(before.labs[id], cutoff, now))
    && (forall id | id in s.events ::
          s.events[id] == before.events[id]
                          + if id !in before.labs || id in todo then [] else AuditOfSweep(before.labs[id], cutoff))
  }

  /** A pause that has yet to visit the labs of todo. */
  ghost predicate Paused(before: Store, s: Store, creator: nat, todo: set<Uuid>) {
    && s.labs.Keys == before.labs.Keys && ActiveLabs(s, creator) == todo
    && (forall id | id in s.labs ::
          if id in ActiveLabs(before, creator) - todo then s.labs[id].state in {Stopping, Stopped}
          else s.labs[id] == before.labs[id])
    && (forall id | id in before.events && id !in ActiveLabs(before, creator) ::
          id in s.events && s.events[id] == before.events[id])
  }

  lemma PauseStarts(s: Store, creator: nat)
    ensures Paused(s, s, creator, ActiveLabs(s, creator)) && RunFrom(s, []) == s
  {
  }

  lemma PauseEnds(before: Store, s: Store, creator: nat)
    requires Paused(before, s, creator, {})
    ensures ActiveLabs(s, creator) == {} && s.labs.Keys == before.labs.Keys
    ensures forall id | id in s.labs :: if id in ActiveLabs(before, creator)
                                        then s.labs[id].state in {Stopping, Stopped}
                                        else s.labs[id] == before.labs[id]
    ensures forall id | id in before.events && id !in ActiveLabs(before, creator) ::
              id in s.events && s.events[id] == before.events[id]
  {
    hide ActiveLabs;
  }

  lemma RunOneMore(s: Store, steps: seq<Step>, step: Step)
    ensures RunFrom(s, steps + [step]) == Next(RunFrom(s, steps), step)
  {
    assert (steps + [step])[..|steps|] == steps;
  }

  lemma NextIsDestroy(s: Store, id: Uuid, known: bool, d: Dispatch, now: int)
    ensures Next(s, DoDestroy(id, known, d, now)) == Destroy(s, id, known, d, now).0
  {
  }

  /** The lab is stopped or on its way there, and no other lab or event list is changed. */
  ghost predicate StopsOnly(s: Store, t: Store, id: Uuid) {
    && t.labs.Keys == s.labs.Keys && t.events.Keys == s.events.Keys && id in s.labs
    && t.labs[id].state in {Stopping, Stopped} && t.labs[id].creator == s.labs[id].creator
    && (forall k | k in s.labs && k != id :: t.labs[k] == s.labs[k])
    && (forall k | k in s.events && k != id :: t.events[k] == s.events[k])
  }

  lemma DestroyStopsOnly(s: Store, id: Uuid, known: bool, d: Dispatch, now: int)
    requires id in s.labs && id in s.events && Active(s.labs[id])
    ensures Destroy(s, id, known, d, now).1 == Done
    ensures StopsOnly(s, Destroy(s, id, known, d, now).0, id)
  {
    hide DispatchJobs;
  }

  lemma OneLessActive(s: Store, t: Store, creator: nat, id: Uuid)
    requires StopsOnly(s, t, id)
    ensures ActiveLabs(t, creator) == ActiveLabs(s, creator) - {id}
  {
  }

  lemma StoppingPauses(before: Store, s: Store, t: Store, creator: nat, todo: set<Uuid>, id: Uuid)
    requires Paused(before, s, creator, todo) && StopsOnly(s, t, id)
    requires id in todo && todo <= ActiveLabs(before, creator)
    ensures Paused(before, t, creator, todo - {id})
  {
    OneLessActive(s, t, creator, id);
    hide ActiveLabs;
  }

  lemma DestroyPauses(before: Store, s: Store, creator: nat, todo: set<Uuid>, id: Uuid, known: bool, d: Dispatch,
                      now: int)
    requires LabsInOrder(s) && Paused(before, s, creator, todo) && id in todo && todo <= ActiveLabs(before, creator)
    ensures Destroy(s, id, known, d, now).1 == Done
    ensures Paused(before, Destroy(s, id, known, d, now).0, creator, todo - {id})
  {
    hide Destroy, LabsInOrder, StopsOnly;
    KnownAll(s, id);
    assert id in s.labs && Active(s.labs[id]);
    hide Paused;
    DestroyStopsOnly(s, id, known, d, now);
    StoppingPauses(before, s, Destroy(s, id, known, d, now).0, creator, todo, id);
  }

  lemma StuckUpdate(s: Store, id: Uuid, cutoff: int, now: int)
    requires id in s.labs && id in s.events && Stuck(s.labs[id], cutoff)
    ensures var t := LabLifecycle.UpdateState(s, id, StuckPush(s.labs[id]), now);
      && t.labs == s.labs[id := Unstuck(s.labs[id], cutoff, now)] && t.jobs == s.jobs
      && t.events == s.events[id := s.events[id] + AuditOfSweep(s.labs[id], cutoff)]
  {
  }

  lemma SweepStarts(s: Store, cutoff: int, now: int, todo: set<Uuid>)
    requires todo == set id | id in s.labs && Stuck(s.labs[id], cutoff)
    ensures Swept(s, s, cutoff, now, todo)
  {
    forall id | id in s.events
      ensures s.events[id]
           == s.events[id] + if id !in s.labs || id in todo then [] else AuditOfSweep(s.labs[id], cutoff)
    {
      assert s.events[id] + [] == s.events[id];
    }
  }

  lemma SweepEnds(before: Store, s: Store, cutoff: int, now: int)
    requires Swept(before, s, cutoff, now, {})
    ensures s.jobs == before.jobs && s.labs.Keys == before.labs.Keys && s.events.Keys == before.events.Keys
    ensures forall id | id in s.labs ::
              var l := before.labs[id];
              s.labs[id] == if l.state == Deploying && l.updatedAt < cutoff
                            then l.(state := Failed, error := Some(TIMED_OUT), updatedAt := now)
                            else if l.state == Stopping && l.updatedAt < cutoff
                            then l.(state := Stopped, error := None, stoppedAt := Some(now), updatedAt := now)
                            else l
    ensures forall id | id in s.events ::
              s.events[id]
              == before.events[id] + (if id !in s.labs then [] else AuditOfSweep(before.labs[id], cutoff))
  {
    hide AuditOfSweep;
  }

  lemma UnstickSweeps(before: Store, s: Store, cutoff: int, now: int, todo: set<Uuid>, id: Uuid)
    requires LabsInOrder(s) && Swept(before, s, cutoff, now, todo) && id in todo
    ensures id in s.labs && id in s.events && Stuck(s.labs[id], cutoff)
    ensures Swept(before, LabLifecycle.UpdateState(s, id, StuckPush(s.labs[id]), now), cutoff, now, todo - {id})
  {
    hide LabsInOrder, LabLifecycle.UpdateState, Unstuck, AuditOfSweep;
    KnownAll(s, id);
    StuckUpdate(s, id, cutoff, now);
    assert before.events[id] + [] == before.events[id];
  }

  lemma UnstickKeepsLabs(s: Store, cutoff: int, now: int, id: Uuid)
    requires LabsInOrder(s) && id in s.labs && Stuck(s.labs[id], cutoff)
    ensures LabsInOrder(LabLifecycle.UpdateState(s, id, StuckPush(s.labs[id]), now))
  {
    NextKeepsLabs(s, DoUnstick(id, cutoff, now));
  }
}
