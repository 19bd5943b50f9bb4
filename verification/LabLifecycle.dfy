/** The life of a lab: user calls on the platform, sweeps, and the status pushes of worker jobs
    that may arrive late and interleave (platform/internal/domain/lab/service.go,
    worker/internal/api/handlers.go). Each service call is one atomic step on the store. */
module LabLifecycle {
  import opened Text
  import Plan

  type Uuid = string

  datatype LabState = Scheduled | Deploying | Running | Stopping | Failed | Stopped

  datatype Lab = Lab(creator: nat, org: nat, state: LabState, worker: Option<nat>, clabName: Option<string>,
                     deployedAt: Option<int>, stoppedAt: Option<int>, error: Option<string>, updatedAt: int)

  datatype EventName = DeployStarted | DeployCompleted | DeployFailed | DestroyStarted | DestroyCompleted | StateChanged

  /** The free text of an event; `Change(a, b)` stands for "a -> b". */
  datatype Details = OnWorker(name: string) | Change(from: LabState, to: LabState) | Message(text: string) | Nothing

  datatype Event = Event(name: EventName, details: Details)

  /** A status push of a worker, or of the platform's own failed dispatch. */
  datatype Push = Push(state: LabState, error: Option<string>)

  /** What a job still has to push, in program order. */
  datatype Job = Job(lab: Uuid, pushes: seq<Push>)

  /** The database and the jobs in flight. A key of `events` is a lab id that was ever created. */
  datatype Store = Store(labs: map<Uuid, Lab>, events: map<Uuid, seq<Event>>, jobs: multiset<Job>)

  const EMPTY := Store(map[], map[], multiset{})

  predicate Active(l: Lab) {
    l.state == Running || l.state == Deploying
  }

  /** `GetRunningLabsByCreator` */
  function ActiveLabs(s: Store, creator: nat): set<Uuid> {
    set id | id in s.labs && s.labs[id].creator == creator && Active(s.labs[id])
  }

  // ----- Jobs -----

  datatype JobResult = Succeeds | Fails(message: string)

  /** The pushes of deployAsync and deployCloudAsync. */
  function DeployPushes(r: JobResult): seq<Push> {
    match r
    case Succeeds => [Push(Deploying, None), Push(Running, None)]
    case Fails(m) => [Push(Deploying, None), Push(Failed, Some(m))]
  }

  /** The pushes of destroyAsync and destroyCloudAsync, unless they only clean up. */
  function DestroyPushes(r: JobResult): seq<Push> {
    match r
    case Succeeds => [Push(Stopping, None), Push(Stopped, None)]
    case Fails(m) => [Push(Stopping, None), Push(Failed, Some(m))]
  }

  /** A dispatched request: the worker may have started its job, and the call may have
      returned an error, in any combination. */
  datatype Dispatch = Dispatch(job: Option<JobResult>, callError: Option<string>)

  function DispatchJobs(id: Uuid, pushes: JobResult -> seq<Push>, d: Dispatch): multiset<Job> {
    (if d.job.Some? then multiset{Job(id, pushes(d.job.value))} else multiset{}) +
    (if d.callError.Some? then multiset{Job(id, [Push(Failed, d.callError)])} else multiset{})
  }

  // ----- Service calls -----

  datatype Reply = Done | NotFound | WrongState | PlanLimit | NoWorker | NotPrepared | Exists

  function Saved(s: Store, id: Uuid, l: Lab, e: Event): Store
    requires id in s.events
  {
    s.(labs := s.labs[id := l], events := s.events[id := s.events[id] + [e]])
  }

  function ChangeEvent(before: LabState, after: LabState, error: Option<string>): Event {
    if after == Running then Event(DeployCompleted, Change(before, after))
    else if after == Failed && before == Deploying then
      Event(DeployFailed, if error.Some? then Message(error.value) else Change(before, after))
    else if after == Stopped then Event(DestroyCompleted, Change(before, after))
    else Event(StateChanged, Change(before, after))
  }

  /** Any status reported for a lab is taken over, whatever state the lab is in. */
  function UpdateState(s: Store, id: Uuid, p: Push, now: int): Store {
    if id !in s.labs || id !in s.events then s
    else
      var l := s.labs[id];
      var l' := l.(state := p.state, error := p.error, updatedAt := now,
                   stoppedAt := if p.state == Stopped then Some(now) else l.stoppedAt);
      Saved(s, id, l', ChangeEvent(l.state, p.state, p.error))
  }

  function Create(s: Store, id: Uuid, creator: nat, org: nat, now: int): (Store, Reply) {
    if id in s.events then (s, Exists)
    else
      var l := Lab(creator, org, Scheduled, None, None, None, None, None, now);
      (s.(labs := s.labs[id := l], events := s.events[id := []]), Done)
  }

  /** Renaming or rescheduling: of the modelled fields only the save time changes. */
  function Edit(s: Store, id: Uuid, now: int): (Store, Reply) {
    if id !in s.labs then (s, NotFound)
    else (s.(labs := s.labs[id := s.labs[id].(updatedAt := now)]), Done)
  }

  function Delete(s: Store, id: Uuid): (Store, Reply) {
    if id !in s.labs then (s, NotFound)
    else if Active(s.labs[id]) then (s, WrongState)
    else (s.(labs := s.labs - {id}), Done)
  }

  /** `lab-` and the first eight characters of the id. */
  function ClabName(id: Uuid): string {
    "lab-" + (if |id| <= 8 then id else id[..8])
  }

  datatype Picked = Picked(id: nat, name: string)

  /** `prepared` is false when loading the definition, the image overrides, the tier check or
      the bind files fail. */
  function Deploy(s: Store, id: Uuid, plan: string, picked: Option<Picked>, prepared: bool, d: Dispatch, now: int)
    : (Store, Reply)
  {
    if id !in s.labs || id !in s.events then (s, NotFound)
    else
      var l := s.labs[id];
      if l.state != Scheduled && l.state != Failed && l.state != Stopped then (s, WrongState)
      else if |ActiveLabs(s, l.creator)| >= Plan.Get(plan).maxConcurrentLabs > 0 then (s, PlanLimit)
      else if picked.None? then (s, NoWorker)
      else if !prepared then (s, NotPrepared)
      else
        var l' := l.(worker := Some(picked.value.id), state := Deploying, clabName := Some(ClabName(id)),
                     deployedAt := Some(now), error := None, updatedAt := now);
        var s' := Saved(s, id, l', Event(DeployStarted, OnWorker(picked.value.name)));
        (s'.(jobs := s'.jobs + DispatchJobs(id, DeployPushes, d)), Done)
  }

  /** `workerKnown` is false when the lab's worker record cannot be loaded. */
  function Destroy(s: Store, id: Uuid, workerKnown: bool, d: Dispatch, now: int): (Store, Reply) {
    if id !in s.labs || id !in s.events then (s, NotFound)
    else
      var l := s.labs[id];
      if l.state != Running && l.state != Deploying && l.state != Failed then (s, WrongState)
      else
        var s' := Saved(s, id, l.(state := Stopping, updatedAt := now), Event(DestroyStarted, Nothing));
        if l.worker.Some? && l.clabName.Some? && workerKnown
        then (s'.(jobs := s'.jobs + DispatchJobs(id, DestroyPushes, d)), Done)
        else (UpdateState(s', id, Push(Stopped, None), now), Done)
  }

  const TIMED_OUT := "Operation timed out — worker may have failed. Please retry."

  /** In a transitional state since before the cutoff. */
  predicate Stuck(l: Lab, cutoff: int) {
    (l.state == Deploying || l.state == Stopping) && l.updatedAt < cutoff
  }

  function StuckPush(l: Lab): Push {
    if l.state == Stopping then Push(Stopped, None) else Push(Failed, Some(TIMED_OUT))
  }

  /** One iteration of the sweep. */
  function Unstick(s: Store, id: Uuid, cutoff: int, now: int): Store {
    if id in s.labs && Stuck(s.labs[id], cutoff) then UpdateState(s, id, StuckPush(s.labs[id]), now) else s
  }

  /** The next push of a job reaches the platform, or is lost on the way. */
  function Deliver(s: Store, job: Job, lost: bool, now: int): Store {
    if job !in s.jobs || job.pushes == [] then s
    else
      var s' := s.(jobs := s.jobs - multiset{job} + multiset{Job(job.lab, job.pushes[1..])});
      if lost then s' else UpdateState(s', job.lab, job.pushes[0], now)
  }

  // ----- Runs -----

  datatype Step =
    | DoCreate(id: Uuid, creator: nat, org: nat, now: int)
    | DoEdit(id: Uuid, now: int)
    | DoDelete(id: Uuid)
    | DoDeploy(id: Uuid, plan: string, picked: Option<Picked>, prepared: bool, dispatch: Dispatch, now: int)
    | DoDestroy(id: Uuid, workerKnown: bool, dispatch: Dispatch, now: int)
    | DoUnstick(id: Uuid, cutoff: int, now: int)
    | DoDeliver(job: Job, lost: bool, now: int)

  function Next(s: Store, step: Step): Store {
    match step
    case DoCreate(id, creator, org, now) => Create(s, id, creator, org, now).0
    case DoEdit(id, now) => Edit(s, id, now).0
    case DoDelete(id) => Delete(s, id).0
    case DoDeploy(id, plan, picked, prepared, d, now) => Deploy(s, id, plan, picked, prepared, d, now).0
    case DoDestroy(id, workerKnown, d, now) => Destroy(s, id, workerKnown, d, now).0
    case DoUnstick(id, cutoff, now) => Unstick(s, id, cutoff, now)
    case DoDeliver(job, lost, now) => Deliver(s, job, lost, now)
  }

  function RunFrom(s: Store, steps: seq<Step>): Store
    decreases |steps|
  {
    if steps == [] then s else Next(RunFrom(s, steps[..|steps| - 1]), steps[|steps| - 1])
  }

  // ----- What every reachable store satisfies -----

  predicate LabInOrder(l: Lab) {
    && (l.state != Scheduled ==> l.worker.Some? && l.clabName.Some? && l.deployedAt.Some?)
    && (l.state == Stopped ==> l.stoppedAt.Some?)
    && (l.state == Failed ==> l.error.Some?)
    && (l.state != Failed && l.state != Stopping ==> l.error.None?)
  }

  predicate PushInOrder(p: Push) {
    p.state != Scheduled && (p.state == Failed <==> p.error.Some?)
  }

  /** A job pushes only proper states, and only to a lab that has been deployed. */
  predicate JobInOrder(s: Store, j: Job) {
    && (forall i | 0 <= i < |j.pushes| :: PushInOrder(j.pushes[i]))
    && j.lab in s.events
    && (j.lab in s.labs ==> s.labs[j.lab].state != Scheduled)
  }

  /** The state an event list leads to, starting from a scheduled lab. */
  function Replay(events: seq<Event>): LabState {
    if events == [] then Scheduled
    else
      var e := events[|events| - 1];
      match e.name
      case DeployStarted => Deploying
      case DeployCompleted => Running
      case DeployFailed => Failed
      case DestroyStarted => Stopping
      case DestroyCompleted => Stopped
      case StateChanged => if e.details.Change? then e.details.to else Replay(events[..|events| - 1])
  }

  /** Every "a -> b" entry starts at the state replayed so far and ends at the state replayed
      with it. */
  predicate ChangesFit(events: seq<Event>) {
    forall i | 0 <= i < |events| && events[i].details.Change? ::
      events[i].details.from == Replay(events[..i]) && events[i].details.to == Replay(events[..i + 1])
  }

  predicate LabsInOrder(s: Store) {
    && (forall id | id in s.labs :: id in s.events && LabInOrder(s.labs[id]))
    && (forall j | j in s.jobs :: JobInOrder(s, j))
  }

  predicate AuditInOrder(s: Store) {
    && (forall id | id in s.labs :: id in s.events && Replay(s.events[id]) == s.labs[id].state)
    && (forall id | id in s.events :: ChangesFit(s.events[id]))
  }
}
