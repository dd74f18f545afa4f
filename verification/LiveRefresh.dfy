/** The process-wide live-refresh slot of atlasquant_advanced_boot.py.

    `Slot` is the shared record; each of its methods is one section run under the
    module lock.  `State` adds the background jobs, and `Step` is one section taken by
    anybody, so a run of steps is one interleaving of the whole process. */
module LiveRefresh {
  import opened Wrappers
  import opened SourceRefresh

  datatype Package = Package(parts: map<Source, Data>, statusFonte: Data) {
    predicate Complete() {
      parts.Keys == SOURCES && forall s | s in parts :: parts[s] != map[]
    }
  }

  datatype Status = Idle | Running | Ready | Retained | Failed

  datatype Warm = Warm(
    status: Status,
    result: Option<Package>,
    error: string,
    finishedAt: string,
    sources: map<Source, Report>)
  {
    /** What a reader of the slot may always count on. */
    predicate Coherent() {
      && (result.Some? ==> result.value.Complete())
      && (status == Ready || status == Retained ==> result.Some?)
      && (status == Status.Failed ==> result.None?)
    }
  }

  const FRESH := Warm(Idle, None, "", "", map[])

  // ------------------------------------------------------------ locked sections

  /** The three parts read out of a published mapping; a missing part reads as empty. */
  function PackageOf(result: map<Source, Data>, statusFonte: Data): (package: Package)
    ensures package.Complete() <==> forall s | s in SOURCES :: s in result && result[s] != map[]
  {
    Package(map s | s in SOURCES :: if s in result then result[s] else map[], statusFonte)
  }

  function Published(w: Warm, result: map<Source, Data>, statusFonte: Data, stamp: string): Warm {
    var package := PackageOf(result, statusFonte);
    if package.Complete() then Warm(Ready, Some(package), "", stamp, map[]) else w
  }

  predicate Starts(w: Warm, force: bool) {
    w.status != Running && (w.status == Ready ==> force)
  }

  function Started(w: Warm, force: bool): Warm {
    if Starts(w, force) then w.(status := Running, error := "", sources := map[]) else w
  }

  function Sourced(w: Warm, outcome: Outcome): Warm {
    w.(sources := outcome.sources, error := "")
  }

  function GivenUp(w: Warm, outcome: Outcome, previous: Option<Package>): Warm {
    w.(sources := outcome.sources,
       error := if outcome.error == "" then "payload incompleto" else outcome.error,
       result := previous,
       status := if previous.Some? then Retained else Status.Failed)
  }

  class Slot {
    var status: Status
    var result: Option<Package>
    var error: string
    var finishedAt: string
    var sources: map<Source, Report>

    function View(): Warm
      reads this
    {
      Warm(status, result, error, finishedAt, sources)
    }

    constructor ()
      ensures View() == FRESH
    {
      status, result, error, finishedAt, sources := Idle, None, "", "", map[];
    }

    /** `publish_live_refresh`. */
    method Publish(value: map<Source, Data>, statusFonte: Data, stamp: string)
      modifies this
      ensures View() == Published(old(View()), value, statusFonte, stamp)
      ensures old(View()).Coherent() ==> View().Coherent()
    {
      var package := PackageOf(value, statusFonte);
      if !package.Complete() { return; }
      status := Ready;
      result := Some(package);
      error := "";
      sources := map[];
      finishedAt := stamp;
    }

    /** The locked section of `start_live_refresh`. */
    method Start(force: bool) returns (answer: Status, previous: Option<Package>)
      modifies this
      ensures View() == Started(old(View()), force)
      ensures answer == Running <==> (Starts(old(View()), force) || old(status) == Running)
      ensures previous == old(result)
      ensures old(View()).Coherent() ==> View().Coherent()
    {
      answer, previous := status, result;
      if status == Running { return; }
      if status == Ready && !force { return; }
      status := Running;
      error := "";
      sources := map[];
      answer := Running;
    }

    /** The job's last section after a publication. */
    method RecordSources(outcome: Outcome)
      modifies this
      ensures View() == Sourced(old(View()), outcome)
      ensures old(View()).Coherent() ==> View().Coherent()
    {
      sources := outcome.sources;
      error := "";
    }

    /** The job's last section after a collection that cannot be published. */
    method GiveUp(outcome: Outcome, previous: Option<Package>)
      modifies this
      ensures View() == GivenUp(old(View()), outcome, previous)
      ensures previous.Some? && previous.value.Complete() ==> View().Coherent()
      ensures previous.None? ==> View().Coherent()
    {
      sources := outcome.sources;
      error := if outcome.error == "" then "payload incompleto" else outcome.error;
      if previous.Some? {
        result := previous;
        status := Retained;
      } else {
        result := None;
        status := Status.Failed;
      }
    }

    /** `peek_live_refresh`. */
    method Peek() returns (seen: Warm)
      ensures seen == View()
    {
      seen := Warm(status, result, error, finishedAt, sources);
    }
  }

  // -------------------------------------------------------------- interleavings

  /** Where a background job is.  It is active until its publishing or giving-up
      section has run. */
  datatype Job =
    | Collecting(previous: Option<Package>)
    | Publishing(outcome: Outcome, previous: Option<Package>)
    | GivingUp(outcome: Outcome, previous: Option<Package>)
    | RecordingSources(outcome: Outcome)
  {
    predicate Active() { !RecordingSources? }
  }

  /** `last` remembers the last complete package published by anybody. */
  datatype State = State(warm: Warm, jobs: map<nat, Job>, next: nat, last: Option<Package>)

  const BOOT := State(FRESH, map[], 0, None)

  datatype Step =
    | OutsidePublish(value: map<Source, Data>, statusFonte: Data, stamp: string)
    | StartJob(force: bool)
    | Collected(id: nat, outcome: Outcome)
    | JobPublish(id: nat, statusFonte: Data, stamp: string)
    | JobGiveUp(id: nat)
    | JobRecordSources(id: nat)
    | PeekSlot

  ghost predicate Enabled(s: State, step: Step) {
    match step
    case OutsidePublish(_, _, _) => true
    case StartJob(_) => true
    case Collected(id, outcome) => id in s.jobs && s.jobs[id].Collecting? && outcome.Sound()
    case JobPublish(id, _, _) => id in s.jobs && s.jobs[id].Publishing?
    case JobGiveUp(id) => id in s.jobs && s.jobs[id].GivingUp?
    case JobRecordSources(id) => id in s.jobs && s.jobs[id].RecordingSources?
    case PeekSlot => true
  }

  function AfterPublish(last: Option<Package>, value: map<Source, Data>, statusFonte: Data): Option<Package> {
    var package := PackageOf(value, statusFonte);
    if package.Complete() then Some(package) else last
  }

  /** The mapping a job hands to `publish_live_refresh`. */
  function Payload(outcome: Outcome): map<Source, Data> {
    if outcome.payload.Some? then outcome.payload.value else map[]
  }

  function Next(s: State, step: Step): State
    requires Enabled(s, step)
  {
    match step
    case OutsidePublish(value, statusFonte, stamp) =>
      s.(warm := Published(s.warm, value, statusFonte, stamp), last := AfterPublish(s.last, value, statusFonte))
    case StartJob(force) =>
      if Starts(s.warm, force) then
        s.(warm := Started(s.warm, force), jobs := s.jobs[s.next := Collecting(s.warm.result)], next := s.next + 1)
      else s
    case Collected(id, outcome) =>
      var previous := s.jobs[id].previous;
      s.(jobs := s.jobs[id := if outcome.publishable then Publishing(outcome, previous) else GivingUp(outcome, previous)])
    case JobPublish(id, statusFonte, stamp) =>
      var outcome := s.jobs[id].outcome;
      s.(warm := Published(s.warm, Payload(outcome), statusFonte, stamp),
         jobs := s.jobs[id := RecordingSources(outcome)],
         last := AfterPublish(s.last, Payload(outcome), statusFonte))
    case JobGiveUp(id) =>
      s.(warm := GivenUp(s.warm, s.jobs[id].outcome, s.jobs[id].previous), jobs := s.jobs - {id})
    case JobRecordSources(id) =>
      s.(warm := Sourced(s.warm, s.jobs[id].outcome), jobs := s.jobs - {id})
    case PeekSlot => s
  }

  ghost predicate ValidRun(s: State, steps: seq<Step>)
    decreases |steps|
  {
    steps != [] ==> Enabled(s, steps[0]) && ValidRun(Next(s, steps[0]), steps[1..])
  }

  ghost function After(s: State, steps: seq<Step>): State
    requires ValidRun(s, steps)
    decreases |steps|
  {
    if steps == [] then s else After(Next(s, steps[0]), steps[1..])
  }

  function ActiveJobs(s: State): set<nat> {
    set id | id in s.jobs && s.jobs[id].Active()
  }

  // ---------------------------------------------- every interleaving whatsoever

  ghost predicate Safe(s: State) {
    && s.warm.Coherent()
    && (forall id | id in s.jobs :: id < s.next)
    && (forall id | id in s.jobs && s.jobs[id].Active() ::
          s.jobs[id].previous.Some? ==> s.jobs[id].previous.value.Complete())
    && (forall id | id in s.jobs && s.jobs[id].Publishing? :: PackageOf(Payload(s.jobs[id].outcome), map[]).Complete())
    && (s.warm.status == Running ==> ActiveJobs(s) != {})
  }

  lemma SafeStep(s: State, step: Step)
    requires Safe(s) && Enabled(s, step)
    ensures Safe(Next(s, step))
  {
    var t := Next(s, step);
    match step
    case OutsidePublish(_, _, _) =>
    case StartJob(force) =>
      if Starts(s.warm, force) { assert s.next in ActiveJobs(t); }
    case Collected(id, outcome) =>
      if t.warm.status == Running {
        var a :| a in ActiveJobs(s);
        assert a in ActiveJobs(t);
      }
    case JobPublish(id, _, _) =>
    case JobGiveUp(id) =>
    case JobRecordSources(id) =>
      if t.warm.status == Running {
        var a :| a in ActiveJobs(s);
        assert a in ActiveJobs(t);
      }
    case PeekSlot =>
  }

  /** In every interleaving of starts, publications, peeks and job sections, a stored
      package has its three non-empty parts, Ready and Retained imply a package, Failed
      implies none, and Running implies that some job has still to report: jobs that have
      all finished never leave the slot Running. */
  lemma {:induction false} EveryInterleavingIsSafe(s: State, steps: seq<Step>)
    requires Safe(s) && ValidRun(s, steps)
    ensures Safe(After(s, steps))
    decreases |steps|
  {
    if steps != [] {
      SafeStep(s, steps[0]);
      EveryInterleavingIsSafe(Next(s, steps[0]), steps[1..]);
    }
  }

  lemma SlotFromBoot(steps: seq<Step>)
    requires ValidRun(BOOT, steps)
    ensures After(BOOT, steps).warm.Coherent()
    ensures ActiveJobs(After(BOOT, steps)) == {} ==> After(BOOT, steps).warm.status != Running
  {
    EveryInterleavingIsSafe(BOOT, steps);
  }

  /** A publishable collection is never dropped by the guard of `publish_live_refresh`. */
  lemma PublishableIsStored(s: State, id: nat, statusFonte: Data, stamp: string)
    requires Safe(s) && Enabled(s, JobPublish(id, statusFonte, stamp))
    ensures Next(s, JobPublish(id, statusFonte, stamp)).warm.status == Ready
    ensures Next(s, JobPublish(id, statusFonte, stamp)).warm.result
         == Some(PackageOf(Payload(s.jobs[id].outcome), statusFonte))
  {
    var payload := Payload(s.jobs[id].outcome);
    assert PackageOf(payload, map[]).Complete();
    assert PackageOf(payload, statusFonte).Complete();
  }

  // ----------------------------------------------------------- disciplined runs

  /** Outside publications happen only while no job is active. */
  ghost predicate Disciplined(s: State, steps: seq<Step>)
    requires ValidRun(s, steps)
    decreases |steps|
  {
    steps != [] ==>
      && (steps[0].OutsidePublish? ==> ActiveJobs(s) == {})
      && Disciplined(Next(s, steps[0]), steps[1..])
  }

  ghost predicate InSync(s: State) {
    && Safe(s)
    && s.warm.result == s.last
    && |ActiveJobs(s)| <= 1
    && (s.warm.status == Running <==> ActiveJobs(s) != {})
    && (forall id | id in ActiveJobs(s) :: s.jobs[id].previous == s.last)
  }

  lemma OnlyJob(s: State, id: nat)
    requires |ActiveJobs(s)| <= 1 && id in ActiveJobs(s)
    ensures ActiveJobs(s) == {id}
  {
    var rest := ActiveJobs(s) - {id};
    assert ActiveJobs(s) == rest + {id};
    assert |rest| == 0;
  }

  /** A collection that ends, and the bookkeeping after a publication, activate nobody. */
  lemma SameActiveJobs(s: State, step: Step)
    requires Enabled(s, step) && (step.Collected? || step.JobRecordSources?)
    ensures ActiveJobs(Next(s, step)) == ActiveJobs(s)
  {
    var t := Next(s, step);
    forall id
      ensures id in ActiveJobs(t) <==> id in ActiveJobs(s)
    {
      if id != step.id { assert id in t.jobs <==> id in s.jobs; }
    }
  }

  lemma StartActivatesOne(s: State, force: bool)
    requires Starts(s.warm, force) && (forall id | id in s.jobs :: id < s.next)
    ensures ActiveJobs(Next(s, StartJob(force))) == ActiveJobs(s) + {s.next}
    ensures |ActiveJobs(Next(s, StartJob(force)))| == |ActiveJobs(s)| + 1
  {
    var t := Next(s, StartJob(force));
    assert s.next !in ActiveJobs(s);
    forall id
      ensures id in ActiveJobs(t) <==> id in ActiveJobs(s) + {s.next}
    {
      if id != s.next { assert id in t.jobs <==> id in s.jobs; }
    }
  }

  lemma InSyncStep(s: State, step: Step)
    requires InSync(s) && Enabled(s, step)
    requires step.OutsidePublish? ==> ActiveJobs(s) == {}
    ensures InSync(Next(s, step))
  {
    SafeStep(s, step);
    var t := Next(s, step);
    match step
    case OutsidePublish(_, _, _) => assert ActiveJobs(t) == {};
    case StartJob(force) =>
      if Starts(s.warm, force) { StartActivatesOne(s, force); }
    case Collected(id, outcome) =>
      SameActiveJobs(s, step);
    case JobPublish(id, statusFonte, stamp) =>
      PublishableIsStored(s, id, statusFonte, stamp);
      OnlyJob(s, id);
      assert ActiveJobs(t) == {};
    case JobGiveUp(id) =>
      OnlyJob(s, id);
      assert ActiveJobs(t) == {};
    case JobRecordSources(id) =>
      SameActiveJobs(s, step);
    case PeekSlot =>
  }

  /** In a disciplined run the stored package is always the last complete one that was
      published, at most one job is active, and Running means exactly that one is. */
  lemma {:induction false} DisciplinedRunKeepsLastGood(s: State, steps: seq<Step>)
    requires InSync(s) && ValidRun(s, steps) && Disciplined(s, steps)
    ensures InSync(After(s, steps))
    decreases |steps|
  {
    if steps != [] {
      InSyncStep(s, steps[0]);
      DisciplinedRunKeepsLastGood(Next(s, steps[0]), steps[1..]);
    }
  }

  lemma ConsRun(s: State, step: Step, rest: seq<Step>)
    requires Enabled(s, step) && ValidRun(Next(s, step), rest)
    ensures ValidRun(s, [step] + rest)
    ensures After(s, [step] + rest) == After(Next(s, step), rest)
  {
    assert ([step] + rest)[1..] == rest;
  }

  /** The discipline is needed: a complete package published from outside while some job
      is collecting or giving up can always be lost, because that job may still put back
      the package it saw when it started. */
  lemma OutsidePublishCanBeLost(s: State, id: nat, value: map<Source, Data>, statusFonte: Data, stamp: string)
    returns (steps: seq<Step>)
    requires id in s.jobs && (s.jobs[id].Collecting? || s.jobs[id].GivingUp?)
    requires PackageOf(value, statusFonte).Complete()
    requires s.jobs[id].previous != Some(PackageOf(value, statusFonte))
    ensures ValidRun(s, steps) && steps != [] && steps[0] == OutsidePublish(value, statusFonte, stamp)
    ensures After(s, steps).last == Some(PackageOf(value, statusFonte))
    ensures After(s, steps).warm.result == s.jobs[id].previous != After(s, steps).last
  {
    var publish := OutsidePublish(value, statusFonte, stamp);
    var bad := Outcome(false, None, map[], "fed: lenta (timeout)");
    var s1 := Next(s, publish);
    if s.jobs[id].GivingUp? {
      ConsRun(s1, JobGiveUp(id), []);
      ConsRun(s, publish, [JobGiveUp(id)] + []);
      steps := [publish] + ([JobGiveUp(id)] + []);
    } else {
      var s2 := Next(s1, Collected(id, bad));
      ConsRun(s2, JobGiveUp(id), []);
      ConsRun(s1, Collected(id, bad), [JobGiveUp(id)] + []);
      ConsRun(s, publish, [Collected(id, bad)] + ([JobGiveUp(id)] + []));
      steps := [publish] + ([Collected(id, bad)] + ([JobGiveUp(id)] + []));
    }
  }

  /** The shortest such run: a first refresh fails after a live read was published. */
  lemma FirstRefreshCanLoseAPublication() returns (steps: seq<Step>)
    ensures ValidRun(BOOT, steps)
    ensures After(BOOT, steps).last.Some? && After(BOOT, steps).warm.result.None?
  {
    var data: Data := map["k" := "v"];
    assert "k" in data;
    var value := map s | s in SOURCES :: data;
    assert PackageOf(value, map[]).Complete();
    var rest := OutsidePublishCanBeLost(Next(BOOT, StartJob(false)), 0, value, map[], "");
    ConsRun(BOOT, StartJob(false), rest);
    steps := [StartJob(false)] + rest;
  }
}
