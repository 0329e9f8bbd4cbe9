/** The scheduler, its probe goroutines and the exporter as one event system
    (internal/scheduler/scheduler.go, driven by the signal loop of cmd/agent/main.go).

    An event is one atomic step of the control goroutine (Start, Reload, Stop, which the signal loop
    serialises) or of one probe goroutine. With `late` false the system is the code as written, where
    Reload deletes a target's series right after cancelling its goroutine. With `late` true it is the
    variant that deletes them after the done-channel waits. */
module Scheduler {
  import opened Targets
  import opened Exporter
  import opened ProbeLoop
  import opened Configuration
  import opened Ordering

  type Gid = int

  /** The work of one Reload (or of Start): the new targets by name, the goroutines it keeps, and
      what is left to stop, to wait for, to delete and to start. `dirtyBefore` is bookkeeping. */
  datatype Job = Job(
    cfg: map<string, TargetConfig>, kept: map<string, Gid>,
    toStop: seq<TargetConfig>, waiting: set<Gid>, toDelete: seq<TargetConfig>, toStart: seq<TargetConfig>,
    dirtyBefore: set<string>)

  datatype Ctl =
    | Fresh
    | Cancelling(job: Job)                        // entry.cancel() of toStop[0] comes next
    | Deleting(target: TargetConfig, job: Job)    // DeleteTarget(target) comes next
    | Waiting(job: Job)                           // waiting for the done channels
    | LateDeleting(job: Job)                      // the variant's deletes
    | Starting(job: Job)                          // startTarget(toStart[0]) comes next
    | Idle(job: Job)                              // Start or Reload has returned
    | Halting                                     // Stop
    | Halted

  /** `live` maps a target name to the goroutine that was ensured under it and not deleted since;
      `dirty` collects the names under which a goroutine wrote without being live. */
  datatype State = State(
    tagKeys: seq<string>, store: Scrape,
    gs: map<Gid, Goroutine>, next: Gid, probes: map<string, Gid>, wg: int,
    ctl: Ctl, live: map<string, Gid>, dirty: set<string>)

  datatype Event =
    | Launch(cfg: Config)
    | BeginReload(cfg: Config, toStop: seq<TargetConfig>, toStart: seq<TargetConfig>)
    | CancelNext
    | DeleteNext
    | WaitDone
    | StartNext(delay: nat)
    | BeginStop
    | StopNext(name: string)
    | StopDone
    | Step(g: Gid, a: Action)

  ghost function Init(tagKeys: seq<string>): State {
    State(tagKeys, (k: Series) => None, map[], 0, map[], 0, Fresh, map[], {})
  }

  // ---------- diffing ----------

  function ByName(targets: seq<TargetConfig>): map<string, TargetConfig> {
    if targets == [] then map[]
    else ByName(targets[..|targets| - 1])[targets[|targets| - 1].name := targets[|targets| - 1]]
  }

  predicate MustStop(o: map<string, TargetConfig>, n: map<string, TargetConfig>, name: string) {
    name in o && (name !in n || !o[name].Equal(n[name]))
  }

  predicate MustStart(o: map<string, TargetConfig>, n: map<string, TargetConfig>, name: string) {
    name in n && (name !in o || !o[name].Equal(n[name]))
  }

  /** `list` holds, once each, the targets of `from` whose names are in `names`. */
  predicate Lists(list: seq<TargetConfig>, from: map<string, TargetConfig>, names: set<string>) {
    && UniqueNames(list)
    && (forall t <- list :: t.name in names && t.name in from && from[t.name] == t)
    && (forall n <- names :: n in NamesOf(list))
  }

  /** The names outside `todo` to stop, to start and to leave alone. */
  function StopSet(o: map<string, TargetConfig>, n: map<string, TargetConfig>, todo: set<string>): set<string> {
    set name | name in o && MustStop(o, n, name) && name !in todo
  }

  function StartSet(o: map<string, TargetConfig>, n: map<string, TargetConfig>, todo: set<string>): set<string> {
    set name | name in n && MustStart(o, n, name) && name !in todo
  }

  function SameSet(o: map<string, TargetConfig>, n: map<string, TargetConfig>, todo: set<string>): set<string> {
    set name | name in n && name in o && !MustStart(o, n, name) && name !in todo
  }

  predicate IsDiff(o: map<string, TargetConfig>, n: map<string, TargetConfig>, toStop: seq<TargetConfig>, toStart: seq<TargetConfig>) {
    Lists(toStop, o, StopSet(o, n, {})) && Lists(toStart, n, StartSet(o, n, {}))
  }

  lemma {:induction false} InByName(targets: seq<TargetConfig>, n: string)
    ensures n in ByName(targets) <==> n in NamesOf(targets)
    ensures n in ByName(targets) ==> ByName(targets)[n] in targets && ByName(targets)[n].name == n
    decreases |targets|
  {
    if targets != [] {
      var last := |targets| - 1;
      InByName(targets[..last], n);
      assert targets == targets[..last] + [targets[last]];
    }
  }

  lemma ListsAppend(list: seq<TargetConfig>, from: map<string, TargetConfig>, names: set<string>, n: string)
    requires Lists(list, from, names) && n !in names && n in from && from[n].name == n
    ensures Lists(list + [from[n]], from, names + {n})
  {
    var list' := list + [from[n]];
    forall m <- names + {n} ensures m in NamesOf(list') {
      if m == n {
        assert from[n] in list';
      } else {
        assert m in NamesOf(list);
        var t :| t in list && t.name == m;
        assert t in list';
      }
    }
  }

  method IndexByName(targets: seq<TargetConfig>) returns (m: map<string, TargetConfig>)
    ensures m == ByName(targets) && Keyed(m)
  {
    m := map[];
    for i := 0 to |targets|
      invariant m == ByName(targets[..i])
    {
      assert targets[..i + 1][..i] == targets[..i];
      m := m[targets[i].name := targets[i]];
    }
    assert targets[..|targets|] == targets;
    forall n <- m ensures m[n].name == n { InByName(targets, n); }
  }

  predicate Keyed(m: map<string, TargetConfig>) { forall n <- m :: m[n].name == n }

  /** diffTargets: the changed and removed targets to stop, the changed and new ones to start, and the
      ones present in both with equal configuration, each exactly once. */
  method DiffTargets(oldTargets: seq<TargetConfig>, newTargets: seq<TargetConfig>)
    returns (toStop: seq<TargetConfig>, toStart: seq<TargetConfig>, same: seq<TargetConfig>)
    ensures IsDiff(ByName(oldTargets), ByName(newTargets), toStop, toStart)
    ensures Lists(same, ByName(newTargets), SameSet(ByName(oldTargets), ByName(newTargets), {}))
  {
    var oldMap := IndexByName(oldTargets);
    var newMap := IndexByName(newTargets);
    var removed := RemovedTargets(oldMap, newMap);
    toStop, toStart, same := CompareTargets(oldMap, newMap, removed);
  }

  /** Targets in old but not in new. */
  method RemovedTargets(oldMap: map<string, TargetConfig>, newMap: map<string, TargetConfig>) returns (toStop: seq<TargetConfig>)
    requires Keyed(oldMap)
    ensures Lists(toStop, oldMap, StopSet(oldMap, newMap, newMap.Keys))
  {
    toStop := [];
    var todo := oldMap.Keys;
    while todo != {}
      invariant todo <= oldMap.Keys
      invariant Lists(toStop, oldMap, StopSet(oldMap, newMap, newMap.Keys + todo))
    {
      var name :| name in todo;
      if name !in newMap {
        SetsStep(oldMap, newMap, newMap.Keys + todo, name);
        ListsAppend(toStop, oldMap, StopSet(oldMap, newMap, newMap.Keys + todo), name);
        toStop := toStop + [oldMap[name]];
        assert newMap.Keys + todo - {name} == newMap.Keys + (todo - {name});
      } else {
        assert newMap.Keys + todo == newMap.Keys + (todo - {name});
      }
      todo := todo - {name};
    }
    assert newMap.Keys + {} == newMap.Keys;
  }

  /** Targets in new: started, restarted or left alone. */
  method CompareTargets(oldMap: map<string, TargetConfig>, newMap: map<string, TargetConfig>, removed: seq<TargetConfig>)
    returns (toStop: seq<TargetConfig>, toStart: seq<TargetConfig>, same: seq<TargetConfig>)
    requires Keyed(oldMap) && Keyed(newMap) && Lists(removed, oldMap, StopSet(oldMap, newMap, newMap.Keys))
    ensures Lists(toStop, oldMap, StopSet(oldMap, newMap, {}))
    ensures Lists(toStart, newMap, StartSet(oldMap, newMap, {}))
    ensures Lists(same, newMap, SameSet(oldMap, newMap, {}))
  {
    toStop, toStart, same := removed, [], [];
    var todo := newMap.Keys;
    while todo != {}
      invariant todo <= newMap.Keys
      invariant Lists(toStop, oldMap, StopSet(oldMap, newMap, todo))
      invariant Lists(toStart, newMap, StartSet(oldMap, newMap, todo))
      invariant Lists(same, newMap, SameSet(oldMap, newMap, todo))
    {
      var name :| name in todo;
      SetsStep(oldMap, newMap, todo, name);
      if name !in oldMap {
        ListsAppend(toStart, newMap, StartSet(oldMap, newMap, todo), name);
        toStart := toStart + [newMap[name]];
      } else if !oldMap[name].Equal(newMap[name]) {
        ListsAppend(toStop, oldMap, StopSet(oldMap, newMap, todo), name);
        ListsAppend(toStart, newMap, StartSet(oldMap, newMap, todo), name);
        toStop := toStop + [oldMap[name]];
        toStart := toStart + [newMap[name]];
      } else {
        ListsAppend(same, newMap, SameSet(oldMap, newMap, todo), name);
        same := same + [newMap[name]];
      }
      todo := todo - {name};
    }
  }

  lemma SetsStep(o: map<string, TargetConfig>, n: map<string, TargetConfig>, todo: set<string>, name: string)
    requires name in todo
    ensures StopSet(o, n, todo - {name}) == StopSet(o, n, todo) + (if MustStop(o, n, name) then {name} else {})
    ensures StartSet(o, n, todo - {name}) == StartSet(o, n, todo) + (if MustStart(o, n, name) then {name} else {})
    ensures SameSet(o, n, todo - {name}) == SameSet(o, n, todo) + (if name in n && name in o && !MustStart(o, n, name) then {name} else {})
  {
  }

  // ---------- events ----------

  /** A configuration that passed validation and the reload gate: its tag keys are the startup ones. */
  ghost predicate Admissible(tagKeys: seq<string>, c: Config) {
    Sound(c) && TagKeySet(c) == Elements(tagKeys)
  }

  function Running(s: State): map<string, TargetConfig> {
    map n | n in s.probes && s.probes[n] in s.gs :: s.gs[s.probes[n]].target
  }

  ghost predicate Enabled(s: State, e: Event) {
    match e
    case Launch(c) => s.ctl.Fresh? && Admissible(s.tagKeys, c)
    case BeginReload(c, toStop, toStart) =>
      s.ctl.Idle? && Admissible(s.tagKeys, c) && IsDiff(Running(s), ByName(c.targets), toStop, toStart)
    case CancelNext => s.ctl.Cancelling? && s.ctl.job.toStop != [] && s.ctl.job.toStop[0].name in s.probes
                       && s.probes[s.ctl.job.toStop[0].name] in s.gs
    case DeleteNext => s.ctl.Deleting? || (s.ctl.LateDeleting? && s.ctl.job.toDelete != [])
    case WaitDone => s.ctl.Waiting? && forall g <- s.ctl.job.waiting :: g in s.gs && !s.gs[g].Running()
    case StartNext(_) => s.ctl.Starting? && s.ctl.job.toStart != []
    case BeginStop => s.ctl.Idle?
    case StopNext(n) => s.ctl.Halting? && n in s.probes && s.probes[n] in s.gs
    case StopDone => s.ctl.Halting? && s.probes == map[] && s.wg == 0
    case Step(g, a) => g in s.gs && CanDo(s.gs[g], a)
  }

  function ToCancel(job: Job): Ctl { if job.toStop == [] then Waiting(job) else Cancelling(job) }

  function ToStart(job: Job): Ctl { if job.toStart == [] then Idle(job) else Starting(job) }

  function ToLateDelete(job: Job): Ctl { if job.toDelete == [] then ToStart(job) else LateDeleting(job) }

  function NewJob(s: State, c: Config, toStop: seq<TargetConfig>, toStart: seq<TargetConfig>): Job {
    Job(ByName(c.targets), map n | n in s.probes && n !in NamesOf(toStop) :: s.probes[n],
        toStop, {}, [], toStart, s.dirty)
  }

  function Labelled(s: State, t: TargetConfig): Labels { LabelsOf(s.tagKeys, t) }

  ghost function Apply(late: bool, s: State, e: Event): State
    requires Enabled(s, e)
  {
    match e
    case Launch(c) => s.(ctl := ToStart(NewJob(s, c, [], c.targets)))
    case BeginReload(c, toStop, toStart) => ApplyReload(s, c, toStop, toStart)
    case CancelNext => ApplyCancel(late, s)
    case DeleteNext => if s.ctl.Deleting? then ApplyEarlyDelete(s) else ApplyLateDelete(s)
    case WaitDone => s.(ctl := ToLateDelete(s.ctl.job))
    case StartNext(delay) => ApplyStart(s, delay)
    case BeginStop => s.(ctl := Halting)
    case StopNext(n) =>
      var g := s.probes[n];
      s.(gs := s.gs[g := Cancel(s.gs[g])], probes := s.probes - {n})
    case StopDone => s.(ctl := Halted)
    case Step(g, a) => ApplyStep(s, g, a)
  }

  function ApplyReload(s: State, c: Config, toStop: seq<TargetConfig>, toStart: seq<TargetConfig>): State {
    s.(ctl := ToCancel(NewJob(s, c, toStop, toStart)))
  }

  ghost function ApplyCancel(late: bool, s: State): State
    requires Enabled(s, CancelNext)
  {
    var job := s.ctl.job;
    var t := job.toStop[0];
    var g := s.probes[t.name];
    var job' := job.(toStop := job.toStop[1..], waiting := job.waiting + {g},
                     toDelete := if late then job.toDelete + [t] else job.toDelete);
    s.(gs := s.gs[g := Cancel(s.gs[g])], probes := s.probes - {t.name},
       ctl := if late then ToCancel(job') else Deleting(t, job'))
  }

  ghost function ApplyDelete(s: State, t: TargetConfig): State {
    s.(store := (k: Series) => AfterDelete(Labelled(s, t), t, k, s.store(k)), live := s.live - {t.name})
  }

  ghost function ApplyEarlyDelete(s: State): State
    requires s.ctl.Deleting?
  {
    ApplyDelete(s, s.ctl.target).(ctl := ToCancel(s.ctl.job))
  }

  ghost function ApplyLateDelete(s: State): State
    requires s.ctl.LateDeleting? && s.ctl.job.toDelete != []
  {
    var job := s.ctl.job;
    ApplyDelete(s, job.toDelete[0]).(ctl := ToLateDelete(job.(toDelete := job.toDelete[1..])))
  }

  /** startTarget: the probe entry, EnsureTarget, wg.Add and the new goroutine. */
  ghost function ApplyStart(s: State, delay: nat): State
    requires s.ctl.Starting? && s.ctl.job.toStart != []
  {
    var job := s.ctl.job;
    var t := job.toStart[0];
    s.(store := (k: Series) => AfterEnsure(Labelled(s, t), t, k, s.store(k)),
       gs := s.gs[s.next := Spawn(t, delay)], next := s.next + 1,
       probes := s.probes[t.name := s.next], wg := s.wg + 1,
       ctl := ToStart(job.(toStart := job.toStart[1..])),
       live := s.live[t.name := s.next])
  }

  predicate IsLive(s: State, g: Gid, t: TargetConfig) { t.name in s.live && s.live[t.name] == g }

  ghost function ApplyStep(s: State, g: Gid, a: Action): State
    requires g in s.gs && CanDo(s.gs[g], a)
  {
    var go := s.gs[g];
    var s' := s.(gs := s.gs[g := Do(go, a)], wg := if a == WaitGroupDone then s.wg - 1 else s.wg);
    if a == Record || a == CountSkip then
      s'.(store := Written(s, go, a), dirty := if IsLive(s, g, go.target) then s.dirty else s.dirty + {go.target.name})
    else s'
  }

  ghost function Written(s: State, go: Goroutine, a: Action): Scrape
    requires (a == Record || a == CountSkip) && CanDo(go, a)
  {
    var l := Labelled(s, go.target);
    if a == Record then (k: Series) => AfterRecord(l, go.target, go.pc.result, k, s.store(k))
    else (k: Series) => AfterIncr(l, go.target, k, s.store(k))
  }

  /** The event makes a goroutine write series of a target that was deleted under it. */
  predicate IsStaleWrite(s: State, e: Event) {
    e.Step? && (e.a == Record || e.a == CountSkip) && e.g in s.gs && !IsLive(s, e.g, s.gs[e.g].target)
  }

  // ---------- runs ----------

  /** The state after the events `es`, if each was enabled in its turn. */
  ghost function Run(late: bool, s: State, es: seq<Event>): Option<State> {
    if es == [] then Some(s) else
      var last := |es| - 1;
      var m := Run(late, s, es[..last]);
      if m.Some? && Enabled(m.value, es[last]) then Some(Apply(late, m.value, es[last])) else None
  }

  ghost predicate CanRun(late: bool, s: State, es: seq<Event>) { Run(late, s, es).Some? }

  ghost function AfterRun(late: bool, s: State, es: seq<Event>): State
    requires CanRun(late, s, es)
  {
    Run(late, s, es).value
  }

  lemma Snoc(late: bool, s: State, es: seq<Event>, e: Event)
    requires CanRun(late, s, es) && Enabled(AfterRun(late, s, es), e)
    ensures CanRun(late, s, es + [e]) && AfterRun(late, s, es + [e]) == Apply(late, AfterRun(late, s, es), e)
  {
    assert (es + [e])[..|es|] == es;
  }
}
