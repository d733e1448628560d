/** The polling hook (web/lib/useLivePoll.ts), as the steps of a component that mounts, changes
    endpoint, hides, shows and unmounts while requests come and go. A request that has been answered
    still has to be continued: answers queue up in order, as microtasks do, and an abort in between no
    longer stops them. */
module LivePoll {
  import opened Results

  datatype Status = InFlight | Aborted | Answered(ok: bool) | Finished

  /** A request remembers the effect run that sent it. */
  datatype Request = Request(run: nat, status: Status)

  /** One run of the effect: what it polls, and its own `cancelled` flag. */
  datatype EffectRun = EffectRun(endpoint: string, cancelled: bool)

  /** `data` and `error` name the request they came from; `None` is the server-rendered payload, or no
      error. */
  datatype State = State(
    data: Option<nat>, error: Option<nat>,
    requests: seq<Request>, queue: seq<nat>, runs: seq<EffectRun>,
    active: bool, visible: bool, timerRef: Option<nat>, abortRef: Option<nat>, firstRun: bool)

  function Mounted(visible: bool): State {
    State(None, None, [], [], [], false, visible, None, None, true)
  }

  datatype Step =
    | RunEffect(endpoint: string, enabled: bool)
    | Unmount
    | Tick
    | VisibilityChange(visible: bool)
    | Answer(request: nat, ok: bool)
    | Continue

  // ---- The pieces of the effect ----

  function AbortCurrent(s: State): State {
    if s.abortRef.Some? && s.abortRef.value < |s.requests| && s.requests[s.abortRef.value].status == InFlight
    then s.(requests := s.requests[s.abortRef.value := s.requests[s.abortRef.value].(status := Aborted)])
    else s
  }

  /** `fetchOnce`, up to its first `await`. */
  function Fetch(s: State, run: nat): State {
    var t := AbortCurrent(s);
    t.(requests := t.requests + [Request(run, InFlight)], abortRef := Some(|t.requests|))
  }

  function StartTimer(s: State, run: nat): State {
    if s.timerRef.Some? then s else s.(timerRef := Some(run))
  }

  function StopTimer(s: State): State {
    s.(timerRef := None)
  }

  /** The cleanup React calls before the next run and on unmount; a disabled run has none. */
  function Cleanup(s: State): State {
    if !s.active || s.runs == [] then s
    else
      var n := |s.runs| - 1;
      AbortCurrent(StopTimer(s.(runs := s.runs[n := s.runs[n].(cancelled := true)], active := false)))
  }

  /** The body of the effect. A disabled run returns before anything, the first-run flag included. */
  function Begin(s: State, endpoint: string, enabled: bool): State {
    if !enabled then s
    else
      var run := |s.runs|;
      var t := s.(runs := s.runs + [EffectRun(endpoint, false)], active := true);
      var u := if !t.visible then t else StartTimer(if t.firstRun then t else Fetch(t, run), run);
      u.(firstRun := false)
  }

  function OnVisibility(s: State): State
    requires s.active ==> s.runs != []
  {
    if !s.active then s
    else if !s.visible then AbortCurrent(StopTimer(s))
    else StartTimer(Fetch(s, |s.runs| - 1), |s.runs| - 1)
  }

  /** What runs when the awaited answer of a request is continued. */
  function Resume(s: State, r: nat): State
    requires r < |s.requests| && s.requests[r].status.Answered? && s.requests[r].run < |s.runs|
  {
    var t := s.(requests := s.requests[r := s.requests[r].(status := Finished)]);
    if s.runs[s.requests[r].run].cancelled then t
    else if s.requests[r].status.ok then t.(data := Some(r), error := None)
    else t.(error := Some(r))
  }

  // ---- The steps ----

  predicate Enabled(s: State, step: Step) {
    match step
    case RunEffect(_, _) => s.active ==> s.runs != []
    case Unmount => true
    case Tick => s.timerRef.Some? && s.timerRef.value < |s.runs|
    case VisibilityChange(_) => s.active ==> s.runs != []
    case Answer(r, _) => r < |s.requests| && s.requests[r].status == InFlight
    case Continue =>
      && s.queue != [] && s.queue[0] < |s.requests|
      && s.requests[s.queue[0]].status.Answered? && s.requests[s.queue[0]].run < |s.runs|
  }

  function After(s: State, step: Step): State
    requires Enabled(s, step)
  {
    match step
    case RunEffect(endpoint, enabled) => Begin(Cleanup(s), endpoint, enabled)
    case Unmount => Cleanup(s)
    case Tick => Fetch(s, s.timerRef.value)
    case VisibilityChange(visible) => OnVisibility(s.(visible := visible))
    case Answer(r, ok) =>
      s.(requests := s.requests[r := s.requests[r].(status := Answered(ok))], queue := s.queue + [r])
    case Continue => Resume(s, s.queue[0]).(queue := s.queue[1..])
  }

  predicate CanRun(s: State, steps: seq<Step>)
    decreases |steps|
  {
    steps == [] || (Enabled(s, steps[0]) && CanRun(After(s, steps[0]), steps[1..]))
  }

  function Run(s: State, steps: seq<Step>): State
    requires CanRun(s, steps)
    decreases |steps|
  {
    if steps == [] then s else Run(After(s, steps[0]), steps[1..])
  }

  // ---- What every run keeps ----

  predicate Outstanding(s: State, r: nat) {
    r < |s.requests| && s.requests[r].status == InFlight
  }

  ghost predicate Sound(s: State) {
    && (s.active ==> s.runs != [])
    && (forall i :: 0 <= i < |s.runs| ==> (!s.runs[i].cancelled <==> s.active && i == |s.runs| - 1))
    && (s.timerRef.Some? <==> s.active && s.visible)
    && (s.timerRef.Some? ==> s.timerRef.value == |s.runs| - 1)
    && (forall r :: 0 <= r < |s.requests| ==> s.requests[r].run < |s.runs|)
    && (forall r :: Outstanding(s, r) ==> r == |s.requests| - 1 && s.abortRef == Some(r) && s.active && s.visible)
    && (s.abortRef.Some? ==> s.abortRef.value == |s.requests| - 1)
    && (s.abortRef.None? ==> s.requests == [])
    && (forall i :: 0 <= i < |s.queue| ==> s.queue[i] < |s.requests| && s.requests[s.queue[i]].status.Answered?)
    && (forall i, j :: 0 <= i < j < |s.queue| ==> s.queue[i] < s.queue[j])
    && (forall r :: 0 <= r < |s.requests| && s.requests[r].status.Answered? ==> r in s.queue)
    && (s.data.Some? ==> s.data.value < |s.requests| && s.requests[s.data.value].status == Finished)
    && (forall i :: 0 <= i < |s.queue| && s.data.Some? ==> s.data.value < s.queue[i])
    && (forall r :: Outstanding(s, r) && s.data.Some? ==> s.data.value < r)
  }

  /** After aborting, nothing is outstanding, and nothing else has changed. */
  lemma {:induction false} NothingOutstanding(s: State)
    requires Sound(s)
    ensures var t := AbortCurrent(s);
      && t == s.(requests := t.requests) && |t.requests| == |s.requests|
      && (forall r :: !Outstanding(t, r))
      && (forall r :: 0 <= r < |s.requests| ==> t.requests[r].run == s.requests[r].run)
      && (forall r :: 0 <= r < |s.requests| && s.requests[r].status != InFlight ==> t.requests[r] == s.requests[r])
      && (forall r :: 0 <= r < |s.requests| && t.requests[r].status.Answered? ==> t.requests[r] == s.requests[r])
  {
    forall r | 0 <= r < |s.requests| && s.requests[r].status == InFlight ensures s.abortRef == Some(r) {
      assert Outstanding(s, r);
    }
  }

  lemma {:induction false} FetchKeepsSound(s: State)
    requires Sound(s) && s.active && s.visible
    ensures Sound(Fetch(s, |s.runs| - 1))
  {
    NothingOutstanding(s);
    var t, u := AbortCurrent(s), Fetch(s, |s.runs| - 1);
    hide AbortCurrent;
    forall r: nat | Outstanding(u, r) ensures r == |u.requests| - 1 {
      assert r < |s.requests| ==> !Outstanding(t, r);
    }
  }

  lemma {:induction false} CleanupKeepsSound(s: State)
    requires Sound(s)
    ensures var t := Cleanup(s);
      && Sound(t) && !t.active && t.data == s.data && t.error == s.error && t.queue == s.queue
      && t.firstRun == s.firstRun && t.visible == s.visible && |t.runs| == |s.runs| && |t.requests| == |s.requests|
  {
    if s.active {
      var n := |s.runs| - 1;
      NothingOutstanding(s);
      var t := AbortCurrent(s);
      assert Cleanup(s) == t.(timerRef := None, runs := s.runs[n := s.runs[n].(cancelled := true)], active := false);
      hide AbortCurrent;
      forall r ensures !Outstanding(Cleanup(s), r) {
        assert !Outstanding(t, r);
      }
    }
  }

  function Started(s: State, endpoint: string): State {
    s.(runs := s.runs + [EffectRun(endpoint, false)], active := true,
       timerRef := if s.visible then Some(|s.runs|) else None)
  }

  lemma {:induction false} StartedIsSound(s: State, endpoint: string)
    requires Sound(s) && !s.active
    ensures Sound(Started(s, endpoint))
  {
    assert forall r :: Outstanding(Started(s, endpoint), r) ==> Outstanding(s, r);
  }

  lemma {:induction false} FirstRunIsApart(s: State)
    requires Sound(s)
    ensures Sound(s.(firstRun := false))
  {
    assert forall r :: Outstanding(s.(firstRun := false), r) ==> Outstanding(s, r);
  }

  lemma {:induction false} BeginIs(s: State, endpoint: string)
    requires s.timerRef == None
    ensures var t := Started(s, endpoint);
      Begin(s, endpoint, true) == (if s.visible && !s.firstRun then Fetch(t, |s.runs|) else t).(firstRun := false)
  {
    FetchIgnoresTimer(s.(runs := s.runs + [EffectRun(endpoint, false)], active := true), |s.runs|);
    hide Fetch;
  }

  lemma {:induction false} NoTimerWhenInactive(s: State)
    requires Sound(s) && !s.active
    ensures s.timerRef == None
  {
  }

  lemma {:induction false} BeginKeepsSound(s: State, endpoint: string, enabled: bool)
    requires Sound(s) && !s.active
    ensures Sound(Begin(s, endpoint, enabled))
  {
    hide Sound, Fetch;
    if enabled {
      NoTimerWhenInactive(s);
      BeginIs(s, endpoint);
      StartedIsSound(s, endpoint);
      FirstRunIsApart(Started(s, endpoint));
      if s.visible && !s.firstRun {
        FetchKeepsSound(Started(s, endpoint));
        FirstRunIsApart(Fetch(Started(s, endpoint), |s.runs|));
      }
    }
  }

  lemma {:induction false} FetchIgnoresTimer(s: State, run: nat)
    ensures Fetch(s.(timerRef := Some(run)), run) == Fetch(s, run).(timerRef := Some(run))
    ensures Fetch(s, run).timerRef == s.timerRef
  {
  }

  lemma {:induction false} InactiveIsSound(s: State, visible: bool)
    requires Sound(s) && !s.active
    ensures Sound(s.(visible := visible))
  {
    assert forall r :: Outstanding(s.(visible := visible), r) ==> Outstanding(s, r);
  }

  lemma {:induction false} TimerIsCurrent(s: State)
    requires Sound(s) && s.active
    ensures s.runs != [] && (s.timerRef == None || s.timerRef == Some(|s.runs| - 1))
  {
  }

  lemma {:induction false} ShowingKeepsSound(s: State)
    requires Sound(s) && s.active
    ensures Sound(OnVisibility(s.(visible := true)))
  {
    hide Sound, Fetch;
    var t, n := s.(visible := true), |s.runs| - 1;
    TimerIsCurrent(s);
    ShownIsSound(s);
    FetchKeepsSound(t.(timerRef := Some(n)));
    FetchIgnoresTimer(t, n);
    assert OnVisibility(t) == Fetch(t.(timerRef := Some(n)), n);
  }

  lemma {:induction false} VisibilityKeepsSound(s: State, visible: bool)
    requires Sound(s)
    ensures Sound(OnVisibility(s.(visible := visible)))
  {
    assert s.active ==> s.runs != [];
    hide Sound;
    if !s.active {
      InactiveIsSound(s, visible);
    } else if visible {
      ShowingKeepsSound(s);
    } else {
      HiddenIsSound(s);
    }
  }

  lemma {:induction false} ShownIsSound(s: State)
    requires Sound(s) && s.active
    ensures Sound(s.(visible := true, timerRef := Some(|s.runs| - 1)))
  {
    var t := s.(visible := true, timerRef := Some(|s.runs| - 1));
    assert forall r :: Outstanding(t, r) ==> Outstanding(s, r);
  }

  lemma {:induction false} HiddenIsSound(s: State)
    requires Sound(s) && s.active
    ensures Sound(OnVisibility(s.(visible := false)))
  {
    NothingOutstanding(s);
    var t := AbortCurrent(s);
    assert OnVisibility(s.(visible := false)) == t.(visible := false, timerRef := None);
    hide AbortCurrent;
    forall r ensures !Outstanding(OnVisibility(s.(visible := false)), r) {
      assert !Outstanding(t, r);
    }
  }

  lemma {:induction false} QueueGrows(s: State, t: State, r: nat)
    requires Sound(s) && r < |s.requests| && s.requests[r].status == InFlight && |t.requests| == |s.requests|
    requires t.requests[r].status.Answered? && t.queue == s.queue + [r]
    requires forall q :: 0 <= q < |s.requests| && q != r ==> t.requests[q] == s.requests[q]
    ensures forall q :: 0 <= q < |t.requests| && t.requests[q].status.Answered? ==> q in t.queue
    ensures forall i :: 0 <= i < |t.queue| ==> t.queue[i] < |t.requests| && t.requests[t.queue[i]].status.Answered?
    ensures forall i, j :: 0 <= i < j < |t.queue| ==> t.queue[i] < t.queue[j]
  {
    assert Outstanding(s, r);
    assert t.queue[|s.queue|] == r;
    forall q | 0 <= q < |t.requests| && t.requests[q].status.Answered? ensures q in t.queue {
      assert q != r ==> q in s.queue;
    }
  }

  lemma {:induction false} AnswerKeepsSound(s: State, r: nat, ok: bool)
    requires Sound(s) && Enabled(s, Answer(r, ok))
    ensures Sound(After(s, Answer(r, ok)))
  {
    var t := After(s, Answer(r, ok));
    assert Outstanding(s, r);
    QueueGrows(s, t, r);
    forall q | Outstanding(t, q) ensures Outstanding(s, q) && q != r {
    }
  }

  lemma {:induction false} ContinueIs(s: State)
    requires Enabled(s, Continue)
    ensures var t, r := After(s, Continue), s.queue[0];
      && t == s.(requests := s.requests[r := s.requests[r].(status := Finished)], queue := s.queue[1..], data :=
           t.data, error := t.error)
      && (t.data == s.data || t.data == Some(r))
  {
  }

  lemma {:induction false} ContinueKeepsSound(s: State)
    requires Sound(s) && Enabled(s, Continue)
    ensures Sound(After(s, Continue))
  {
    ContinueIs(s);
    var t, r := After(s, Continue), s.queue[0];
    assert r < |s.requests| && s.requests[r].status.Answered?;
    hide After, Enabled;
    forall q: nat | Outstanding(t, q) ensures Outstanding(s, q) && q > r {
      assert Outstanding(s, q);
    }
    forall q | 0 <= q < |t.requests| && t.requests[q].status.Answered? ensures q in t.queue {
      StillQueued(s, q);
    }
  }

  lemma {:induction false} StillQueued(s: State, q: nat)
    requires Sound(s) && s.queue != [] && q < |s.requests| && s.requests[q].status.Answered? && q != s.queue[0]
    ensures q in s.queue[1..]
  {
    assert q in s.queue;
    var i :| 0 <= i < |s.queue| && s.queue[i] == q;
    assert s.queue[1..][i - 1] == q;
  }

  lemma {:induction false} StepKeepsSound(s: State, step: Step)
    requires Sound(s) && Enabled(s, step)
    ensures Sound(After(s, step))
  {
    hide Sound, Fetch, AbortCurrent, Cleanup, Begin, OnVisibility, Resume;
    match step
    case RunEffect(endpoint, enabled) =>
      CleanupKeepsSound(s);
      BeginKeepsSound(Cleanup(s), endpoint, enabled);
    case Unmount => CleanupKeepsSound(s);
    case Tick =>
      TimerIsLive(s);
      FetchKeepsSound(s);
    case VisibilityChange(visible) => VisibilityKeepsSound(s, visible);
    case Answer(r, ok) => AnswerKeepsSound(s, r, ok);
    case Continue => ContinueKeepsSound(s);
  }

  lemma {:induction false} TimerIsLive(s: State)
    requires Sound(s) && s.timerRef.Some?
    ensures s.active && s.visible && s.timerRef.value == |s.runs| - 1
  {
  }

  lemma {:induction false} RunKeepsSound(s: State, steps: seq<Step>)
    requires Sound(s) && CanRun(s, steps)
    ensures Sound(Run(s, steps))
    decreases |steps|
  {
    hide Sound, Enabled, After;
    if steps != [] {
      StepKeepsSound(s, steps[0]);
      RunKeepsSound(After(s, steps[0]), steps[1..]);
    }
  }

  /** The guards exclude nothing: in every state a run can reach, React may run the effect or unmount,
      the tab may hide or show, a set timer may fire, and a queued answer may be continued. */
  lemma {:induction false} GuardsExcludeNothing(visible: bool, steps: seq<Step>)
    requires CanRun(Mounted(visible), steps)
    ensures var s := Run(Mounted(visible), steps);
      && (forall endpoint, on :: Enabled(s, RunEffect(endpoint, on))) && Enabled(s, Unmount)
      && (forall v :: Enabled(s, VisibilityChange(v)))
      && (Enabled(s, Tick) <==> s.timerRef.Some?) && (Enabled(s, Continue) <==> s.queue != [])
  {
    hide Run, CanRun;
    MountedIsSound(visible);
    RunKeepsSound(Mounted(visible), steps);
  }

  // ---- What the user sees ----

  lemma {:induction false} MountedIsSound(visible: bool)
    ensures Sound(Mounted(visible))
  {
  }

  /** In every run: at most one request is outstanding, it is the newest and belongs to the current
      effect run, and only a visible, polling tab has one; and the timer exists exactly while the
      enabled hook is mounted and visible. */
  lemma {:induction false} OneRequestOneTimer(visible: bool, steps: seq<Step>)
    requires CanRun(Mounted(visible), steps)
    ensures var s := Run(Mounted(visible), steps);
      && (forall q, r :: Outstanding(s, q) && Outstanding(s, r) ==> q == r)
      && (forall r :: Outstanding(s, r) ==> s.active && s.visible && r == |s.requests| - 1)
      && (s.timerRef.Some? <==> s.active && s.visible)
  {
    hide Run, CanRun;
    MountedIsSound(visible);
    RunKeepsSound(Mounted(visible), steps);
    var s := Run(Mounted(visible), steps);
    forall q, r | Outstanding(s, q) && Outstanding(s, r) ensures q == r {
    }
  }

  /** The request was sent by the effect run that is current now. */
  predicate IsCurrent(s: State, r: nat) {
    s.active && r < |s.requests| && s.requests[r].run == |s.runs| - 1
  }

  /** The shown data changes exactly when a successful answer is continued whose effect run is still the
      current one, and then to that answer, later than what it replaces. Errors, aborts, ticks, hiding,
      showing, endpoint changes and unmounting never touch the data. */
  lemma {:induction false} DataOnlyMovesForward(s: State, step: Step)
    requires Sound(s) && Enabled(s, step)
    ensures var t := After(s, step);
      && (t.data != s.data <==>
           step == Continue && IsCurrent(s, s.queue[0]) && s.requests[s.queue[0]].status == Answered(true))
      && (t.data != s.data ==>
           t.data == Some(s.queue[0]) && t.error == None && (s.data.Some? ==> s.data.value < s.queue[0]))
  {
    match step
    case RunEffect(endpoint, enabled) => CleanupKeepsSound(s); BeginKeepsData(Cleanup(s), endpoint, enabled);
    case Unmount => CleanupKeepsSound(s);
    case Tick =>
    case VisibilityChange(visible) =>
    case Answer(r, ok) =>
    case Continue =>
      assert s.requests[s.queue[0]].run < |s.runs|;
  }

  /** The error shown after any step: a failure of the current run sets it, a success of the current run
      clears it, and nothing else touches it. */
  lemma {:induction false} ErrorIsCurrent(s: State, step: Step)
    requires Sound(s) && Enabled(s, step)
    ensures After(s, step).error ==
      if step == Continue && IsCurrent(s, s.queue[0]) then
        if s.requests[s.queue[0]].status == Answered(true) then None else Some(s.queue[0])
      else s.error
  {
    match step
    case RunEffect(endpoint, enabled) => CleanupKeepsSound(s); BeginKeepsData(Cleanup(s), endpoint, enabled);
    case Unmount => CleanupKeepsSound(s);
    case Tick =>
    case VisibilityChange(visible) =>
    case Answer(r, ok) =>
    case Continue =>
      assert s.requests[s.queue[0]].run < |s.runs|;
  }

  /** The steps that send a request: a tick, a return to view, and an effect run after the first. */
  predicate Asks(s: State, step: Step) {
    match step
    case Tick => true
    case VisibilityChange(visible) => visible && s.active
    case RunEffect(_, enabled) => enabled && s.visible && !s.firstRun
    case _ => false
  }

  /** A step that asks sends exactly one request, for the run that is current after it, and that request
      is the only one outstanding. Any other step sends none; of those only an answer still waited for or
      a continuation leaves a request in flight. */
  lemma {:induction false} AsksExactly(s: State, step: Step)
    requires Sound(s) && Enabled(s, step)
    ensures var t := After(s, step);
      && |t.requests| == |s.requests| + (if Asks(s, step) then 1 else 0)
      && (Asks(s, step) ==> IsCurrent(t, |s.requests|) && forall r :: Outstanding(t, r) <==> r == |s.requests|)
      && (!Asks(s, step) ==> forall r :: Outstanding(t, r) <==>
           Outstanding(s, r) && (step == Continue || (step.Answer? && step.request != r)))
  {
    match step
    case RunEffect(endpoint, enabled) => EffectAsks(s, endpoint, enabled);
    case Unmount => CleanupSilences(s);
    case Tick => FetchAsks(s, s.timerRef.value);
    case VisibilityChange(visible) =>
      if s.active && visible {
        ShowingAsks(s);
      } else if s.active {
        NothingOutstanding(s);
        forall r ensures !Outstanding(After(s, step), r) {
          assert !Outstanding(AbortCurrent(s), r);
        }
      }
    case Answer(r, ok) =>
    case Continue => ContinueIs(s);
  }

  lemma {:induction false} FetchAsks(s: State, run: nat)
    requires forall r: nat :: Outstanding(s, r) ==> s.abortRef == Some(r)
    ensures var t := Fetch(s, run);
      && |t.requests| == |s.requests| + 1 && t.requests[|s.requests|] == Request(run, InFlight)
      && t.runs == s.runs && t.active == s.active
      && forall r :: Outstanding(t, r) <==> r == |s.requests|
  {
    forall r: nat | Outstanding(Fetch(s, run), r) ensures r == |s.requests| {
      assert r < |s.requests| && s.requests[r].status == InFlight ==> Outstanding(s, r);
    }
  }

  lemma {:induction false} ShowingAsks(s: State)
    requires Sound(s) && s.active
    ensures var t := OnVisibility(s.(visible := true));
      && |t.requests| == |s.requests| + 1 && IsCurrent(t, |s.requests|)
      && forall r :: Outstanding(t, r) <==> r == |s.requests|
  {
    var v, n := s.(visible := true), |s.runs| - 1;
    forall r: nat | Outstanding(v, r) ensures v.abortRef == Some(r) {
      assert Outstanding(s, r);
    }
    FetchAsks(v, n);
    hide Sound, Fetch;
    var t := OnVisibility(v);
    assert t.requests == Fetch(v, n).requests;
    forall r: nat ensures Outstanding(t, r) <==> r == |s.requests| {
      assert Outstanding(t, r) <==> Outstanding(Fetch(v, n), r);
    }
  }

  lemma {:induction false} CleanupSilences(s: State)
    requires Sound(s)
    ensures |Cleanup(s).requests| == |s.requests| && forall r :: !Outstanding(Cleanup(s), r)
  {
    CleanupKeepsSound(s);
    hide Cleanup;
    assert forall r :: Outstanding(Cleanup(s), r) ==> Cleanup(s).active;
  }

  lemma {:induction false} EffectAsks(s: State, endpoint: string, enabled: bool)
    requires Sound(s)
    ensures var t := Begin(Cleanup(s), endpoint, enabled);
      var asks := enabled && s.visible && !s.firstRun;
      && |t.requests| == |s.requests| + (if asks then 1 else 0)
      && (asks ==> IsCurrent(t, |s.requests|))
      && forall r :: Outstanding(t, r) <==> asks && r == |s.requests|
  {
    CleanupSilences(s);
    CleanupKeepsSound(s);
    var c := Cleanup(s);
    hide Cleanup, Sound;
    var u := c.(runs := c.runs + [EffectRun(endpoint, false)], active := true);
    assert forall r :: Outstanding(u, r) ==> Outstanding(c, r);
    FetchAsks(u, |c.runs|);
    hide Fetch;
    var t := Begin(c, endpoint, enabled);
    assert forall r :: Outstanding(t, r) ==>
      if enabled && c.visible && !c.firstRun then Outstanding(Fetch(u, |c.runs|), r) else Outstanding(c, r);
  }

  lemma {:induction false} BeginKeepsData(s: State, endpoint: string, enabled: bool)
    ensures Begin(s, endpoint, enabled).data == s.data && Begin(s, endpoint, enabled).error == s.error
  {
  }

  /** The shown data, request number by request number, never goes back over a whole run. */
  lemma {:induction false} DataNeverGoesBack(s: State, steps: seq<Step>)
    requires Sound(s) && CanRun(s, steps) && s.data.Some?
    ensures Run(s, steps).data.Some? && Run(s, steps).data.value >= s.data.value
    decreases |steps|
  {
    hide Sound, Enabled, After;
    if steps != [] {
      StepKeepsSound(s, steps[0]);
      DataOnlyMovesForward(s, steps[0]);
      DataNeverGoesBack(After(s, steps[0]), steps[1..]);
    }
  }

  // ---- Endpoints and unmounting ----

  /** Every request numbered below `bound` was sent by a run that has since been cancelled. */
  ghost predicate Stale(s: State, bound: nat) {
    bound <= |s.requests| && forall r :: 0 <= r < bound ==>
      s.requests[r].run < |s.runs| && s.runs[s.requests[r].run].cancelled
  }

  lemma {:induction false} FetchKeepsOld(s: State, run: nat)
    ensures var t := Fetch(s, run);
      && t.runs == s.runs && |t.requests| == |s.requests| + 1 && t.data == s.data && t.error == s.error
      && forall r :: 0 <= r < |s.requests| ==> t.requests[r].run == s.requests[r].run
  {
  }

  lemma {:induction false} CleanupKeepsOld(s: State)
    ensures var t := Cleanup(s);
      && |t.runs| == |s.runs| && |t.requests| == |s.requests| && t.data == s.data && t.error == s.error
      && (forall i :: 0 <= i < |s.runs| && s.runs[i].cancelled ==> t.runs[i].cancelled)
      && (forall r :: 0 <= r < |s.requests| ==> t.requests[r].run == s.requests[r].run)
  {
  }

  lemma {:induction false} BeginKeepsOld(s: State, endpoint: string, enabled: bool)
    ensures var t := Begin(s, endpoint, enabled);
      && |s.runs| <= |t.runs| && t.runs[..|s.runs|] == s.runs && |s.requests| <= |t.requests| && t.data == s.data
           && t.error == s.error
      && (forall r :: 0 <= r < |s.requests| ==> t.requests[r].run == s.requests[r].run)
  {
    FetchKeepsOld(s.(runs := s.runs + [EffectRun(endpoint, false)], active := true), |s.runs|);
  }

  lemma {:induction false} EffectKeepsStale(s: State, endpoint: string, enabled: bool, bound: nat)
    requires Stale(s, bound) && (s.active ==> s.runs != [])
    ensures Stale(Begin(Cleanup(s), endpoint, enabled), bound)
  {
    CleanupKeepsOld(s);
    BeginKeepsOld(Cleanup(s), endpoint, enabled);
    var t, u := Cleanup(s), Begin(Cleanup(s), endpoint, enabled);
    hide Cleanup, Begin, Fetch;
    forall i | 0 <= i < |t.runs| ensures u.runs[i] == t.runs[i] {
      assert u.runs[..|t.runs|][i] == t.runs[i];
    }
  }

  lemma {:induction false} FetchKeepsStale(s: State, run: nat, bound: nat)
    requires Stale(s, bound)
    ensures Stale(Fetch(s, run), bound)
  {
    FetchKeepsOld(s, run);
    hide Fetch;
  }

  lemma {:induction false} StepKeepsStale(s: State, step: Step, bound: nat)
    requires Enabled(s, step) && Stale(s, bound)
    ensures Stale(After(s, step), bound)
  {
    hide Fetch, Begin;
    match step
    case RunEffect(endpoint, enabled) => EffectKeepsStale(s, endpoint, enabled, bound);
    case Unmount => CleanupKeepsOld(s);
    case Tick => FetchKeepsStale(s, s.timerRef.value, bound);
    case VisibilityChange(visible) =>
      if s.active && visible {
        FetchKeepsStale(s.(visible := true), |s.runs| - 1, bound);
      }
    case Answer(r, ok) =>
    case Continue =>
  }

  /** What is shown stays as it was, or comes from a request numbered `bound` or later; an error may
      also have been cleared. */
  ghost predicate ShownSince(s: State, t: State, bound: nat) {
    && (t.data == s.data || (t.data.Some? && t.data.value >= bound))
    && (t.error == s.error || t.error.None? || t.error.value >= bound)
  }

  lemma {:induction false} StaleStepSilent(s: State, step: Step, bound: nat)
    requires Sound(s) && Enabled(s, step) && Stale(s, bound)
    ensures ShownSince(s, After(s, step), bound)
  {
    var t := After(s, step);
    DataOnlyMovesForward(s, step);
    ErrorIsCurrent(s, step);
    hide After, Enabled;
    if t.data != s.data || (t.error != s.error && t.error.Some?) {
      CurrentIsFresh(s, s.queue[0], bound);
    }
  }

  lemma {:induction false} StaleNeverShown(s: State, steps: seq<Step>, bound: nat)
    requires Sound(s) && CanRun(s, steps) && Stale(s, bound)
    ensures ShownSince(s, Run(s, steps), bound)
    decreases |steps|
  {
    hide Sound, Enabled, After, Stale;
    if steps != [] {
      StepKeepsSound(s, steps[0]);
      StepKeepsStale(s, steps[0], bound);
      StaleStepSilent(s, steps[0], bound);
      StaleNeverShown(After(s, steps[0]), steps[1..], bound);
    }
  }

  lemma {:induction false} CurrentIsFresh(s: State, r: nat, bound: nat)
    requires Sound(s) && Stale(s, bound) && s.active && r < |s.requests| && s.requests[r].run == |s.runs| - 1
    ensures r >= bound
  {
    assert !s.runs[|s.runs| - 1].cancelled;
  }

  /** A response to a previous endpoint is never applied after the change, be it an answer or a failure:
      whatever happens later, the shown data is what it was or answers a request sent since, and the
      error is what it was, cleared, or the failure of a request sent since. */
  lemma {:induction false} OldEndpointNeverApplied(visible: bool, before: seq<Step>, endpoint: string, enabled: bool,
                                                   later: seq<Step>)
    requires CanRun(Mounted(visible), before)
    requires var s := Run(Mounted(visible), before);
      Enabled(s, RunEffect(endpoint, enabled)) && CanRun(After(s, RunEffect(endpoint, enabled)), later)
    ensures var s := Run(Mounted(visible), before);
      ShownSince(s, Run(After(s, RunEffect(endpoint, enabled)), later), |s.requests|)
  {
    MountedIsSound(visible);
    RunKeepsSound(Mounted(visible), before);
    var s := Run(Mounted(visible), before);
    hide Run, CanRun;
    StepKeepsSound(s, RunEffect(endpoint, enabled));
    ChangeCancels(s, endpoint, enabled);
    StaleNeverShown(After(s, RunEffect(endpoint, enabled)), later, |s.requests|);
  }

  lemma {:induction false} ChangeCancels(s: State, endpoint: string, enabled: bool)
    requires Sound(s)
    ensures var t := Begin(Cleanup(s), endpoint, enabled);
      Stale(t, |s.requests|) && t.data == s.data && t.error == s.error
  {
    CleanupKeepsSound(s);
    CleanupKeepsOld(s);
    BeginKeepsOld(Cleanup(s), endpoint, enabled);
    var t, u := Cleanup(s), Begin(Cleanup(s), endpoint, enabled);
    assert forall i :: 0 <= i < |t.runs| ==> t.runs[i].cancelled;
    hide Cleanup, Begin, Fetch;
    forall i | 0 <= i < |t.runs| ensures u.runs[i] == t.runs[i] {
      assert u.runs[..|t.runs|][i] == t.runs[i];
    }
  }

  /** An unmounted, or disabled, hook is silent: until the effect runs again, nothing it shows
      changes. */
  lemma {:induction false} SilentWhenInactive(s: State, steps: seq<Step>)
    requires Sound(s) && CanRun(s, steps) && !s.active
    requires forall step :: step in steps ==> !step.RunEffect?
    ensures Run(s, steps).data == s.data && Run(s, steps).error == s.error
    decreases |steps|
  {
    if steps != [] {
      assert steps[0] in steps && forall step :: step in steps[1..] ==> step in steps;
      StepKeepsSound(s, steps[0]);
      InactiveStep(s, steps[0]);
      hide Sound, Enabled, After;
      SilentWhenInactive(After(s, steps[0]), steps[1..]);
    }
  }

  lemma {:induction false} InactiveStep(s: State, step: Step)
    requires Sound(s) && Enabled(s, step) && !s.active && !step.RunEffect?
    ensures var t := After(s, step); !t.active && t.data == s.data && t.error == s.error
  {
  }

  /** The first enabled run paints from the server and sends nothing; every later one of a visible tab
      sends a request at once. A disabled run does not use up the first. */
  lemma {:induction false} OnlyTheFirstRunWaits(s: State, endpoint: string, enabled: bool)
    requires Sound(s)
    ensures var t := After(s, RunEffect(endpoint, enabled));
      && (!enabled ==> t.firstRun == s.firstRun && |t.requests| == |s.requests|)
      && (enabled ==> !t.firstRun && t.runs[|t.runs| - 1] == EffectRun(endpoint, false))
      && (enabled && s.visible && !s.firstRun ==> |t.requests| == |s.requests| + 1 && Outstanding(t, |s.requests|))
      && (enabled && (s.firstRun || !s.visible) ==> |t.requests| == |s.requests|)
  {
    CleanupKeepsSound(s);
    hide Cleanup;
  }

  // ---- The code that takes the steps ----

  class Poller {
    var data: Option<nat>
    var error: Option<nat>
    var requests: seq<Request>
    var queue: seq<nat>
    var runs: seq<EffectRun>
    var active: bool
    var visible: bool
    var timerRef: Option<nat>
    var abortRef: Option<nat>
    var firstRunRef: bool

    function View(): State
      reads this
    {
      State(data, error, requests, queue, runs, active, visible, timerRef, abortRef, firstRunRef)
    }

    constructor (visible: bool)
      ensures View() == Mounted(visible)
    {
      data, error, requests, queue, runs := None, None, [], [], [];
      active, this.visible, timerRef, abortRef, firstRunRef := false, visible, None, None, true;
    }

    method Abort()
      modifies this`requests
      ensures View() == AbortCurrent(old(View()))
    {
      if abortRef.Some? && abortRef.value < |requests| && requests[abortRef.value].status == InFlight {
        requests := requests[abortRef.value := requests[abortRef.value].(status := Aborted)];
      }
    }

    method FetchOnce(run: nat)
      modifies this
      ensures View() == Fetch(old(View()), run)
    {
      Abort();
      abortRef := Some(|requests|);
      requests := requests + [Request(run, InFlight)];
    }

    method StartInterval(run: nat)
      modifies this`timerRef
      ensures View() == StartTimer(old(View()), run)
    {
      if timerRef.None? {
        timerRef := Some(run);
      }
    }

    method StopInterval()
      modifies this`timerRef
      ensures View() == StopTimer(old(View()))
    {
      timerRef := None;
    }

    method CleanUp()
      modifies this
      ensures View() == Cleanup(old(View()))
    {
      if active && runs != [] {
        var n := |runs| - 1;
        runs := runs[n := runs[n].(cancelled := true)];
        active := false;
        StopInterval();
        Abort();
      }
    }

    /** React: the previous run's cleanup, then the effect's body. */
    method Effect(endpoint: string, enabled: bool)
      requires Enabled(View(), RunEffect(endpoint, enabled))
      modifies this
      ensures View() == After(old(View()), RunEffect(endpoint, enabled))
    {
      CleanUp();
      if !enabled {
        return;
      }
      var run := |runs|;
      runs := runs + [EffectRun(endpoint, false)];
      active := true;
      if visible {
        if !firstRunRef {
          FetchOnce(run);
        }
        StartInterval(run);
      }
      firstRunRef := false;
    }

    method OnTick()
      requires Enabled(View(), Tick)
      modifies this
      ensures View() == After(old(View()), Tick)
    {
      FetchOnce(timerRef.value);
    }

    method OnVisibilityChange(visible: bool)
      requires Enabled(View(), VisibilityChange(visible))
      modifies this
      ensures View() == After(old(View()), VisibilityChange(visible))
    {
      this.visible := visible;
      if !active {
        return;
      }
      if !visible {
        StopInterval();
        Abort();
      } else {
        FetchOnce(|runs| - 1);
        StartInterval(|runs| - 1);
      }
    }

    /** The rest of `fetchOnce`, after its last `await`. */
    method OnContinue()
      requires Enabled(View(), Continue)
      modifies this
      ensures View() == After(old(View()), Continue)
    {
      var r := queue[0];
      var ok := requests[r].status.ok;
      queue := queue[1..];
      requests := requests[r := requests[r].(status := Finished)];
      if runs[requests[r].run].cancelled {
        return;
      }
      if ok {
        data := Some(r);
        error := None;
      } else {
        error := Some(r);
      }
    }
  }
}
