/**
 * The rail's visibility state machine as values: `this.state` of
 * `Live2DChatStage` ({visibility, peekTimer, hideTimer}) and the effect of
 * each operation on it. The class in stage.dfy is proved against these
 * functions; the lemmas here state what the machine promises.
 *
 * Timers are deadlines on an abstract clock (milliseconds). A handle set
 * by `setTimeout` stays in the state after its callback has run (the
 * callbacks never null it); `pending` says whether the timeout is still
 * due to fire. Clearing a handle cancels its timeout.
 */
module RailVisibility {
  import opened Wrappers
  import opened StageConfig

  /** The three states, written to `data-rail-visibility`. */
  datatype Visibility = Hidden | Peek | Show

  /** The mode string naming each state. */
  function ModeName(v: Visibility): string {
    match v
    case Hidden => "hidden"
    case Peek => "peek"
    case Show => "show"
  }

  /** `validModes.includes(mode) ? mode : 'show'`: an unrecognised mode means show. */
  function TargetMode(mode: string): (v: Visibility)
    ensures v == Hidden <==> mode == "hidden"
    ensures v == Peek <==> mode == "peek"
    ensures mode == ModeName(v) || (v == Show && mode != "hidden" && mode != "peek")
  {
    if mode == "hidden" then Hidden
    else if mode == "peek" then Peek
    else Show
  }

  /** Naming a state and reading the name back gives the state. */
  lemma TargetModeOfName(v: Visibility)
    ensures TargetMode(ModeName(v)) == v
  {
  }

  /** A timeout handle: when it fires, and whether it has not fired yet. */
  datatype Timer = Timer(deadline: real, pending: bool)

  /** `this.state`. */
  datatype RailState = RailState(visibility: Visibility, peekTimer: Option<Timer>, hideTimer: Option<Timer>)

  /** The state a new stage starts in. */
  const Initial: RailState := RailState(Hidden, None, None)

  /** The options object of `_setRailVisibility`. */
  datatype SetOptions = SetOptions(force: bool, immediate: bool, resetTimers: bool)

  /** `{ force: true }`, as `flashRail` passes. */
  const Forced: SetOptions := SetOptions(true, false, false)

  /** `{ force: true, immediate: true }`, as init, interactions and the timers pass. */
  const ForcedImmediate: SetOptions := SetOptions(true, true, false)

  predicate NoTimers(s: RailState) {
    s.peekTimer == None && s.hideTimer == None
  }

  predicate Pending(t: Option<Timer>) {
    t.Some? && t.value.pending
  }

  /** A pending timeout whose deadline is reached by time `at`. */
  predicate Due(t: Option<Timer>, at: real) {
    Pending(t) && t.value.deadline <= at
  }

  /** `_clearVisibilityTimers`: both handles cleared and set to null. */
  function ClearTimers(s: RailState): (r: RailState)
    ensures NoTimers(r) && r.visibility == s.visibility
  {
    s.(peekTimer := None, hideTimer := None)
  }

  /**
   * `_scheduleVisibilityTimers` at time `now`: outside auto mode nothing;
   * otherwise the old timers are cleared and a peek timer at `idleMs` and a
   * hide timer at `2 * idleMs` are set.
   */
  function ScheduleTimers(s: RailState, cfg: Config, now: real): (r: RailState)
    ensures r.visibility == s.visibility
    ensures !AutoMode(cfg) ==> r == s
    ensures AutoMode(cfg) ==> r.peekTimer == Some(Timer(now + IdleMs(cfg), true))
    ensures AutoMode(cfg) ==> r.hideTimer == Some(Timer(now + IdleMs(cfg) * 2.0, true))
  {
    if !AutoMode(cfg) then s
    else
      ClearTimers(s).(peekTimer := Some(Timer(now + IdleMs(cfg), true)),
                      hideTimer := Some(Timer(now + IdleMs(cfg) * 2.0, true)))
  }

  /** Whether `_setRailVisibility(mode, opts)` goes past its early return. */
  predicate Commits(s: RailState, mode: string, opts: SetOptions) {
    s.visibility != TargetMode(mode) || opts.force
  }

  /**
   * `_setRailVisibility(mode, opts)` at time `now`: the same state again
   * without `force` changes nothing; otherwise the coerced mode is entered,
   * entering hidden clears both timers, and `resetTimers` re-arms them for
   * a shown or peeking rail.
   */
  function SetVisibility(s: RailState, mode: string, opts: SetOptions, cfg: Config, now: real): (r: RailState)
    ensures r.visibility == TargetMode(mode)
    ensures !Commits(s, mode, opts) ==> r == s
    ensures Commits(s, mode, opts) && TargetMode(mode) == Hidden ==> NoTimers(r)
    ensures TargetMode(mode) != Hidden && !opts.resetTimers ==>
              r.peekTimer == s.peekTimer && r.hideTimer == s.hideTimer
    ensures Commits(s, mode, opts) && TargetMode(mode) != Hidden && opts.resetTimers ==>
              r == ScheduleTimers(s.(visibility := TargetMode(mode)), cfg, now)
  {
    var target := TargetMode(mode);
    if s.visibility == target && !opts.force then s
    else
      var entered := s.(visibility := target);
      if target == Hidden then ClearTimers(entered)
      else if opts.resetTimers then ScheduleTimers(entered, cfg, now)
      else entered
  }

  /** `_handleInteraction`: show, forced and immediate, then re-arm the timers. */
  function HandleInteraction(s: RailState, cfg: Config, now: real): (r: RailState)
    ensures r.visibility == Show
  {
    ScheduleTimers(SetVisibility(s, "show", ForcedImmediate, cfg, now), cfg, now)
  }

  /** `_startIdleCountdown`: re-arm the timers of a shown or peeking rail in auto mode. */
  function StartIdleCountdown(s: RailState, cfg: Config, now: real): (r: RailState)
    ensures r.visibility == s.visibility
  {
    if !AutoMode(cfg) then s
    else if s.visibility == Hidden then s
    else ScheduleTimers(s, cfg, now)
  }

  /** `flashRail(mode)`: hidden and peek are forced; any other mode is an interaction. */
  function FlashRail(s: RailState, mode: string, cfg: Config, now: real): (r: RailState)
    ensures r.visibility == TargetMode(if mode == "hidden" || mode == "peek" then mode else "show")
  {
    if mode == "hidden" then SetVisibility(s, "hidden", Forced, cfg, now)
    else if mode == "peek" then SetVisibility(s, "peek", Forced, cfg, now)
    else HandleInteraction(s, cfg, now)
  }

  /** The handle of a timeout whose callback has run. */
  function Expire(t: Option<Timer>): Option<Timer>
    requires t.Some?
  {
    Some(t.value.(pending := false))
  }

  /** The peek timeout fires: a shown rail peeks; a peeking or hidden one is left alone. */
  function FirePeek(s: RailState, cfg: Config, now: real): (r: RailState)
    ensures !Pending(r.peekTimer) && r.hideTimer == s.hideTimer
  {
    if !Pending(s.peekTimer) then s
    else
      var fired := s.(peekTimer := Expire(s.peekTimer));
      if fired.visibility == Show then SetVisibility(fired, "peek", ForcedImmediate, cfg, now)
      else fired
  }

  /** The hide timeout fires: a rail that is not hidden is hidden. */
  function FireHide(s: RailState, cfg: Config, now: real): (r: RailState)
    ensures !Pending(r.hideTimer)
    ensures Pending(s.hideTimer) ==> r.visibility == Hidden
  {
    if !Pending(s.hideTimer) then s
    else
      var fired := s.(hideTimer := Expire(s.hideTimer));
      if fired.visibility != Hidden then SetVisibility(fired, "hidden", ForcedImmediate, cfg, now)
      else fired
  }

  /**
   * The clock reaches `t`: every timeout due by then fires, the peek
   * timeout first (its deadline is the earlier one).
   */
  function Advance(s: RailState, cfg: Config, t: real): (r: RailState)
    ensures !Due(r.peekTimer, t) && !Due(r.hideTimer, t)
  {
    var afterPeek := if Due(s.peekTimer, t) then FirePeek(s, cfg, t) else s;
    if Due(afterPeek.hideTimer, t) then FireHide(afterPeek, cfg, t) else afterPeek
  }

  /**
   * The machine's invariant at time `now`: a hidden rail and a rail outside
   * auto mode have no timers; the two handles are set together, `idleMs`
   * apart; the hide timeout is pending whenever set; and no pending
   * timeout is overdue.
   */
  predicate Inv(s: RailState, cfg: Config, now: real) {
    && (s.visibility == Hidden ==> NoTimers(s))
    && (!AutoMode(cfg) ==> NoTimers(s))
    && (s.peekTimer.Some? <==> s.hideTimer.Some?)
    && (s.hideTimer.Some? ==>
          && s.hideTimer.value.pending
          && now < s.hideTimer.value.deadline
          && s.hideTimer.value.deadline == s.peekTimer.value.deadline + IdleMs(cfg))
    && (Pending(s.peekTimer) ==> now < s.peekTimer.value.deadline)
  }

  lemma InitialInv(cfg: Config, now: real)
    ensures Inv(Initial, cfg, now)
  {
  }

  lemma SetVisibilityInv(s: RailState, mode: string, opts: SetOptions, cfg: Config, now: real)
    requires Inv(s, cfg, now)
    ensures Inv(SetVisibility(s, mode, opts, cfg, now), cfg, now)
  {
  }

  lemma HandleInteractionInv(s: RailState, cfg: Config, now: real)
    requires Inv(s, cfg, now)
    ensures Inv(HandleInteraction(s, cfg, now), cfg, now)
  {
    SetVisibilityInv(s, "show", ForcedImmediate, cfg, now);
  }

  lemma StartIdleCountdownInv(s: RailState, cfg: Config, now: real)
    requires Inv(s, cfg, now)
    ensures Inv(StartIdleCountdown(s, cfg, now), cfg, now)
  {
  }

  lemma FlashRailInv(s: RailState, mode: string, cfg: Config, now: real)
    requires Inv(s, cfg, now)
    ensures Inv(FlashRail(s, mode, cfg, now), cfg, now)
  {
    SetVisibilityInv(s, mode, Forced, cfg, now);
    HandleInteractionInv(s, cfg, now);
  }

  lemma AdvanceInv(s: RailState, cfg: Config, now: real, t: real)
    requires Inv(s, cfg, now) && now <= t
    ensures Inv(Advance(s, cfg, t), cfg, t)
  {
  }

  // ---- What the operations promise ----

  /**
   * After an interaction the rail is shown; in auto mode the timers are
   * exactly a fresh peek at `idleMs` and hide at `2 * idleMs`, outside it
   * they are left as they were.
   */
  lemma InteractionShows(s: RailState, cfg: Config, now: real)
    ensures HandleInteraction(s, cfg, now).visibility == Show
    ensures AutoMode(cfg) ==>
              && HandleInteraction(s, cfg, now).peekTimer == Some(Timer(now + IdleMs(cfg), true))
              && HandleInteraction(s, cfg, now).hideTimer == Some(Timer(now + 2.0 * IdleMs(cfg), true))
    ensures !AutoMode(cfg) ==>
              && HandleInteraction(s, cfg, now).peekTimer == s.peekTimer
              && HandleInteraction(s, cfg, now).hideTimer == s.hideTimer
  {
  }

  /** In auto mode an interaction supersedes whatever timers were pending: no stale one survives. */
  lemma InteractionSupersedes(s1: RailState, s2: RailState, cfg: Config, now: real)
    requires AutoMode(cfg)
    ensures HandleInteraction(s1, cfg, now) == HandleInteraction(s2, cfg, now)
  {
  }

  /** Setting the current state again without `force` changes nothing. */
  lemma SetSameModeIsNoOp(s: RailState, mode: string, opts: SetOptions, cfg: Config, now: real)
    requires s.visibility == TargetMode(mode) && !opts.force
    ensures SetVisibility(s, mode, opts, cfg, now) == s
  {
  }

  /** An unrecognised mode behaves exactly as "show". */
  lemma UnknownModeShows(s: RailState, mode: string, opts: SetOptions, cfg: Config, now: real)
    requires mode != "hidden" && mode != "peek" && mode != "show"
    ensures SetVisibility(s, mode, opts, cfg, now) == SetVisibility(s, "show", opts, cfg, now)
    ensures FlashRail(s, mode, cfg, now) == FlashRail(s, "show", cfg, now)
  {
  }

  /** The peek timeout only moves show to peek, and touches neither the hide timer nor any other state. */
  lemma PeekTimerRule(s: RailState, cfg: Config, now: real)
    requires Pending(s.peekTimer)
    ensures FirePeek(s, cfg, now).visibility == (if s.visibility == Show then Peek else s.visibility)
    ensures FirePeek(s, cfg, now).hideTimer == s.hideTimer
    ensures FirePeek(s, cfg, now).peekTimer == Some(Timer(s.peekTimer.value.deadline, false))
  {
  }

  /** The hide timeout hides the rail and leaves no timer behind. */
  lemma HideTimerRule(s: RailState, cfg: Config, now: real)
    requires Inv(s, cfg, now) && Pending(s.hideTimer)
    ensures FireHide(s, cfg, now) == RailState(Hidden, None, None)
  {
  }

  /**
   * The idle countdown in auto mode: a shown or peeking rail keeps its
   * visibility and gets a fresh peek at `idleMs` and hide at `2 * idleMs`,
   * whatever timers it had.
   */
  lemma IdleCountdownRearms(s: RailState, cfg: Config, now: real)
    requires AutoMode(cfg) && s.visibility != Hidden
    ensures StartIdleCountdown(s, cfg, now)
            == s.(peekTimer := Some(Timer(now + IdleMs(cfg), true)),
                  hideTimer := Some(Timer(now + 2.0 * IdleMs(cfg), true)))
  {
  }

  /** `flashRail` with any mode other than hidden and peek (its default "show" among them) is an interaction. */
  lemma FlashShowIsInteraction(s: RailState, mode: string, cfg: Config, now: real)
    requires mode != "hidden" && mode != "peek"
    ensures FlashRail(s, mode, cfg, now) == HandleInteraction(s, cfg, now)
    ensures FlashRail(s, mode, cfg, now).visibility == Show
  {
  }

  /** A second interaction at the same instant changes nothing: an event reaching several listeners acts once. */
  lemma InteractionIdempotent(s: RailState, cfg: Config, now: real)
    ensures HandleInteraction(HandleInteraction(s, cfg, now), cfg, now) == HandleInteraction(s, cfg, now)
  {
  }

  /** A second idle countdown at the same instant changes nothing. */
  lemma IdleCountdownIdempotent(s: RailState, cfg: Config, now: real)
    ensures StartIdleCountdown(StartIdleCountdown(s, cfg, now), cfg, now) == StartIdleCountdown(s, cfg, now)
  {
  }

  /** Outside auto mode scheduling and the idle countdown are no-ops. */
  lemma NonAutoSchedulesNothing(s: RailState, cfg: Config, now: real)
    requires !AutoMode(cfg)
    ensures ScheduleTimers(s, cfg, now) == s
    ensures StartIdleCountdown(s, cfg, now) == s
  {
  }

  /** `flashRail('hidden')` from any state hides the rail with no timer left. */
  lemma FlashHidden(s: RailState, cfg: Config, now: real)
    ensures FlashRail(s, "hidden", cfg, now) == RailState(Hidden, None, None)
  {
  }

  /**
   * `flashRail('peek')` peeks and keeps the timer deadlines as they were,
   * so peeking early does not shorten the hide delay; from hidden it
   * leaves no timer at all.
   */
  lemma FlashPeek(s: RailState, cfg: Config, now: real)
    ensures FlashRail(s, "peek", cfg, now) == s.(visibility := Peek)
    ensures Inv(s, cfg, now) && s.visibility == Hidden ==> FlashRail(s, "peek", cfg, now) == RailState(Peek, None, None)
  {
  }

  /** A hidden rail stays put while time passes and on the idle countdown. */
  lemma HiddenIsQuiescent(s: RailState, cfg: Config, now: real, t: real)
    requires Inv(s, cfg, now) && s.visibility == Hidden
    ensures Advance(s, cfg, t) == s
    ensures StartIdleCountdown(s, cfg, now) == s
  {
  }

  /**
   * The idle decay in auto mode: after an interaction at `now` the rail is
   * shown until `idleMs` have passed, peeks until `2 * idleMs`, and is then
   * hidden with no timer left.
   */
  lemma IdleDecay(s: RailState, cfg: Config, now: real, t: real)
    requires AutoMode(cfg) && now <= t
    ensures var r := Advance(HandleInteraction(s, cfg, now), cfg, t);
            && (t < now + IdleMs(cfg) ==> r.visibility == Show)
            && (now + IdleMs(cfg) <= t < now + 2.0 * IdleMs(cfg) ==> r.visibility == Peek)
            && (now + 2.0 * IdleMs(cfg) <= t ==> r == RailState(Hidden, None, None))
  {
  }

  /** Letting the clock run to `t1` and then to `t2` is the same as running it to `t2` at once. */
  lemma {:induction false} AdvanceComposes(s: RailState, cfg: Config, now: real, t1: real, t2: real)
    requires Inv(s, cfg, now) && now <= t1 <= t2
    ensures Advance(Advance(s, cfg, t1), cfg, t2) == Advance(s, cfg, t2)
  {
    var p := s.peekTimer;
    if Due(p, t1) {
      assert Due(p, t2);
    }
  }

  // ---- Traces of events ----

  /** A non-negative number of milliseconds. */
  type Duration = r: real | 0.0 <= r

  /** What can happen to the machine: the handlers, the public API, `_setRailVisibility` itself, and time passing. */
  datatype Event =
    | Interaction
    | IdleCountdown
    | Flash(mode: string)
    | SetMode(mode: string, opts: SetOptions)
    | Wait(ms: Duration)

  /** The machine's state together with the clock. */
  datatype Machine = Machine(rail: RailState, now: real)

  function Step(m: Machine, cfg: Config, e: Event): (r: Machine)
    ensures r.now >= m.now
  {
    match e
    case Interaction => m.(rail := HandleInteraction(m.rail, cfg, m.now))
    case IdleCountdown => m.(rail := StartIdleCountdown(m.rail, cfg, m.now))
    case Flash(mode) => m.(rail := FlashRail(m.rail, mode, cfg, m.now))
    case SetMode(mode, opts) => m.(rail := SetVisibility(m.rail, mode, opts, cfg, m.now))
    case Wait(ms) => Machine(Advance(m.rail, cfg, m.now + ms), m.now + ms)
  }

  function Run(m: Machine, cfg: Config, es: seq<Event>): Machine
    decreases |es|
  {
    if es == [] then m else Run(Step(m, cfg, es[0]), cfg, es[1..])
  }

  predicate MachineInv(m: Machine, cfg: Config) {
    Inv(m.rail, cfg, m.now)
  }

  lemma StepInv(m: Machine, cfg: Config, e: Event)
    requires MachineInv(m, cfg)
    ensures MachineInv(Step(m, cfg, e), cfg)
  {
    match e
    case Interaction => HandleInteractionInv(m.rail, cfg, m.now);
    case IdleCountdown => StartIdleCountdownInv(m.rail, cfg, m.now);
    case Flash(mode) => FlashRailInv(m.rail, mode, cfg, m.now);
    case SetMode(mode, opts) => SetVisibilityInv(m.rail, mode, opts, cfg, m.now);
    case Wait(ms) => AdvanceInv(m.rail, cfg, m.now, m.now + ms);
  }

  /**
   * Along any trace the invariant holds; in particular a hidden rail never
   * has a pending timer and outside auto mode no timer is ever set.
   */
  lemma {:induction false} RunInv(m: Machine, cfg: Config, es: seq<Event>)
    requires MachineInv(m, cfg)
    ensures MachineInv(Run(m, cfg, es), cfg)
    ensures Run(m, cfg, es).rail.visibility == Hidden ==> NoTimers(Run(m, cfg, es).rail)
    ensures !AutoMode(cfg) ==> NoTimers(Run(m, cfg, es).rail)
    decreases |es|
  {
    if es != [] {
      StepInv(m, cfg, es[0]);
      RunInv(Step(m, cfg, es[0]), cfg, es[1..]);
    }
  }

  /**
   * Only an interaction, `flashRail` with a mode other than "hidden", or a
   * set to a state other than hidden takes the rail out of hidden.
   */
  lemma HiddenExits(m: Machine, cfg: Config, e: Event)
    requires MachineInv(m, cfg) && m.rail.visibility == Hidden
    ensures Step(m, cfg, e).rail.visibility != Hidden <==>
              || e.Interaction?
              || (e.Flash? && e.mode != "hidden")
              || (e.SetMode? && e.mode != "hidden")
  {
    if e.Wait? {
      HiddenIsQuiescent(m.rail, cfg, m.now, m.now + e.ms);
    }
  }

  /** Nothing but waiting: no interaction or call on the machine. */
  predicate OnlyWaits(es: seq<Event>) {
    forall i :: 0 <= i < |es| ==> es[i].Wait?
  }

  /** Once hidden, however long the clock runs, nothing changes. */
  lemma {:induction false} HiddenFastForward(m: Machine, cfg: Config, es: seq<Event>)
    requires MachineInv(m, cfg) && m.rail.visibility == Hidden && OnlyWaits(es)
    ensures Run(m, cfg, es).rail == m.rail
    decreases |es|
  {
    if es != [] {
      var next := Step(m, cfg, es[0]);
      HiddenIsQuiescent(m.rail, cfg, m.now, next.now);
      AdvanceInv(m.rail, cfg, m.now, next.now);
      assert OnlyWaits(es[1..]) by {
        forall i | 0 <= i < |es[1..]| ensures es[1..][i].Wait? {
          assert es[1..][i] == es[i + 1];
        }
      }
      HiddenFastForward(next, cfg, es[1..]);
    }
  }

  /** Events that are neither an explicit hide nor peek: interactions, idle countdowns, waits, flashes that show. */
  predicate Showing(e: Event) {
    || e.Interaction?
    || e.IdleCountdown?
    || e.Wait?
    || (e.Flash? && e.mode != "hidden" && e.mode != "peek")
  }

  /** Outside auto mode a shown rail stays shown through any such events, with no timer ever set. */
  lemma {:induction false} NonAutoStaysShown(m: Machine, cfg: Config, es: seq<Event>)
    requires !AutoMode(cfg) && MachineInv(m, cfg) && m.rail.visibility == Show
    requires forall i :: 0 <= i < |es| ==> Showing(es[i])
    ensures Run(m, cfg, es).rail == RailState(Show, None, None)
    decreases |es|
  {
    if es != [] {
      var next := Step(m, cfg, es[0]);
      StepInv(m, cfg, es[0]);
      assert next.rail == RailState(Show, None, None);
      assert forall i :: 0 <= i < |es[1..]| ==> Showing(es[1..][i]) by {
        forall i | 0 <= i < |es[1..]| ensures Showing(es[1..][i]) {
          assert es[1..][i] == es[i + 1];
        }
      }
      NonAutoStaysShown(next, cfg, es[1..]);
    }
  }
}
