/**
 * The program's entry point (src/main.rs): the corner flags, the initial
 * UI state, and the background thread that discovers the active player,
 * publishes snapshots and dispatches the UI's commands.
 */
module Tracker {
  import opened Wrappers
  import opened Metadata
  import Ui

  // Command-line corner flags

  /** The corner flags, highest priority first, and the corner each selects. */
  const Flags: seq<string> := ["--bottom-right", "--bottom-left", "--top-right", "--top-left"]
  const FlagCorners: seq<ScreenLoc> := [BottomRight, BottomLeft, TopRight, TopLeft]

  /**
   * The corner chosen by the flags: the highest-priority flag present
   * wins, and without any flag the corner is BottomRight.
   */
  method CornerFromArgs(args: seq<string>) returns (location: ScreenLoc)
    ensures (forall i :: 0 <= i < |Flags| ==> Flags[i] !in args) ==> location == BottomRight
    ensures forall i :: 0 <= i < |Flags| && Flags[i] in args && (forall j :: 0 <= j < i ==> Flags[j] !in args) ==>
                          location == FlagCorners[i]
  {
    assert Flags[0] == "--bottom-right" && Flags[1] == "--bottom-left" && Flags[2] == "--top-right" && Flags[3] == "--top-left";
    location := BottomRight;
    if "--bottom-right" in args {
      location := BottomRight;
    } else if "--bottom-left" in args {
      location := BottomLeft;
    } else if "--top-right" in args {
      location := TopRight;
    } else if "--top-left" in args {
      location := TopLeft;
    }
  }

  // The initial UI state

  /**
   * The data the UI starts with, before any snapshot is published: every
   * text is empty, all three buttons are disabled, the middle one reads
   * "Pause", the artwork box is empty, and the window is at full size.
   */
  function InitialInfo(location: ScreenLoc, offset: Offset): (info: Info)
    ensures info.title == "" && info.artists == "" && info.albumName == "" && info.artUrl == ""
    ensures Ui.Disabled(info) == {Ui.PrevButton, Ui.PauseButton, Ui.NextButton}
    ensures Ui.PauseLabel(info) == "Pause"
    ensures Ui.BuildWidget(info).content == Ui.EmptyBox
    ensures !info.minimize && info.location == location && info.offset == offset
  {
    Info(
      title := "", artists := "", artUrl := "", albumName := "",
      art := None,
      canNext := true, canPrev := true, canPause := true,
      isPaused := false, minimize := false,
      location := location, offset := offset)
  }

  /** The full-size window is opened at its corner with no offset, inside a large enough display. */
  lemma LaunchPlacedInside(location: ScreenLoc, rect: Ui.Rect)
    requires Ui.FullSize.0 <= rect.x1 - rect.x0 && Ui.FullSize.1 <= rect.y1 - rect.y0
    ensures var p := Ui.PlaceWidget(Ui.FullSize.0, Ui.FullSize.1, location, (0.0, 0.0), rect);
            rect.x0 <= p.0 && p.0 + Ui.FullSize.0 <= rect.x1 && rect.y0 <= p.1 && p.1 + Ui.FullSize.1 <= rect.y1
  {
    Ui.PlacedInside(Ui.FullSize.0, Ui.FullSize.1, location, (0.0, 0.0), rect);
  }

  // What the background thread does

  /** What the background thread does, in order: publish a snapshot or call the player. */
  datatype Action = Publish(info: Info) | Play | Pause | Next | Previous

  /**
   * The transport call for a command: Pause reads the status (a failed
   * read counts as Playing) and resumes a paused player, pausing otherwise.
   */
  function Dispatch(command: PlayerCommand, state: Player): (a: Action)
    ensures a == Action.Play <==> command == PlayerCommand.Pause && state.status == Some(Paused)
    ensures a == Action.Pause <==> command == PlayerCommand.Pause && state.status != Some(Paused)
    ensures a == Action.Next <==> command == PlayerCommand.Next
    ensures a == Action.Previous <==> command == PlayerCommand.Prev
  {
    match command
    case Pause => if state.status.GetOr(Playing) == Paused then Action.Play else Action.Pause
    case Next => Action.Next
    case Prev => Action.Previous
  }

  /** The command a transport call serves. */
  function CommandOf(a: Action): PlayerCommand
    requires !a.Publish?
  {
    match a
    case Play => PlayerCommand.Pause
    case Pause => PlayerCommand.Pause
    case Next => PlayerCommand.Next
    case Previous => PlayerCommand.Prev
  }

  /** The commands served by the transport calls of a log, in order. */
  function Served(log: seq<Action>): seq<PlayerCommand> {
    if log == [] then []
    else (if log[0].Publish? then [] else [CommandOf(log[0])]) + Served(log[1..])
  }

  /** The number of snapshots published in a log. */
  function Publishes(log: seq<Action>): nat {
    if log == [] then 0 else (if log[0].Publish? then 1 else 0) + Publishes(log[1..])
  }

  /** Each command is served by the one call that dispatching it makes. */
  lemma DispatchServes(command: PlayerCommand, state: Player)
    ensures Served([Dispatch(command, state)]) == [command]
    ensures Publishes([Dispatch(command, state)]) == 0
  {
  }

  lemma {:induction false} ServedAppend(a: seq<Action>, b: seq<Action>)
    ensures Served(a + b) == Served(a) + Served(b)
  {
    if a != [] {
      assert (a + b)[1..] == a[1..] + b;
      ServedAppend(a[1..], b);
    } else {
      assert a + b == b;
    }
  }

  lemma {:induction false} PublishesAppend(a: seq<Action>, b: seq<Action>)
    ensures Publishes(a + b) == Publishes(a) + Publishes(b)
  {
    if a != [] {
      assert (a + b)[1..] == a[1..] + b;
      PublishesAppend(a[1..], b);
    } else {
      assert a + b == b;
    }
  }

  // One tick of the inner loop

  /**
   * One poll of the progress tracker: whether the track's progress or
   * metadata changed, whether the player quit, the player's query results
   * at that moment, and the commands the UI sent while the poll waited.
   */
  datatype Tick = Tick(progressChanged: bool, playerQuit: bool, state: Player, arrivals: seq<PlayerCommand>)

  /** The fixed inputs of the thread: the placement and the foreign calls. */
  datatype Setup = Setup(location: ScreenLoc, offset: Offset, env: Env)

  /** The snapshot of a player observation under a setup. */
  function SnapshotIn(state: Player, setup: Setup): Result<Info, Panic> {
    Snapshot(state, setup.location, setup.offset, setup.env)
  }

  /** The result of one tick: leave the loop, abort, or go on after some actions. */
  datatype Step =
    | StepQuit(queue: seq<PlayerCommand>)
    | StepAbort(reason: Panic, queue: seq<PlayerCommand>)
    | StepOn(actions: seq<Action>, queue: seq<PlayerCommand>)

  /**
   * One tick against the command queue. A quit leaves before any publish
   * or receive; a change publishes one fresh snapshot first; then at most
   * the oldest queued command is dispatched, as the last action.
   */
  function TickStep(t: Tick, queue: seq<PlayerCommand>, setup: Setup): (s: Step)
    ensures s.StepQuit? <==> t.playerQuit
    ensures s.StepQuit? ==> s.queue == queue + t.arrivals
    ensures s.StepAbort? <==> !t.playerQuit && t.progressChanged && SnapshotIn(t.state, setup).Err?
    ensures s.StepAbort? ==> s.queue == queue + t.arrivals && s.reason == SnapshotIn(t.state, setup).error
    ensures s.StepOn? ==> Publishes(s.actions) == (if t.progressChanged then 1 else 0)
    ensures s.StepOn? && t.progressChanged ==> s.actions[0] == Publish(SnapshotIn(t.state, setup).value)
    ensures s.StepOn? ==> Served(s.actions) + s.queue == queue + t.arrivals
    ensures s.StepOn? ==> |Served(s.actions)| == (if queue + t.arrivals == [] then 0 else 1)
    ensures s.StepOn? && queue + t.arrivals != [] ==>
              s.actions[|s.actions| - 1] == Dispatch((queue + t.arrivals)[0], t.state)
  {
    var q := queue + t.arrivals;
    if t.playerQuit then StepQuit(q)
    else if t.progressChanged && SnapshotIn(t.state, setup).Err? then
      StepAbort(SnapshotIn(t.state, setup).error, q)
    else
      var published := if t.progressChanged then [Publish(SnapshotIn(t.state, setup).value)] else [];
      assert Served(published) == [] by {
        assert published != [] ==> published[1..] == [];
      }
      assert Publishes(published) == (if t.progressChanged then 1 else 0) by {
        assert published != [] ==> published[1..] == [];
      }
      if q == [] then StepOn(published, q)
      else
        var call := Dispatch(q[0], t.state);
        ServedAppend(published, [call]);
        PublishesAppend(published, [call]);
        DispatchServes(q[0], t.state);
        StepOn(published + [call], q[1..])
  }

  // The inner loop over the ticks of one player

  /** How a loop stopped, or where it stood when the input ran out. */
  datatype Ending =
    | Quitted          // the player quit: back to discovery
    | Panicked(reason: Panic)
    | Discovering      // still retrying discovery
    | Tracking         // still polling the player

  /** The inner loop's result; `handled` counts the ticks it consumed. */
  datatype TrackOutcome = TrackOutcome(log: seq<Action>, queue: seq<PlayerCommand>, ending: Ending, handled: nat)

  /**
   * The inner loop over a player's ticks, starting from a command queue.
   * It never returns to discovery on its own; it consumes every tick
   * unless a quit or an abort stops it, and that stopping tick is counted.
   */
  function Track(ticks: seq<Tick>, queue: seq<PlayerCommand>, setup: Setup): (o: TrackOutcome)
    ensures o.handled <= |ticks|
    ensures o.ending != Discovering
    ensures o.ending == Tracking ==> o.handled == |ticks|
    ensures o.ending != Tracking ==> 1 <= o.handled
    decreases |ticks|
  {
    if ticks == [] then TrackOutcome([], queue, Tracking, 0)
    else
      match TickStep(ticks[0], queue, setup)
      case StepQuit(q) => TrackOutcome([], q, Quitted, 1)
      case StepAbort(e, q) => TrackOutcome([], q, Panicked(e), 1)
      case StepOn(actions, q) =>
        var rest := Track(ticks[1..], q, setup);
        TrackOutcome(actions + rest.log, rest.queue, rest.ending, rest.handled + 1)
  }

  /** All commands the UI sent during the given ticks, in order. */
  function Arrivals(ticks: seq<Tick>): seq<PlayerCommand> {
    if ticks == [] then [] else ticks[0].arrivals + Arrivals(ticks[1..])
  }

  /** The number of the given ticks that report a change. */
  function Changes(ticks: seq<Tick>): nat {
    if ticks == [] then 0 else (if ticks[0].progressChanged then 1 else 0) + Changes(ticks[1..])
  }

  /** The ticks handled before the one that stopped the loop, if any. */
  function Ordinary(o: TrackOutcome): nat {
    if o.ending == Tracking || o.handled == 0 then o.handled else o.handled - 1
  }

  /**
   * Commands are never lost, duplicated or reordered: those served,
   * followed by those still queued, are the initial queue followed by
   * every command sent during the handled ticks.
   */
  lemma {:induction false} TrackConservesCommands(ticks: seq<Tick>, queue: seq<PlayerCommand>, setup: Setup)
    ensures var o := Track(ticks, queue, setup);
            o.handled <= |ticks| && Served(o.log) + o.queue == queue + Arrivals(ticks[..o.handled])
  {
    var o := Track(ticks, queue, setup);
    if ticks == [] {
      assert ticks[..o.handled] == [];
    } else {
      var step := TickStep(ticks[0], queue, setup);
      ArrivalsFirst(ticks, o.handled);
      if step.StepOn? {
        var rest := Track(ticks[1..], step.queue, setup);
        assert o == TrackOutcome(step.actions + rest.log, rest.queue, rest.ending, rest.handled + 1);
        TrackConservesCommands(ticks[1..], step.queue, setup);
        ServedAppend(step.actions, rest.log);
        Regroup(Served(step.actions), step.queue, queue, ticks[0].arrivals,
                Served(rest.log), rest.queue, Arrivals(ticks[1..][..rest.handled]));
      } else {
        assert o == TrackOutcome([], queue + ticks[0].arrivals, o.ending, 1);
        assert Arrivals(ticks[1..][..0]) == [];
      }
    }
  }

  /** The arrivals of a non-empty prefix of ticks: those of the first tick, then the rest. */
  lemma ArrivalsFirst(ticks: seq<Tick>, n: nat)
    requires 1 <= n <= |ticks|
    ensures Arrivals(ticks[..n]) == ticks[0].arrivals + Arrivals(ticks[1..][..n - 1])
  {
    assert ticks[..n][1..] == ticks[1..][..n - 1];
  }

  /** Sequence regrouping behind the conservation proof. */
  lemma Regroup(served: seq<PlayerCommand>, mid: seq<PlayerCommand>, queue: seq<PlayerCommand>, arrived: seq<PlayerCommand>,
                laterServed: seq<PlayerCommand>, left: seq<PlayerCommand>, laterArrived: seq<PlayerCommand>)
    requires served + mid == queue + arrived
    requires laterServed + left == mid + laterArrived
    ensures (served + laterServed) + left == queue + (arrived + laterArrived)
  {
    calc {
      (served + laterServed) + left;
      served + (laterServed + left);
      served + (mid + laterArrived);
      (served + mid) + laterArrived;
      (queue + arrived) + laterArrived;
    }
  }

  /**
   * The loop stops exactly at the first quitting or failing tick: every
   * tick before it neither quit nor failed, and it runs to the end of the
   * input otherwise.
   */
  lemma {:induction false} TrackStopsAtFirstQuit(ticks: seq<Tick>, queue: seq<PlayerCommand>, setup: Setup)
    ensures var o := Track(ticks, queue, setup);
            && o.handled <= |ticks|
            && o.ending != Discovering
            && (o.ending == Tracking <==> o.handled == |ticks| && Ordinary(o) == |ticks|)
            && (o.ending != Tracking ==> 1 <= o.handled && Ordinary(o) == o.handled - 1)
            && (forall j :: 0 <= j < Ordinary(o) ==> !ticks[j].playerQuit)
            && (forall j :: 0 <= j < Ordinary(o) && ticks[j].progressChanged ==> SnapshotIn(ticks[j].state, setup).Ok?)
            && (o.ending == Quitted ==> ticks[o.handled - 1].playerQuit)
            && (o.ending.Panicked? ==>
                  var last := ticks[o.handled - 1];
                  !last.playerQuit && last.progressChanged && SnapshotIn(last.state, setup) == Err(o.ending.reason))
  {
    var o := Track(ticks, queue, setup);
    if ticks != [] {
      var step := TickStep(ticks[0], queue, setup);
      if step.StepOn? {
        var rest := Track(ticks[1..], step.queue, setup);
        assert o == TrackOutcome(step.actions + rest.log, rest.queue, rest.ending, rest.handled + 1);
        TrackStopsAtFirstQuit(ticks[1..], step.queue, setup);
        assert Ordinary(o) == Ordinary(rest) + 1;
        forall j | 1 <= j < Ordinary(o)
          ensures !ticks[j].playerQuit
          ensures ticks[j].progressChanged ==> SnapshotIn(ticks[j].state, setup).Ok?
        {
          assert ticks[j] == ticks[1..][j - 1];
        }
        if o.ending != Tracking {
          assert ticks[o.handled - 1] == ticks[1..][rest.handled - 1];
        }
      } else {
        assert o.handled == 1 && Ordinary(o) == 0;
      }
    }
  }

  /**
   * Exactly one snapshot is published per changed tick before the stop,
   * and none for unchanged ticks.
   */
  lemma {:induction false} TrackPublishesOncePerChange(ticks: seq<Tick>, queue: seq<PlayerCommand>, setup: Setup)
    ensures var o := Track(ticks, queue, setup);
            Ordinary(o) <= |ticks| && Publishes(o.log) == Changes(ticks[..Ordinary(o)])
  {
    var o := Track(ticks, queue, setup);
    if ticks == [] {
      assert ticks[..Ordinary(o)] == [];
    } else {
      var step := TickStep(ticks[0], queue, setup);
      if step.StepOn? {
        var rest := Track(ticks[1..], step.queue, setup);
        assert o == TrackOutcome(step.actions + rest.log, rest.queue, rest.ending, rest.handled + 1);
        TrackPublishesOncePerChange(ticks[1..], step.queue, setup);
        PublishesAppend(step.actions, rest.log);
        assert Ordinary(o) == Ordinary(rest) + 1;
        assert ticks[..Ordinary(o)][1..] == ticks[1..][..Ordinary(rest)];
        assert ticks[..Ordinary(o)][0] == ticks[0];
      } else {
        assert o.log == [] && Ordinary(o) == 0;
        assert ticks[..0] == [];
      }
    }
  }

  /** A quitting first tick ends the loop at once, leaving every command queued. */
  lemma QuitConsumesNothing(ticks: seq<Tick>, queue: seq<PlayerCommand>, setup: Setup)
    requires ticks != [] && ticks[0].playerQuit
    ensures Track(ticks, queue, setup) == TrackOutcome([], queue + ticks[0].arrivals, Quitted, 1)
  {
  }

  // The outer loop over discovered players

  /**
   * One discovery session: whether the bus was reachable, the results of
   * `find_active` until success, whether progress tracking started, and
   * the ticks of the player found.
   */
  datatype Session = Session(busOk: bool, finds: seq<Option<Player>>, trackerOk: bool, ticks: seq<Tick>)

  /** The thread's log, the commands left queued, and how it ended. */
  datatype Outcome = Outcome(log: seq<Action>, queue: seq<PlayerCommand>, ending: Ending)

  /** `o` preceded by the actions `prefix`. */
  function Then(prefix: seq<Action>, o: Outcome): Outcome {
    Outcome(prefix + o.log, o.queue, o.ending)
  }

  /**
   * The background thread over a sequence of sessions: each discovered
   * player gets one initial publish, then its ticks are tracked; a quit
   * returns to discovery with the same command queue, so the thread only
   * stops by panicking or by running out of input.
   */
  function Run(sessions: seq<Session>, queue: seq<PlayerCommand>, setup: Setup): (r: Outcome)
    ensures r.ending != Quitted
    decreases |sessions|, 0
  {
    if sessions == [] then Outcome([], queue, Discovering)
    else
      var s := sessions[0];
      match Discover(s.busOk, s.finds)
      case Err(e) => Outcome([], queue, Panicked(e))
      case Ok(Searching) => Outcome([], queue, Discovering)
      case Ok(Found(player, _)) =>
        match SnapshotIn(player, setup)
        case Err(e) => Outcome([], queue, Panicked(e))
        case Ok(info) =>
          if !s.trackerOk then Outcome([Publish(info)], queue, Panicked(TrackerUnavailable))
          else Then([Publish(info)], AfterTrack(Track(s.ticks, queue, setup), sessions[1..], setup))
  }

  /** Continues after the inner loop: on a quit, with the remaining sessions. */
  function AfterTrack(t: TrackOutcome, rest: seq<Session>, setup: Setup): (r: Outcome)
    ensures r.ending != Quitted
    ensures t.ending != Quitted ==> r.ending == t.ending
    decreases |rest|, 1
  {
    if t.ending == Quitted then Then(t.log, Run(rest, t.queue, setup))
    else Outcome(t.log, t.queue, t.ending)
  }

  lemma ThenThen(a: seq<Action>, b: seq<Action>, o: Outcome)
    ensures Then(a, Then(b, o)) == Then(a + b, o)
  {
    assert a + (b + o.log) == (a + b) + o.log;
  }

  /**
   * The commands sent during the ticks the thread handled, session after
   * session, following `Run`: a session that quits hands its remaining
   * queue to the next one.
   */
  function RunArrivals(sessions: seq<Session>, queue: seq<PlayerCommand>, setup: Setup): seq<PlayerCommand>
    decreases |sessions|
  {
    if sessions == [] then []
    else
      var s := sessions[0];
      match Discover(s.busOk, s.finds)
      case Ok(Found(player, _)) =>
        if SnapshotIn(player, setup).Err? || !s.trackerOk then []
        else
          var t := Track(s.ticks, queue, setup);
          var arrived := Arrivals(s.ticks[..t.handled]);
          if t.ending == Quitted then arrived + RunArrivals(sessions[1..], t.queue, setup) else arrived
      case _ => []
  }

  /**
   * Commands are never lost, duplicated or reordered over the whole
   * thread: across player changes, those served followed by those still
   * queued are the initial queue followed by every command sent during
   * the handled ticks of every session.
   */
  lemma {:induction false} RunConservesCommands(sessions: seq<Session>, queue: seq<PlayerCommand>, setup: Setup)
    ensures var r := Run(sessions, queue, setup);
            Served(r.log) + r.queue == queue + RunArrivals(sessions, queue, setup)
    decreases |sessions|
  {
    if !Tracked(sessions, setup) {
      RunUntracked(sessions, queue, setup);
    } else {
      var s := sessions[0];
      var info := SnapshotIn(Discover(s.busOk, s.finds).value.player, setup).value;
      var t := Track(s.ticks, queue, setup);
      var arrived := Arrivals(s.ticks[..t.handled]);
      var after := AfterTrack(t, sessions[1..], setup);
      RunTracked(sessions, queue, setup);
      assert Served([Publish(info)]) == [] by {
        assert [Publish(info)][1..] == [];
      }
      var r := Run(sessions, queue, setup);
      assert r.log == [Publish(info)] + after.log && r.queue == after.queue;
      ServedAppend([Publish(info)], after.log);
      assert Served(r.log) == Served(after.log);
      TrackConservesCommands(s.ticks, queue, setup);
      assert Served(t.log) + t.queue == queue + arrived;
      if t.ending == Quitted {
        var later := Run(sessions[1..], t.queue, setup);
        assert after == Then(t.log, later);
        RunConservesCommands(sessions[1..], t.queue, setup);
        ServedAppend(t.log, later.log);
        Regroup(Served(t.log), t.queue, queue, arrived,
                Served(later.log), later.queue, RunArrivals(sessions[1..], t.queue, setup));
      } else {
        assert after == Outcome(t.log, t.queue, t.ending);
      }
    }
  }

  /** Whether the first session reaches the inner loop: a player is found, its snapshot builds, tracking starts. */
  predicate Tracked(sessions: seq<Session>, setup: Setup) {
    && sessions != []
    && var d := Discover(sessions[0].busOk, sessions[0].finds);
    && d.Ok? && d.value.Found? && SnapshotIn(d.value.player, setup).Ok? && sessions[0].trackerOk
  }

  /** A first session that never reaches the inner loop serves nothing and keeps the queue. */
  lemma RunUntracked(sessions: seq<Session>, queue: seq<PlayerCommand>, setup: Setup)
    requires !Tracked(sessions, setup)
    ensures var r := Run(sessions, queue, setup);
            Served(r.log) == [] && r.queue == queue && RunArrivals(sessions, queue, setup) == []
  {
    if sessions != [] {
      var d := Discover(sessions[0].busOk, sessions[0].finds);
      if d.Ok? && d.value.Found? && SnapshotIn(d.value.player, setup).Ok? {
        var info := SnapshotIn(d.value.player, setup).value;
        assert [Publish(info)][1..] == [];
      }
    }
  }

  /** A first session that reaches the inner loop publishes its snapshot, then continues as `AfterTrack`. */
  lemma RunTracked(sessions: seq<Session>, queue: seq<PlayerCommand>, setup: Setup)
    requires Tracked(sessions, setup)
    ensures var s := sessions[0];
            var info := SnapshotIn(Discover(s.busOk, s.finds).value.player, setup).value;
            var t := Track(s.ticks, queue, setup);
            var arrived := Arrivals(s.ticks[..t.handled]);
            && Run(sessions, queue, setup) == Then([Publish(info)], AfterTrack(t, sessions[1..], setup))
            && RunArrivals(sessions, queue, setup)
               == if t.ending == Quitted then arrived + RunArrivals(sessions[1..], t.queue, setup) else arrived
  {
  }

  /**
   * After a player quits, the next player found is announced right after
   * the quitting player's actions, with the command queue carried over.
   */
  lemma NextSessionOpensWithPublish(sessions: seq<Session>, queue: seq<PlayerCommand>, setup: Setup,
                                    first: Player, next: Player, k: nat, m: nat)
    requires |sessions| >= 2 && Discover(sessions[0].busOk, sessions[0].finds) == Ok(Found(first, k))
    requires SnapshotIn(first, setup).Ok? && sessions[0].trackerOk
    requires Track(sessions[0].ticks, queue, setup).ending == Quitted
    requires Discover(sessions[1].busOk, sessions[1].finds) == Ok(Found(next, m))
    requires SnapshotIn(next, setup).Ok?
    ensures var t := Track(sessions[0].ticks, queue, setup);
            var r := Run(sessions, queue, setup);
            && r == Then([Publish(SnapshotIn(first, setup).value)] + t.log, Run(sessions[1..], t.queue, setup))
            && |r.log| > 1 + |t.log|
            && r.log[1 + |t.log|] == Publish(SnapshotIn(next, setup).value)
  {
    var t := Track(sessions[0].ticks, queue, setup);
    var later := Run(sessions[1..], t.queue, setup);
    ThenThen([Publish(SnapshotIn(first, setup).value)], t.log, later);
    SessionOpensWithPublish(sessions[1..], t.queue, setup, next, m);
  }

  /** A discovered player whose snapshot succeeds is announced by publishing that snapshot first. */
  lemma SessionOpensWithPublish(sessions: seq<Session>, queue: seq<PlayerCommand>, setup: Setup, player: Player, k: nat)
    requires sessions != [] && Discover(sessions[0].busOk, sessions[0].finds) == Ok(Found(player, k))
    requires SnapshotIn(player, setup).Ok?
    ensures var log := Run(sessions, queue, setup).log;
            log != [] && log[0] == Publish(SnapshotIn(player, setup).value)
  {
  }

  /**
   * One pass of the inner loop: poll the tracker (the UI's commands
   * arrive meanwhile), leave on a quit, republish on a change, then take
   * at most one command from the channel and dispatch it.
   */
  method PollOnce(tick: Tick, channel: seq<PlayerCommand>, setup: Setup) returns (step: Step)
    ensures step == TickStep(tick, channel, setup)
  {
    var queue := channel + tick.arrivals;
    if tick.playerQuit {
      return StepQuit(queue);
    }
    var actions := [];
    if tick.progressChanged {
      var information := GetMetadata(tick.state, setup.location, setup.offset, setup.env);
      if information.Err? {
        return StepAbort(information.error, queue);
      }
      actions := actions + [Publish(information.value)];
    }
    if queue == [] {
      return StepOn(actions, queue);
    }
    var command := queue[0];
    queue := queue[1..];
    actions := actions + [Dispatch(command, tick.state)];
    step := StepOn(actions, queue);
  }

  /**
   * The inner loop for one player: poll until the player quits, a
   * snapshot fails, or the ticks run out.
   */
  method TrackPlayer(ticks: seq<Tick>, channel: seq<PlayerCommand>, setup: Setup)
    returns (log: seq<Action>, queue: seq<PlayerCommand>, ending: Ending)
    ensures var t := Track(ticks, channel, setup);
            log == t.log && queue == t.queue && ending == t.ending
  {
    log, queue := [], channel;
    var i := 0;
    while i < |ticks|
      invariant 0 <= i <= |ticks|
      invariant Track(ticks, channel, setup).log == log + Track(ticks[i..], queue, setup).log
      invariant Track(ticks, channel, setup).queue == Track(ticks[i..], queue, setup).queue
      invariant Track(ticks, channel, setup).ending == Track(ticks[i..], queue, setup).ending
    {
      assert ticks[i..][0] == ticks[i] && ticks[i..][1..] == ticks[i + 1..];
      var step := PollOnce(ticks[i], queue, setup);
      queue := step.queue;
      if step.StepQuit? {
        ending := Quitted;
        return;
      }
      if step.StepAbort? {
        ending := Panicked(step.reason);
        return;
      }
      assert log + (step.actions + Track(ticks[i + 1..], queue, setup).log)
          == (log + step.actions) + Track(ticks[i + 1..], queue, setup).log;
      log := log + step.actions;
      i := i + 1;
    }
    assert ticks[i..] == [];
    ending := Tracking;
  }

  /**
   * The background thread: discovery, one initial publish, then the tick
   * loop for that player; a quit goes back to discovery.
   */
  method RunTracker(sessions: seq<Session>, setup: Setup)
    returns (log: seq<Action>, channel: seq<PlayerCommand>, ending: Ending)
    ensures Outcome(log, channel, ending) == Run(sessions, [], setup)
  {
    log, channel := [], [];
    var k := 0;
    while k < |sessions|
      invariant 0 <= k <= |sessions|
      invariant Run(sessions, [], setup) == Then(log, Run(sessions[k..], channel, setup))
    {
      var session := sessions[k];
      assert sessions[k..][0] == session && sessions[k..][1..] == sessions[k + 1..];
      var found := GetPlayer(session.busOk, session.finds);
      if found.Err? {
        ending := Panicked(found.error);
        return;
      }
      if found.value.Searching? {
        ending := Discovering;
        return;
      }
      var information := GetMetadata(found.value.player, setup.location, setup.offset, setup.env);
      if information.Err? {
        ending := Panicked(information.error);
        return;
      }
      if !session.trackerOk {
        log := log + [Publish(information.value)];
        ending := Panicked(TrackerUnavailable);
        return;
      }
      ghost var t := Track(session.ticks, channel, setup);
      var actions, queue, stop := TrackPlayer(session.ticks, channel, setup);
      ThenThen(log, [Publish(information.value)], AfterTrack(t, sessions[k + 1..], setup));
      if stop != Quitted {
        log, channel, ending := log + [Publish(information.value)] + actions, queue, stop;
        return;
      }
      ThenThen(log + [Publish(information.value)], actions, Run(sessions[k + 1..], queue, setup));
      log, channel := log + [Publish(information.value)] + actions, queue;
      k := k + 1;
    }
    ending := Discovering;
  }

  // Publication to the UI

  /**
   * The UI's idle callback as written: the published snapshot replaces
   * the UI's data wholesale, its `minimize` flag included.
   */
  function Install(data: Info, published: Info): (installed: Info)
    ensures installed == published
  {
    published
  }

  /**
   * Installing a snapshot (whose `minimize` is always false) while the
   * widget is minimized forgets that it is: the window stays small, and
   * the next minimize click shrinks it again instead of restoring it.
   */
  lemma InstallForgetsMinimize(data: Info, player: Player, setup: Setup, rect: Ui.Rect)
    requires data.minimize && SnapshotIn(player, setup).Ok?
    ensures var installed := Install(data, SnapshotIn(player, setup).value);
            && !installed.minimize
            && Ui.SizeFor(data.minimize) == Ui.MinimizedSize
            && Ui.ToggleGeometry(installed, rect).0 == Ui.MinimizedSize
  {
  }

  /**
   * The callback as intended: the snapshot replaces the player data while
   * the UI keeps its own `minimize` flag.
   */
  function InstallKeepingMinimize(data: Info, published: Info): (installed: Info)
    ensures Same(installed, published) && installed.minimize == data.minimize
    ensures installed.location == published.location && installed.offset == published.offset
  {
    published.(minimize := data.minimize)
  }

  /** With the intended callback, a minimize click after a publish always changes the window's size. */
  lemma InstallKeepsToggleWorking(data: Info, published: Info, rect: Ui.Rect)
    ensures var installed := InstallKeepingMinimize(data, published);
            Ui.SizeFor(installed.minimize) == Ui.SizeFor(data.minimize)
            && Ui.ToggleGeometry(installed, rect).0 != Ui.SizeFor(data.minimize)
  {
  }

  /**
   * The UI's data after the publishes of a log, each installed in order by
   * the idle callback `install`.
   */
  function Displayed(install: (Info, Info) -> Info, data: Info, log: seq<Action>): Info
    decreases |log|
  {
    if log == [] then data
    else Displayed(install, if log[0].Publish? then install(data, log[0].info) else data, log[1..])
  }

  /** A log without publishes leaves the UI's data untouched, whatever the callback. */
  lemma {:induction false} DisplayedUntouched(install: (Info, Info) -> Info, data: Info, log: seq<Action>)
    requires forall j :: 0 <= j < |log| ==> !log[j].Publish?
    ensures Displayed(install, data, log) == data
    decreases |log|
  {
    if log != [] {
      DisplayedUntouched(install, data, log[1..]);
    }
  }

  /**
   * Whatever the callback, only the last publish of a log matters after
   * the data it is installed over: the UI ends with that snapshot installed
   * over the data shown just before it.
   */
  lemma {:induction false} DisplayedSplit(install: (Info, Info) -> Info, data: Info, log: seq<Action>, k: nat)
    requires k < |log| && log[k].Publish? && forall j :: k < j < |log| ==> !log[j].Publish?
    ensures Displayed(install, data, log) == install(Displayed(install, data, log[..k]), log[k].info)
    decreases |log|
  {
    var next := if log[0].Publish? then install(data, log[0].info) else data;
    if k == 0 {
      DisplayedUntouched(install, next, log[1..]);
    } else {
      assert log[1..][k - 1] == log[k];
      DisplayedSplit(install, next, log[1..], k - 1);
      assert log[..k][1..] == log[1..][..k - 1];
    }
  }

  /** The intended callback never changes the UI's `minimize` flag, however many publishes. */
  lemma {:induction false} DisplayedKeepsMinimize(data: Info, log: seq<Action>)
    ensures Displayed(InstallKeepingMinimize, data, log).minimize == data.minimize
    decreases |log|
  {
    if log != [] {
      var next := if log[0].Publish? then InstallKeepingMinimize(data, log[0].info) else data;
      DisplayedKeepsMinimize(next, log[1..]);
    }
  }

  /**
   * Last write wins with the callback as written: the UI shows exactly the
   * last snapshot published in the log, its `minimize` flag included, and
   * is untouched by a log without publishes.
   */
  lemma DisplayedAsWrittenIsLastPublish(data: Info, log: seq<Action>, k: nat)
    requires k < |log| && log[k].Publish? && forall j :: k < j < |log| ==> !log[j].Publish?
    ensures Displayed(Install, data, log) == log[k].info
  {
    DisplayedSplit(Install, data, log, k);
  }

  /**
   * Last write wins with the intended callback: the UI shows the last
   * snapshot published in the log, with its own `minimize` flag.
   */
  lemma DisplayedIsLastPublish(data: Info, log: seq<Action>, k: nat)
    requires k < |log| && log[k].Publish? && forall j :: k < j < |log| ==> !log[j].Publish?
    ensures Displayed(InstallKeepingMinimize, data, log) == log[k].info.(minimize := data.minimize)
  {
    DisplayedSplit(InstallKeepingMinimize, data, log, k);
    DisplayedKeepsMinimize(data, log[..k]);
  }
}
