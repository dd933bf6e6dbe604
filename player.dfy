/** The playback worker: one sink, fed by a channel of commands that it applies one at a
    time, front to back. The audio library is reduced to the sink's observable state (the
    sources it holds and whether it is paused); opening and decoding a file is an oracle. */
module Player {
  import opened Protocol

  /** A decoded source on the sink; `looping` marks the infinite-repeat wrapper. */
  datatype Src = Src(path: string, looping: bool)

  /** What the worker gets when it opens and decodes the file of a Play or PlayLoop. */
  datatype Load = OpenFails | DecodeFails | Decodes

  /** What can be observed of the sink. */
  datatype SinkState = SinkState(queue: seq<Src>, paused: bool)

  /** A newly created sink holds nothing and is not paused. */
  const Fresh := SinkState([], false)

  /** The audio sink the worker owns. */
  class Sink {
    var queue: seq<Src>
    var paused: bool

    function State(): SinkState
      reads this
    {
      SinkState(queue, paused)
    }

    constructor ()
      ensures State() == Fresh
    {
      queue := [];
      paused := false;
    }

    /** Drops every source; the pause flag is left alone. */
    method Stop()
      modifies this
      ensures queue == [] && paused == old(paused)
    {
      queue := [];
    }

    method Append(src: Src)
      modifies this
      ensures queue == old(queue) + [src] && paused == old(paused)
    {
      queue := queue + [src];
    }

    method Play()
      modifies this
      ensures queue == old(queue) && !paused
    {
      paused := false;
    }

    method Pause()
      modifies this
      ensures queue == old(queue) && paused
    {
      paused := true;
    }
  }

  /** The effect of one command on the sink: the specification the worker is proved against. */
  function Step(s: SinkState, m: Message, l: Load): (t: SinkState)
    ensures t.queue == s.queue || |t.queue| <= 1
    ensures !SetsQueue(m, l) ==> t.queue == s.queue
    ensures !SetsPause(m, l) ==> t.paused == s.paused
  {
    match m
    case Play(path) => Install(s, Src(path, false), l)
    case PlayLoop(path) => Install(s, Src(path, true), l)
    case Pause => s.(paused := true)
    case Resume => s.(paused := false)
    case Stop => s.(queue := [])
  }

  /** Play or PlayLoop: an unopenable file is skipped before the sink is touched; once the
      file is open the sink is stopped, and only a successful decode refills and plays it. */
  function Install(s: SinkState, src: Src, l: Load): (t: SinkState)
    ensures t == s || t.queue == [] || t == SinkState([src], false)
    ensures t.paused != s.paused ==> t == SinkState([src], false)
    ensures t.queue != s.queue && t.queue != [] ==> t == SinkState([src], false)
  {
    match l
    case OpenFails => s
    case DecodeFails => s.(queue := [])
    case Decodes => SinkState([src], false)
  }

  /** The sink after the worker has drained `msgs`, the i-th command meeting `loads[i]`. */
  function Run(s: SinkState, msgs: seq<Message>, loads: seq<Load>): SinkState
    requires |loads| == |msgs|
    decreases |msgs|
  {
    if msgs == [] then s else Run(Step(s, msgs[0], loads[0]), msgs[1..], loads[1..])
  }

  /** One pass of the worker's loop body: the match on the received message. */
  method Dispatch(sink: Sink, m: Message, l: Load)
    modifies sink
    ensures sink.State() == Step(old(sink.State()), m, l)
  {
    match m
    case Play(path) =>
      if l == OpenFails {
        return;
      }
      sink.Stop();
      if l == Decodes {
        sink.Append(Src(path, false));
        sink.Play();
      }
    case PlayLoop(path) =>
      if l == OpenFails {
        return;
      }
      sink.Stop();
      if l == Decodes {
        sink.Append(Src(path, true));
        sink.Play();
      }
    case Pause =>
      sink.Pause();
    case Resume =>
      sink.Play();
    case Stop =>
      sink.Stop();
  }

  /** How the worker ends: the process exits when no output device can be had, and
      otherwise the loop returns once the channel has nothing more to give. */
  datatype Exit = Exited(code: int) | Drained(final: SinkState)

  /** The worker thread. `streamOk` and `sinkOk` say whether the default output stream and
      a sink on it can be created; `trace[i]` is the sink after the first i commands. */
  method Paly(streamOk: bool, sinkOk: bool, rx: seq<Message>, loads: seq<Load>)
    returns (exit: Exit, ghost trace: seq<SinkState>)
    requires |loads| == |rx|
    ensures !(streamOk && sinkOk) ==> exit == Exited(-1) && trace == []
    ensures streamOk && sinkOk ==> exit == Drained(Run(Fresh, rx, loads))
    ensures streamOk && sinkOk ==> |trace| == |rx| + 1 && trace[0] == Fresh && trace[|rx|] == exit.final
    ensures streamOk && sinkOk ==>
      forall i :: 0 <= i < |rx| ==> trace[i + 1] == Step(trace[i], rx[i], loads[i])
  {
    if !streamOk || !sinkOk {
      return Exited(-1), [];
    }
    var sink := new Sink();
    trace := [sink.State()];
    for i := 0 to |rx|
      invariant |trace| == i + 1 && trace[0] == Fresh && trace[i] == sink.State()
      invariant forall k :: 0 <= k < i ==> trace[k + 1] == Step(trace[k], rx[k], loads[k])
      invariant Run(sink.State(), rx[i..], loads[i..]) == Run(Fresh, rx, loads)
    {
      assert rx[i..][1..] == rx[i + 1..] && loads[i..][1..] == loads[i + 1..];
      Dispatch(sink, rx[i], loads[i]);
      trace := trace + [sink.State()];
    }
    exit := Drained(sink.State());
  }

  /** The worker's history composes: draining `a` and then `b` is draining `a + b`. */
  lemma {:induction false} RunAppend(s: SinkState, a: seq<Message>, la: seq<Load>, b: seq<Message>, lb: seq<Load>)
    requires |la| == |a| && |lb| == |b|
    ensures Run(s, a + b, la + lb) == Run(Run(s, a, la), b, lb)
    decreases |a|
  {
    if a == [] {
      assert a + b == b && la + lb == lb;
    } else {
      assert (a + b)[1..] == a[1..] + b && (la + lb)[1..] == la[1..] + lb;
      RunAppend(Step(s, a[0], la[0]), a[1..], la[1..], b, lb);
    }
  }

  /** Draining one more command is one more Step on the state reached so far. */
  lemma RunSnoc(s: SinkState, msgs: seq<Message>, loads: seq<Load>, m: Message, l: Load)
    requires |loads| == |msgs|
    ensures Run(s, msgs + [m], loads + [l]) == Step(Run(s, msgs, loads), m, l)
  {
    RunAppend(s, msgs, loads, [m], [l]);
  }

  /** Whether a command, meeting `l`, replaces the sink's sources. */
  predicate SetsQueue(m: Message, l: Load) {
    m.Stop? || (m.NamesFile() && !l.OpenFails?)
  }

  /** Whether a command, meeting `l`, sets or clears the pause flag. */
  predicate SetsPause(m: Message, l: Load) {
    m.Pause? || m.Resume? || (m.NamesFile() && l.Decodes?)
  }

  /** Reference definition of the final sources: those left by the last command that
      replaced them, or the initial ones when no command did. */
  function LastQueue(q0: seq<Src>, msgs: seq<Message>, loads: seq<Load>): seq<Src>
    requires |loads| == |msgs|
    decreases |msgs|
  {
    if msgs == [] then q0
    else
      var n := |msgs| - 1;
      if !SetsQueue(msgs[n], loads[n]) then LastQueue(q0, msgs[..n], loads[..n])
      else if msgs[n].Stop? || loads[n].DecodeFails? then []
      else [Src(msgs[n].path, msgs[n].PlayLoop?)]
  }

  /** Reference definition of the final pause flag: set by the last command that touched
      it (a Pause sets it; a Resume or a successfully decoded Play/PlayLoop clears it). */
  function LastPaused(p0: bool, msgs: seq<Message>, loads: seq<Load>): bool
    requires |loads| == |msgs|
    decreases |msgs|
  {
    if msgs == [] then p0
    else
      var n := |msgs| - 1;
      if !SetsPause(msgs[n], loads[n]) then LastPaused(p0, msgs[..n], loads[..n])
      else msgs[n].Pause?
  }

  /** The sink after draining the channel is decided by the last commands that touched
      each part of it; nothing is coalesced and nothing earlier leaks through. */
  lemma {:induction false} RunIsLastWriteWins(s: SinkState, msgs: seq<Message>, loads: seq<Load>)
    requires |loads| == |msgs|
    ensures Run(s, msgs, loads) == SinkState(LastQueue(s.queue, msgs, loads), LastPaused(s.paused, msgs, loads))
    decreases |msgs|
  {
    if msgs != [] {
      var n := |msgs| - 1;
      RunIsLastWriteWins(s, msgs[..n], loads[..n]);
      RunSnoc(s, msgs[..n], loads[..n], msgs[n], loads[n]);
      assert msgs[..n] + [msgs[n]] == msgs && loads[..n] + [loads[n]] == loads;
    }
  }

  /** Audio never overlaps: starting from at most one source, the sink never holds two. */
  lemma {:induction false} AtMostOneSource(s: SinkState, msgs: seq<Message>, loads: seq<Load>)
    requires |loads| == |msgs|
    requires |s.queue| <= 1
    ensures |Run(s, msgs, loads).queue| <= 1
    decreases |msgs|
  {
    if msgs != [] {
      AtMostOneSource(Step(s, msgs[0], loads[0]), msgs[1..], loads[1..]);
    }
  }

  /** Every source the sink ends up holding was there already or was named by a drained
      command, so a property of all those paths holds of what the sink plays. */
  lemma {:induction false} SourcesComeFromCommands(s: SinkState, msgs: seq<Message>, loads: seq<Load>, ok: string -> bool)
    requires |loads| == |msgs|
    requires forall src :: src in s.queue ==> ok(src.path)
    requires forall m :: m in msgs && m.NamesFile() ==> ok(m.path)
    ensures forall src :: src in Run(s, msgs, loads).queue ==> ok(src.path)
    decreases |msgs|
  {
    if msgs != [] {
      assert msgs[0] in msgs;
      assert forall m :: m in msgs[1..] ==> m in msgs;
      SourcesComeFromCommands(Step(s, msgs[0], loads[0]), msgs[1..], loads[1..], ok);
    }
  }

  /** Supersede-on-play: once a Play or PlayLoop has been decoded, what the sink held
      before it no longer matters. */
  lemma SuccessfulPlayForgetsHistory(s1: SinkState, s2: SinkState, msgs: seq<Message>, loads: seq<Load>, k: nat)
    requires |loads| == |msgs| && k < |msgs|
    requires msgs[k].NamesFile() && loads[k].Decodes?
    ensures Run(s1, msgs, loads) == Run(s2, msgs, loads)
  {
    var pre, lpre := msgs[..k], loads[..k];
    var post, lpost := msgs[k + 1..], loads[k + 1..];
    assert msgs == pre + [msgs[k]] + post && loads == lpre + [loads[k]] + lpost;
    RunAppend(s1, pre + [msgs[k]], lpre + [loads[k]], post, lpost);
    RunAppend(s2, pre + [msgs[k]], lpre + [loads[k]], post, lpost);
    RunSnoc(s1, pre, lpre, msgs[k], loads[k]);
    RunSnoc(s2, pre, lpre, msgs[k], loads[k]);
  }

  /** Of two decoded Plays drained in a row, the later one is what the sink plays. */
  lemma LaterPlayWins(s: SinkState, pa: string, pb: string)
    ensures Run(s, [Message.Play(pa), Message.Play(pb)], [Decodes, Decodes]) == SinkState([Src(pb, false)], false)
  {
    var ch := [Message.Play(pa), Message.Play(pb)];
    var t := Step(s, Message.Play(pa), Decodes);
    assert ch[1..] == [Message.Play(pb)] && [Decodes, Decodes][1..] == [Decodes];
    assert Run(s, ch, [Decodes, Decodes]) == Run(t, [Message.Play(pb)], [Decodes]);
    assert Run(t, [Message.Play(pb)], [Decodes]) == Step(t, Message.Play(pb), Decodes);
  }
  /** A Play or PlayLoop whose file cannot be opened leaves the sink exactly as it was,
      and the worker goes on with the next command. */
  lemma OpenFailureIsSkipped(s: SinkState, m: Message, rest: seq<Message>, lrest: seq<Load>)
    requires m.NamesFile() && |lrest| == |rest|
    ensures Step(s, m, OpenFails) == s
    ensures Run(s, [m] + rest, [OpenFails] + lrest) == Run(s, rest, lrest)
  {
    assert ([m] + rest)[1..] == rest && ([OpenFails] + lrest)[1..] == lrest;
  }

  /** A decoded Play or PlayLoop stops the sink first: afterwards it holds exactly the new
      source and plays it, even if it was paused before. */
  lemma DecodedPlayReplaces(s: SinkState, m: Message)
    requires m.NamesFile()
    ensures Step(s, m, Decodes) == SinkState([Src(m.path, m.PlayLoop?)], false)
  {
  }

  /** A file that opens but does not decode leaves the sink stopped and empty, not with
      the previous track, and does not touch the pause flag. */
  lemma DecodeFailureEmptiesSink(s: SinkState, m: Message)
    requires m.NamesFile()
    ensures Step(s, m, DecodeFails) == SinkState([], s.paused)
  {
  }

  /** PlayLoop is Play with the source wrapped to repeat forever, and nothing else. */
  lemma PlayLoopOnlyLoops(s: SinkState, path: string, l: Load)
    ensures Step(s, PlayLoop(path), l)
         == if l.Decodes? then Step(s, Play(path), l).(queue := [Src(path, true)]) else Step(s, Play(path), l)
  {
  }

  /** Pause, Resume and Stop each touch one part of the sink, ignore the load oracle, and
      applying one twice is applying it once. */
  lemma ControlsAreIdempotent(s: SinkState, m: Message, l1: Load, l2: Load)
    requires !m.NamesFile()
    ensures m.Stop? ==> Step(s, m, l1).paused == s.paused
    ensures !m.Stop? ==> Step(s, m, l1).queue == s.queue
    ensures Step(s, m, l1) == Step(s, m, l2)
    ensures Step(Step(s, m, l1), m, l2) == Step(s, m, l1)
  {
  }

  /** The sources left after every finite one has played to its end: a looping source
      never ends, so it and whatever is queued behind it stay. */
  function AfterNaturalEnd(q: seq<Src>): (r: seq<Src>)
    ensures r == [] || r[0].looping
    ensures |r| <= |q| && r == q[|q| - |r|..]
    ensures forall i :: 0 <= i < |q| - |r| ==> !q[i].looping
    decreases |q|
  {
    if q == [] then []
    else if q[0].looping then q
    else AfterNaturalEnd(q[1..])
  }

  /** A decoded PlayLoop is still there however long it plays; a decoded Play runs out. */
  lemma LoopOutlastsItsFile(s: SinkState, path: string)
    ensures AfterNaturalEnd(Step(s, PlayLoop(path), Decodes).queue) == [Src(path, true)]
    ensures AfterNaturalEnd(Step(s, Play(path), Decodes).queue) == []
  {
  }

  /** The playback states a listener can tell apart. */
  datatype Mode = Idle | Playing | Paused

  function ModeOf(s: SinkState): Mode {
    if s.queue == [] then Idle else if s.paused then Paused else Playing
  }

  /** Pause on a paused sink, Resume on a playing one and Stop on an empty one change
      nothing at all. */
  lemma ControlNoOps(s: SinkState, l: Load)
    ensures s.paused ==> Step(s, Pause, l) == s
    ensures !s.paused ==> Step(s, Resume, l) == s
    ensures s.queue == [] ==> Step(s, Stop, l) == s
  {
  }

  /** Two sinks with the same sources, and the same pause flag whenever they hold any,
      stay indistinguishable to a listener whatever the worker drains next: a source is
      only ever installed together with a cleared pause flag. */
  lemma {:induction false} IdleFlagIsUnobservable(s1: SinkState, s2: SinkState, msgs: seq<Message>, loads: seq<Load>)
    requires |loads| == |msgs|
    requires s1.queue == s2.queue && (s1.queue != [] ==> s1.paused == s2.paused)
    ensures Run(s1, msgs, loads).queue == Run(s2, msgs, loads).queue
    ensures ModeOf(Run(s1, msgs, loads)) == ModeOf(Run(s2, msgs, loads))
    decreases |msgs|
  {
    if msgs != [] {
      IdleFlagIsUnobservable(Step(s1, msgs[0], loads[0]), Step(s2, msgs[0], loads[0]), msgs[1..], loads[1..]);
    }
  }

  /** Pause while idle is a no-op for a listener: the sink stays idle, and from then on
      every run of commands sounds the same as without that Pause. */
  lemma PauseWhileIdleIsUnobservable(s: SinkState, l: Load, msgs: seq<Message>, loads: seq<Load>)
    requires s.queue == [] && |loads| == |msgs|
    ensures ModeOf(Step(s, Pause, l)) == ModeOf(s) == Idle
    ensures Run(Step(s, Pause, l), msgs, loads).queue == Run(s, msgs, loads).queue
    ensures ModeOf(Run(Step(s, Pause, l), msgs, loads)) == ModeOf(Run(s, msgs, loads))
  {
    IdleFlagIsUnobservable(Step(s, Pause, l), s, msgs, loads);
  }

  /** Play "x", Pause, Resume, Stop, then Play "x" again, every file decoding: the sink is
      idle after the Stop and plays "x" afresh after the second Play. */
  lemma ReplayScenario(x: string)
    ensures var msgs := [Message.Play(x), Message.Pause, Message.Resume, Message.Stop];
      var loads := [Decodes, Decodes, Decodes, Decodes];
      ModeOf(Run(Fresh, msgs, loads)) == Idle &&
      Run(Fresh, msgs + [Message.Play(x)], loads + [Decodes]) == SinkState([Src(x, false)], false)
  {
    var msgs := [Message.Play(x), Message.Pause, Message.Resume, Message.Stop];
    var loads := [Decodes, Decodes, Decodes, Decodes];
    RunIsLastWriteWins(Fresh, msgs, loads);
    RunSnoc(Fresh, msgs, loads, Message.Play(x), Decodes);
  }
}
