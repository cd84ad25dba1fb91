/** App: recording every track of a multitrack MIDI file as its own audio
    stem, one AudioRecorder per track against one shared sequencer, and the
    track the splitter works on. */
module App {
  import opened Base
  import opened AudioHelp
  import opened Devices
  import opened MidiHelp
  import opened Recorder

  // ---------------------------------------------------------------------
  // splitTrack

  /** The track splitTrack hands to the splitter: index 1 of the
      sequence's tracks. Java array indexing fails (None) when the sequence
      has fewer than two tracks. */
  function TrackToSplit<T>(tracks: seq<T>): (r: Option<T>)
  {
    if 1 < |tracks| then Some(tracks[1]) else None
  }

  /** The splitter gets a track exactly when the file has a second track,
      and then it gets that one, never the first. */
  lemma SplitsSecondTrack<T>(tracks: seq<T>)
    ensures TrackToSplit(tracks).Some? <==> |tracks| >= 2
    ensures |tracks| >= 2 ==> TrackToSplit(tracks) == Some(tracks[1])
    ensures |tracks| >= 2 && tracks[0] != tracks[1] ==> TrackToSplit(tracks) != Some(tracks[0])
  {
  }

  // ---------------------------------------------------------------------
  // recordMultitrackMidi

  /** What the environment does for one track: whether getTargetDataLine
      hands out a line, whether opening that line fails, the blocks the line
      delivers, the clock readings of the pre-roll and tail loops, and
      whether the WAV file can be written. */
  datatype Take = Take(
    obtainable: bool,
    openFails: bool,
    feed: seq<seq<byte>>,
    preClock: seq<int>,
    tailClock: seq<int>,
    writeOk: bool)

  /** A take the recorder can be run on: no block exceeds the line's
      buffer, and the clock readings end both timed loops. */
  predicate Feasible(k: Take)
  {
    Bounded(k.feed) && ClockWindow(k.preClock, PreRollMillis) && ClockWindow(k.tailClock, TailMillis)
  }

  predicate AllFeasible(takes: seq<Take>)
  {
    forall i :: 0 <= i < |takes| ==> Feasible(takes[i])
  }

  /** Why a run ended early with a stack trace: getReceiver found no MIDI
      device at all, or no line could be obtained for a track. */
  datatype Fault = NoMidiDevices | LineUnavailable(track: nat)

  /** Why a run ended with an exception nothing catches: no mixer has the
      given name (the log line dereferences the null mixer), or the chosen
      mixer offers no TargetDataLine (getTargetDataLine throws
      IllegalArgumentException, which the catch does not list). */
  datatype Crash = MixerMissing | LineNotSupported

  /** How recordMultitrackMidi ends: normally, by a caught exception, or by
      an exception nothing catches. */
  datatype Outcome = Finished | Aborted(fault: Fault) | Crashed(crash: Crash)

  /** The calls of the mute loop: setTrackMute(j, true) for every track, in
      ascending order. */
  function MuteAll(n: nat): (calls: seq<Call>)
    ensures |calls| == n
  {
    seq(n, j => SetTrackMute(j, true))
  }

  /** The recording run() makes of track t with the given take, when the
      sequencer has the answers `polls` left. */
  function TrackSession(t: int, k: Take, polls: seq<bool>): Capture
    requires Feasible(k)
  {
    Session(t, k.feed, polls, |k.preClock| - 1, |k.tailClock| - 1)
  }

  /** What run() leaves behind for one track: the calls it made on the
      sequencer and the line, the file it wrote if any, and the sequencer's
      isRunning() answers still to come. */
  datatype TrackRun = TrackRun(calls: seq<Call>, file: Option<WavFile>, polls: seq<bool>)

  /** run() on track t with take k, when the sequencer has the answers
      `polls` left: only the open attempt when the line cannot be opened;
      otherwise the whole session, whose audio becomes a file when it can
      be written. */
  function RunOf(t: int, k: Take, polls: seq<bool>): (r: TrackRun)
    requires Feasible(k)
    ensures r.file.Some? <==> !k.openFails && k.writeOk
    ensures r.file.Some? ==> r.file.value.name == RecordingName(t) && r.file.value.format == CD_AUDIO
  {
    if k.openFails then
      TrackRun([OpenLine(CD_AUDIO, ChunkSize)], None, polls)
    else
      var s := TrackSession(t, k, polls);
      TrackRun(s.calls, if k.writeOk then Some(WavOf(t, Flatten(s.pieces))) else None, AfterPlayback(polls))
  }

  /** The isRunning() answers left after the given runs. */
  function PollsLeft(runs: seq<TrackRun>, polls: seq<bool>): seq<bool>
  {
    if runs == [] then polls else runs[|runs| - 1].polls
  }

  /** runs are the first |runs| iterations of the per-track loop over the
      takes: run i is track i recorded on the answers the run before left. */
  predicate Consistent(takes: seq<Take>, runs: seq<TrackRun>, polls: seq<bool>)
    requires AllFeasible(takes)
  {
    && |runs| <= |takes|
    && forall i :: 0 <= i < |runs| ==> runs[i] == RunOf(i, takes[i], PollsLeft(runs[..i], polls))
  }

  /** All calls of the runs, in order. */
  function CallsOf(runs: seq<TrackRun>): seq<Call>
  {
    if runs == [] then [] else CallsOf(runs[..|runs| - 1]) + runs[|runs| - 1].calls
  }

  function Listed<T>(o: Option<T>): seq<T>
  {
    if o.Some? then [o.value] else []
  }

  /** The files the runs wrote, in order. */
  function FilesOf(runs: seq<TrackRun>): seq<WavFile>
  {
    if runs == [] then [] else FilesOf(runs[..|runs| - 1]) + Listed(runs[|runs| - 1].file)
  }

  /** The tracks whose runs wrote a file, one per file. */
  function WrittenOf(runs: seq<TrackRun>): (w: seq<int>)
    ensures |w| == |FilesOf(runs)|
  {
    if runs == [] then [] else WrittenOf(runs[..|runs| - 1]) + (if runs[|runs| - 1].file.Some? then [|runs| - 1] else [])
  }

  /** How many tracks the per-track loop got through. */
  function Done(outcome: Outcome, trackCount: nat): nat
  {
    match outcome
    case Finished => trackCount
    case Aborted(LineUnavailable(n)) => n
    case _ => 0
  }

  /** No name-matching mixer: getMixer returns null. */
  predicate NoMixerNamed(mixers: seq<MixerInfo>, mixerName: string)
  {
    forall j :: 0 <= j < |mixers| ==> !NameMatches(mixers[j], mixerName)
  }

  /** No name-matching mixer supports a TargetDataLine: whatever getMixer
      returns cannot give a capture line. */
  predicate NoUsableMixer(mixers: seq<MixerInfo>, mixerName: string)
  {
    forall j :: 0 <= j < |mixers| ==> !Usable(mixers[j], mixerName)
  }

  /** The mute loop: every track of the sequence is muted, in order. */
  method MuteAllTracks(sequencer: Sequencer, trackCount: nat) returns (calls: seq<Call>)
    requires sequencer.Valid() && |sequencer.mute| == trackCount
    modifies sequencer, sequencer.log
    ensures calls == MuteAll(trackCount)
    ensures sequencer.log.calls == old(sequencer.log.calls) + calls
    ensures sequencer.Valid() && sequencer.State() == Replay(old(sequencer.State()), calls)
    ensures sequencer.position == old(sequencer.position) && sequencer.running == old(sequencer.running)
    ensures sequencer.polls == old(sequencer.polls)
  {
    calls := [];
    for j := 0 to trackCount
      invariant calls == MuteAll(j)
      invariant sequencer.Valid() && |sequencer.mute| == trackCount
      invariant sequencer.State() == Replay(old(sequencer.State()), calls)
      invariant sequencer.position == old(sequencer.position) && sequencer.running == old(sequencer.running)
      invariant sequencer.polls == old(sequencer.polls)
      invariant sequencer.log.calls == old(sequencer.log.calls) + calls
    {
      sequencer.SetTrackMute(j, true);
      assert (calls + [SetTrackMute(j, true)])[..j] == calls;
      AppendAssoc(old(sequencer.log.calls), calls, [SetTrackMute(j, true)]);
      calls := calls + [SetTrackMute(j, true)];
    }
  }

  /** One iteration of the per-track loop: a new line from the mixer and a
      new recorder on it, run once. */
  method RecordTrack(sequencer: Sequencer, t: nat, k: Take) returns (trackCalls: seq<Call>, file: Option<WavFile>)
    requires sequencer.Valid() && Feasible(k)
    modifies sequencer, sequencer.log
    ensures TrackRun(trackCalls, file, sequencer.polls) == RunOf(t, k, old(sequencer.polls))
    ensures sequencer.log.calls == old(sequencer.log.calls) + trackCalls
    ensures sequencer.Valid() && |sequencer.mute| == old(|sequencer.mute|)
    ensures sequencer.State() == Replay(old(sequencer.State()), trackCalls)
  {
    var line := new CaptureLine(k.openFails, k.feed, sequencer.log);
    var recorder := new AudioRecorder(line, sequencer, t);
    trackCalls, file := recorder.Run(k.preClock, k.tailClock, k.writeOk);
    if k.openFails {
      OpenAttemptKeepsFlags(old(sequencer.State()));
    }
  }

  /** The per-track loop of recordMultitrackMidi: tracks 0, 1, ... in
      ascending order, each on a newly obtained line. The first track for
      which no line can be obtained ends the loop with the exception, which
      is caught outside it. The ghost runs are the iterations made. */
  method RecordTracks(sequencer: Sequencer, takes: seq<Take>)
    returns (outcome: Outcome, calls: seq<Call>, files: seq<WavFile>, ghost runs: seq<TrackRun>)
    requires sequencer.Valid() && |sequencer.mute| == |takes| && AllFeasible(takes)
    modifies sequencer, sequencer.log
    ensures outcome == Finished || (outcome.Aborted? && outcome.fault.LineUnavailable?)
    ensures outcome == Finished ==> forall j :: 0 <= j < |takes| ==> takes[j].obtainable
    ensures outcome.Aborted? ==>
      var n := outcome.fault.track;
      n < |takes| && !takes[n].obtainable && forall j :: 0 <= j < n ==> takes[j].obtainable
    ensures |runs| == Done(outcome, |takes|) && Consistent(takes, runs, old(sequencer.polls))
    ensures calls == CallsOf(runs) && files == FilesOf(runs)
    ensures sequencer.polls == PollsLeft(runs, old(sequencer.polls))
    ensures sequencer.Valid() && sequencer.State() == Replay(old(sequencer.State()), calls)
    ensures sequencer.log.calls == old(sequencer.log.calls) + calls
  {
    ghost var f0 := sequencer.State();
    ghost var polls0 := sequencer.polls;
    calls, files, runs := [], [], [];
    var i := 0;
    while i < |takes|
      invariant 0 <= i <= |takes| && |runs| == i
      invariant forall j :: 0 <= j < i ==> takes[j].obtainable
      invariant Consistent(takes, runs, polls0)
      invariant calls == CallsOf(runs) && files == FilesOf(runs) && sequencer.polls == PollsLeft(runs, polls0)
      invariant sequencer.Valid() && |sequencer.mute| == |takes|
      invariant sequencer.State() == Replay(f0, calls)
      invariant sequencer.log.calls == old(sequencer.log.calls) + calls
    {
      if !takes[i].obtainable {
        outcome := Aborted(LineUnavailable(i));
        return;
      }
      var trackCalls, file := RecordTrack(sequencer, i, takes[i]);
      ghost var run := TrackRun(trackCalls, file, sequencer.polls);
      ConsistentSnoc(takes, runs, run, polls0);
      ReplayConcat(f0, calls, trackCalls);
      AppendAssoc(old(sequencer.log.calls), calls, trackCalls);
      runs := runs + [run];
      calls := calls + trackCalls;
      files := files + Listed(file);
      i := i + 1;
    }
    outcome := Finished;
  }

  /** recordMultitrackMidi, from the moment the sequencer holds the
      sequence: mute every track; look up the MIDI receiver (no device at
      all aborts the run); look up the mixer (none by that name crashes the
      run at the log line that dereferences it); then record the tracks. A
      mixer without a TargetDataLine crashes the run at the first track. A
      line that cannot be obtained aborts the loop, and the tracks after it
      are not recorded; a line that cannot be opened only loses its own
      track. */
  method RecordMultitrackMidi(sequencer: Sequencer, port: int, midiInterface: string, devices: seq<string>,
                              mixerName: string, mixers: seq<MixerInfo>, takes: seq<Take>)
    returns (outcome: Outcome, calls: seq<Call>, files: seq<WavFile>, ghost runs: seq<TrackRun>)
    requires sequencer.Valid() && |sequencer.mute| == |takes| && AllFeasible(takes)
    modifies sequencer, sequencer.log
    ensures |devices| == 0 ==> outcome == Aborted(NoMidiDevices)
    ensures |devices| > 0 && NoMixerNamed(mixers, mixerName) ==> outcome == Crashed(MixerMissing)
    ensures |devices| > 0 && !NoMixerNamed(mixers, mixerName) && NoUsableMixer(mixers, mixerName) && |takes| > 0
      ==> outcome == Crashed(LineNotSupported)
    ensures |devices| > 0 && !NoMixerNamed(mixers, mixerName) && (!NoUsableMixer(mixers, mixerName) || |takes| == 0)
      ==> outcome == Finished || (outcome.Aborted? && outcome.fault.LineUnavailable?)
    ensures outcome == Finished ==> forall j :: 0 <= j < |takes| ==> takes[j].obtainable
    ensures outcome.Aborted? && outcome.fault.LineUnavailable? ==>
      var n := outcome.fault.track;
      n < |takes| && !takes[n].obtainable && forall j :: 0 <= j < n ==> takes[j].obtainable
    ensures |runs| == Done(outcome, |takes|) && Consistent(takes, runs, old(sequencer.polls))
    ensures calls == MuteAll(|takes|) + CallsOf(runs) && files == FilesOf(runs)
    ensures sequencer.polls == PollsLeft(runs, old(sequencer.polls))
    ensures sequencer.Valid() && sequencer.State() == Replay(old(sequencer.State()), calls)
    ensures sequencer.log.calls == old(sequencer.log.calls) + calls
  {
    ghost var f0 := sequencer.State();
    calls := MuteAllTracks(sequencer, |takes|);
    files, runs := [], [];
    var lookup := GetReceiver(port, midiInterface, devices);
    if lookup == NoDevices {
      outcome := Aborted(NoMidiDevices);
      assert calls == calls + [];
      return;
    }
    var mixer := GetMixer(mixerName, mixers);
    if mixer.None? {
      outcome := Crashed(MixerMissing);
      assert calls == calls + [];
      return;
    }
    if !mixers[mixer.value].supports.targetDataLine && |takes| > 0 {
      outcome := Crashed(LineNotSupported);
      assert calls == calls + [];
      return;
    }
    var muted := calls;
    var recorded;
    outcome, recorded, files, runs := RecordTracks(sequencer, takes);
    ReplayConcat(f0, muted, recorded);
    AppendAssoc(old(sequencer.log.calls), muted, recorded);
    calls := muted + recorded;
  }

  // ---------------------------------------------------------------------
  // The loop's iterations

  /** The loop's next iteration extends a consistent history. */
  lemma ConsistentSnoc(takes: seq<Take>, runs: seq<TrackRun>, run: TrackRun, polls: seq<bool>)
    requires AllFeasible(takes) && Consistent(takes, runs, polls) && |runs| < |takes|
    requires run == RunOf(|runs|, takes[|runs|], PollsLeft(runs, polls))
    ensures Consistent(takes, runs + [run], polls)
    ensures CallsOf(runs + [run]) == CallsOf(runs) + run.calls
    ensures FilesOf(runs + [run]) == FilesOf(runs) + Listed(run.file)
    ensures PollsLeft(runs + [run], polls) == run.polls
  {
    assert (runs + [run])[..|runs|] == runs;
    var next := runs + [run];
    forall i | 0 <= i < |next|
      ensures next[i] == RunOf(i, takes[i], PollsLeft(next[..i], polls))
    {
      assert next[..i] == runs[..i] || i == |runs|;
      if i == |runs| {
        assert next[..i] == runs;
      }
    }
  }

  /** The iterations are determined by the takes: two histories of the loop
      agree on every iteration both have made. */
  lemma {:induction false} ConsistentAgree(takes: seq<Take>, r1: seq<TrackRun>, r2: seq<TrackRun>, polls: seq<bool>, n: nat)
    requires AllFeasible(takes) && Consistent(takes, r1, polls) && Consistent(takes, r2, polls)
    requires n <= |r1| && n <= |r2|
    ensures r1[..n] == r2[..n]
    decreases n
  {
    if n > 0 {
      ConsistentAgree(takes, r1, r2, polls, n - 1);
      ConsistentAt(takes, r1, polls, n - 1);
      ConsistentAt(takes, r2, polls, n - 1);
      TakeOneMore(r1, n);
      TakeOneMore(r2, n);
    }
  }

  /** Iteration i of a history is determined by the iterations before it. */
  lemma ConsistentAt(takes: seq<Take>, runs: seq<TrackRun>, polls: seq<bool>, i: nat)
    requires AllFeasible(takes) && Consistent(takes, runs, polls) && i < |runs|
    ensures runs[i] == RunOf(i, takes[i], PollsLeft(runs[..i], polls))
  {
  }

  /** A prefix of a history is the history of the shorter loop. */
  lemma ConsistentPrefix(takes: seq<Take>, runs: seq<TrackRun>, polls: seq<bool>, m: nat)
    requires AllFeasible(takes) && Consistent(takes, runs, polls) && m <= |runs|
    ensures Consistent(takes, runs[..m], polls)
  {
    forall i | 0 <= i < m
      ensures runs[..m][i] == RunOf(i, takes[i], PollsLeft(runs[..m][..i], polls))
    {
      assert runs[..m][..i] == runs[..i];
    }
  }

  /** The calls and files of the first m runs begin those of all of them. */
  lemma {:induction false} ChainPrefix(runs: seq<TrackRun>, m: nat)
    requires m <= |runs|
    ensures CallsOf(runs[..m]) <= CallsOf(runs) && FilesOf(runs[..m]) <= FilesOf(runs)
    decreases |runs|
  {
    if m < |runs| {
      var init := runs[..|runs| - 1];
      ChainPrefix(init, m);
      assert init[..m] == runs[..m];
    } else {
      assert runs[..m] == runs;
    }
  }

  /** An abort keeps what was already recorded: the history up to the
      failing track is the history of the longer run cut short, and its
      calls and files begin those of the longer run. */
  lemma AbortKeepsPrefix(takes: seq<Take>, shorter: seq<TrackRun>, longer: seq<TrackRun>, polls: seq<bool>)
    requires AllFeasible(takes) && Consistent(takes, shorter, polls) && Consistent(takes, longer, polls)
    requires |shorter| <= |longer|
    ensures shorter == longer[..|shorter|]
    ensures CallsOf(shorter) <= CallsOf(longer) && FilesOf(shorter) <= FilesOf(longer)
  {
    ConsistentAgree(takes, shorter, longer, polls, |shorter|);
    assert shorter[..|shorter|] == shorter;
    ChainPrefix(longer, |shorter|);
  }

  // ---------------------------------------------------------------------
  // Properties of the whole run

  /** After the mute loop every track is muted and the solo flags are as
      they were. */
  lemma {:induction false} MuteAllReplay(f: Flags, j: nat)
    requires j <= |f.mute|
    ensures var r := Replay(f, MuteAll(j));
      && r.solo == f.solo && |r.mute| == |f.mute|
      && (forall t :: 0 <= t < j ==> r.mute[t])
      && (forall t :: j <= t < |f.mute| ==> r.mute[t] == f.mute[t])
    decreases j
  {
    if j > 0 {
      assert MuteAll(j)[..j - 1] == MuteAll(j - 1);
      MuteAllReplay(f, j - 1);
    }
  }

  /** A sequencer nobody has soloed is quiet once the mute loop is over. */
  lemma MuteAllQuiets(f: Flags)
    requires |f.mute| == |f.solo| && forall t :: 0 <= t < |f.solo| ==> !f.solo[t]
    ensures Quiet(Replay(f, MuteAll(|f.mute|)))
  {
    MuteAllReplay(f, |f.mute|);
  }

  lemma OpenAttemptKeepsFlags(f: Flags)
    ensures Replay(f, [OpenLine(CD_AUDIO, ChunkSize)]) == f
  {
    assert [OpenLine(CD_AUDIO, ChunkSize)][..0] == [];
  }

  /** One track's calls, from the quiet state, end in the quiet state. */
  lemma RunRestoresQuiet(f: Flags, t: int, k: Take, polls: seq<bool>)
    requires Quiet(f) && 0 <= t < |f.mute| && Feasible(k)
    ensures Replay(f, RunOf(t, k, polls).calls) == f
  {
    if k.openFails {
      OpenAttemptKeepsFlags(f);
    } else {
      assert RunOf(t, k, polls).calls == TrackSession(t, k, polls).calls;
      SessionRestoresQuiet(f, t, k.feed, polls, |k.preClock| - 1, |k.tailClock| - 1);
    }
  }

  /** At no point of the calls, replayed from f, is a track other than t
      unmuted or soloed. */
  predicate IsolatesOnly(f: Flags, calls: seq<Call>, t: int)
  {
    forall j :: 0 <= j <= |calls| ==> OnlyIsolated(Replay(f, calls[..j]), t)
  }

  /** At no point of the calls, replayed from f, is more than one track
      unmuted or soloed. */
  predicate IsolatedThroughout(f: Flags, calls: seq<Call>)
  {
    forall j :: 0 <= j <= |calls| ==> AtMostOneIsolated(Replay(f, calls[..j]))
  }

  /** From the quiet state, no prefix of one track's calls isolates any
      other track. */
  lemma RunIsolates(f: Flags, t: int, k: Take, polls: seq<bool>)
    requires Quiet(f) && 0 <= t < |f.mute| && Feasible(k)
    ensures IsolatesOnly(f, RunOf(t, k, polls).calls, t)
  {
    if k.openFails {
      OpenAttemptIsolates(f, t);
    } else {
      assert RunOf(t, k, polls).calls == TrackSession(t, k, polls).calls;
      SessionIsolation(f, t, k.feed, polls, |k.preClock| - 1, |k.tailClock| - 1);
    }
  }

  lemma OpenAttemptIsolates(f: Flags, t: int)
    requires Quiet(f) && 0 <= t < |f.mute|
    ensures IsolatesOnly(f, [OpenLine(CD_AUDIO, ChunkSize)], t)
  {
    var calls := [OpenLine(CD_AUDIO, ChunkSize)];
    forall j | 0 <= j <= |calls|
      ensures OnlyIsolated(Replay(f, calls[..j]), t)
    {
      if j == 0 {
        assert calls[..j] == [];
      } else {
        assert calls[..j] == calls;
        OpenAttemptKeepsFlags(f);
      }
    }
  }

  /** Every run of a consistent history, replayed from the quiet state,
      returns to it and isolates no track but its own. */
  lemma ConsistentRuns(f: Flags, takes: seq<Take>, runs: seq<TrackRun>, polls: seq<bool>)
    requires Quiet(f) && |f.mute| == |takes| && AllFeasible(takes) && Consistent(takes, runs, polls)
    ensures forall i :: 0 <= i < |runs| ==> Replay(f, runs[i].calls) == f && IsolatesOnly(f, runs[i].calls, i)
  {
    forall i | 0 <= i < |runs|
      ensures Replay(f, runs[i].calls) == f && IsolatesOnly(f, runs[i].calls, i)
    {
      var before := PollsLeft(runs[..i], polls);
      RunRestoresQuiet(f, i, takes[i], before);
      RunIsolates(f, i, takes[i], before);
    }
  }

  /** Runs that each return to f return to f one after the other. */
  lemma {:induction false} ChainRestores(f: Flags, runs: seq<TrackRun>)
    requires forall i :: 0 <= i < |runs| ==> Replay(f, runs[i].calls) == f
    ensures Replay(f, CallsOf(runs)) == f
    decreases |runs|
  {
    if runs != [] {
      var init := runs[..|runs| - 1];
      ChainRestores(f, init);
      ReplayConcat(f, CallsOf(init), runs[|runs| - 1].calls);
    }
  }

  /** A state in which only t may be isolated has at most one isolated track. */
  lemma OnlyIsolatedIsAtMostOne(f: Flags, t: int)
    requires OnlyIsolated(f, t)
    ensures AtMostOneIsolated(f)
  {
  }

  /** The isolation invariant of one track's calls carried over to a prefix
      of the loop's calls that ends inside that track. */
  lemma IsolationInside(f: Flags, before: seq<Call>, track: seq<Call>, t: int, k: nat)
    requires Replay(f, before) == f && |before| <= k <= |before| + |track|
    requires OnlyIsolated(Replay(f, track[..k - |before|]), t)
    ensures AtMostOneIsolated(Replay(f, (before + track)[..k]))
  {
    assert (before + track)[..k] == before + track[..k - |before|];
    ReplayConcat(f, before, track[..k - |before|]);
    OnlyIsolatedIsAtMostOne(Replay(f, track[..k - |before|]), t);
  }

  /** Appending one track's calls keeps the isolation invariant on every
      prefix. */
  lemma IsolationAppend(f: Flags, before: seq<Call>, track: seq<Call>, t: int)
    requires Replay(f, before) == f
    requires IsolatedThroughout(f, before)
    requires forall j :: 0 <= j <= |track| ==> OnlyIsolated(Replay(f, track[..j]), t)
    ensures IsolatedThroughout(f, before + track)
  {
    forall j | 0 <= j <= |before + track|
      ensures AtMostOneIsolated(Replay(f, (before + track)[..j]))
    {
      if j <= |before| {
        assert (before + track)[..j] == before[..j];
      } else {
        IsolationInside(f, before, track, t, j);
      }
    }
  }

  /** Runs that each return to f and isolate only their own track never
      have two tracks isolated at once. */
  lemma {:induction false} ChainIsolation(f: Flags, runs: seq<TrackRun>)
    requires Quiet(f)
    requires forall i :: 0 <= i < |runs| ==> Replay(f, runs[i].calls) == f && IsolatesOnly(f, runs[i].calls, i)
    ensures IsolatedThroughout(f, CallsOf(runs))
    decreases |runs|
  {
    if runs == [] {
      assert CallsOf(runs)[..0] == [];
      OnlyIsolatedIsAtMostOne(f, 0);
    } else {
      var init := runs[..|runs| - 1];
      ChainIsolation(f, init);
      ChainRestores(f, init);
      IsolationAppend(f, CallsOf(init), runs[|runs| - 1].calls, |runs| - 1);
    }
  }

  /** The run as a whole, from a sequencer nobody has soloed: once the mute
      loop is over, at most one track is unmuted or soloed at any point, and
      when the run ends every track is muted and none soloed. */
  lemma RunIsolation(f: Flags, takes: seq<Take>, runs: seq<TrackRun>, polls: seq<bool>)
    requires |f.mute| == |f.solo| == |takes| && forall t :: 0 <= t < |f.solo| ==> !f.solo[t]
    requires AllFeasible(takes) && Consistent(takes, runs, polls)
    ensures var calls := MuteAll(|takes|) + CallsOf(runs);
      && Quiet(Replay(f, calls))
      && forall k :: |takes| <= k <= |calls| ==> AtMostOneIsolated(Replay(f, calls[..k]))
  {
    var muted := MuteAll(|takes|);
    var rest := CallsOf(runs);
    var calls := muted + rest;
    var q := Replay(f, muted);
    MuteAllQuiets(f);
    ConsistentRuns(q, takes, runs, polls);
    ReplayConcat(f, muted, rest);
    ChainRestores(q, runs);
    ChainIsolation(q, runs);
    IsolatedAfter(f, muted, rest);
  }

  /** What holds of every prefix of `rest` replayed after `muted` holds of
      every prefix of the whole that extends past `muted`. */
  lemma IsolatedAfter(f: Flags, muted: seq<Call>, rest: seq<Call>)
    requires IsolatedThroughout(Replay(f, muted), rest)
    ensures forall k :: |muted| <= k <= |muted + rest| ==> AtMostOneIsolated(Replay(f, (muted + rest)[..k]))
  {
    var calls := muted + rest;
    forall k | |muted| <= k <= |calls|
      ensures AtMostOneIsolated(Replay(f, calls[..k]))
    {
      assert calls[..k] == muted + rest[..k - |muted|];
      ReplayConcat(f, muted, rest[..k - |muted|]);
    }
  }

  /** The files of runs that each name their file after their own index:
      one per writing run, named after it, in ascending order. */
  lemma {:induction false} ChainFiles(runs: seq<TrackRun>)
    requires forall i :: 0 <= i < |runs| && runs[i].file.Some? ==> runs[i].file.value.name == RecordingName(i)
    ensures forall a :: 0 <= a < |FilesOf(runs)| ==> FilesOf(runs)[a].name == RecordingName(WrittenOf(runs)[a])
    ensures forall a :: 0 <= a < |WrittenOf(runs)| ==> 0 <= WrittenOf(runs)[a] < |runs| && runs[WrittenOf(runs)[a]].file.Some?
    ensures forall a, b :: 0 <= a < b < |WrittenOf(runs)| ==> WrittenOf(runs)[a] < WrittenOf(runs)[b]
    decreases |runs|
  {
    if runs != [] {
      var init := runs[..|runs| - 1];
      ChainFiles(init);
      var last := runs[|runs| - 1];
      assert FilesOf(runs) == FilesOf(init) + Listed(last.file);
      assert WrittenOf(runs) == WrittenOf(init) + (if last.file.Some? then [|runs| - 1] else []);
    }
  }

  /** Files are written in ascending track order, each named after its own
      track, and only for tracks whose line opened and whose file could be
      written. */
  lemma RecordedFiles(takes: seq<Take>, runs: seq<TrackRun>, polls: seq<bool>)
    requires AllFeasible(takes) && Consistent(takes, runs, polls)
    ensures forall a :: 0 <= a < |FilesOf(runs)| ==> FilesOf(runs)[a].name == RecordingName(WrittenOf(runs)[a])
    ensures forall a :: 0 <= a < |WrittenOf(runs)| ==>
      0 <= WrittenOf(runs)[a] < |runs| && takes[WrittenOf(runs)[a]].writeOk && !takes[WrittenOf(runs)[a]].openFails
    ensures forall a, b :: 0 <= a < b < |WrittenOf(runs)| ==> WrittenOf(runs)[a] < WrittenOf(runs)[b]
  {
    ChainFiles(runs);
  }

  /** No two files of a run share a name. */
  lemma RecordedFileNamesDistinct(takes: seq<Take>, runs: seq<TrackRun>, polls: seq<bool>)
    requires AllFeasible(takes) && Consistent(takes, runs, polls)
    ensures forall a, b :: 0 <= a < b < |FilesOf(runs)| ==> FilesOf(runs)[a].name != FilesOf(runs)[b].name
  {
    ChainNamesDistinct(runs);
  }

  /** Runs that name their files after their own indices write no two
      files under one name. */
  lemma ChainNamesDistinct(runs: seq<TrackRun>)
    requires forall i :: 0 <= i < |runs| && runs[i].file.Some? ==> runs[i].file.value.name == RecordingName(i)
    ensures forall a, b :: 0 <= a < b < |FilesOf(runs)| ==> FilesOf(runs)[a].name != FilesOf(runs)[b].name
  {
    ChainFiles(runs);
    DistinctNames(FilesOf(runs), WrittenOf(runs));
  }

  /** Files named after strictly ascending tracks have distinct names. */
  lemma DistinctNames(files: seq<WavFile>, w: seq<int>)
    requires |files| == |w|
    requires forall a :: 0 <= a < |files| ==> files[a].name == RecordingName(w[a])
    requires forall a, b :: 0 <= a < b < |w| ==> w[a] < w[b]
    ensures forall a, b :: 0 <= a < b < |files| ==> files[a].name != files[b].name
  {
    forall a, b | 0 <= a < b < |files|
      ensures files[a].name != files[b].name
    {
      RecordingNameInjective(w[a], w[b]);
    }
  }
}
