# makeminepoly recording core, in Dafny

makeminepoly plays a multitrack MIDI file one track at a time through an
external (monophonic) synthesizer and records each pass as its own WAV
stem. This project models the sequential rules of that core and proves
what they guarantee:

- `AudioRecorder.run` (module `Recorder`). It records one track. It opens
  the capture line with the CD_AUDIO format and an 8192-byte buffer,
  unmutes and solos the track, and records a pre-roll of about 2 seconds.
  It then rewinds and starts the sequencer and follows it while it
  reports that it is running. It records a tail of about 10 seconds,
  re-mutes and un-solos the track, stops everything and writes
  `./recording_<track>.wav`. The method is imperative Dafny over classes
  for the sequencer, the line and the byte buffer (module `Devices`), with
  one loop per recording phase. Each phase is proved against a pure
  specification (`PreRoll`, `Playback`, `Middle`, `Session`).
- `App.recordMultitrackMidi` (module `App`). It mutes every track. It
  looks up the MIDI receiver and the recording mixer. It then runs one
  recorder per track, in ascending order, each on a newly obtained line.
  The proved invariant is that once the mute loop is over, at most one
  track is unmuted or soloed at any time. Every completed track leaves all
  tracks muted and none soloed. Also modelled: which track `splitTrack`
  hands to the splitter.
- The device selection rules `MidiHelp.getReceiver` and
  `AudioHelp.getMixer`. Both scan descriptor strings by substring
  containment. getReceiver takes the first match. getMixer takes the first
  usable match, or else the last name match.
- The demonstration event list of `MidiHelp.writeMidiFile`: a Set Tempo
  meta event, then 100 Note On/Note Off pairs. It is checked against the
  Set Tempo meta event (FF 51 03 tt tt tt) of the Standard MIDI Files 1.0
  specification and the Note On/Note Off channel messages (0x9n/0x8n) of
  MIDI 1.0.
- The `CD_AUDIO` format arithmetic and the capability suffix printed by
  `AudioHelp.showMixers`.

Modelling choices:

- **External devices.** The world outside the program becomes data. Each
  timed loop receives the clock readings it takes (`ClockWindow`). The
  sequencer's playback thread becomes the trace of answers `isRunning()`
  gives (`polls`). The line becomes the blocks its reads deliver (`feed`).
  Whether a line can be obtained or opened, and whether the WAV file can
  be written, become booleans of a `Take`.
- **Observable behaviour.** Every call made on the sequencer and the line
  is a `Call`. The sequencer and every line share one ghost `Log`, and
  each device method appends its own call to it, so the calls a method
  returns are proved equal to what the devices received. `Replay` gives
  the mute and solo flags that a call log produces.
- **Failures and their reach.** A line that cannot be opened loses only
  its own track: `AudioRecorder.run` catches `LineUnavailableException`
  itself (AudioRecorder.java:102-105). Only a failed `getTargetDataLine`
  (App.java:195-201) ends the per-track loop.

## Model

| member | source | states |
|---|---|---|
| Recorder.AudioRecorder.Run | src/main/java/com/skyefractal/audio/AudioRecorder.java:27-106 | The devices' shared log grows by exactly the returned calls. If the line fails to open, the only call is the open attempt, nothing changes and no file is written. Otherwise the calls are exactly the session's (open, start, unmute, solo, pre-roll, rewind and start, playback, tail, final isRunning, mute, unsolo, stop, line stop, close). The audio holds at least two whole chunks (16384 bytes). The file, if writable, is named after the track, has format CD_AUDIO and holds all pieces in order. The flags are the replay of the calls. The sequencer ends stopped at the end of the sequence, having consumed its answers through the first false. |
| Recorder.AudioRecorder.Prepare | src/main/java/com/skyefractal/audio/AudioRecorder.java:35-44 | The line is opened with CD_AUDIO and 8192 and started before any flag change: afterwards its format is CD_AUDIO, its buffer size 8192 and it is active. The log grows by exactly these calls. If opening fails, the log holds the open attempt and neither the line nor the sequencer changes. Otherwise only the recorded track is unmuted and soloed. |
| Recorder.AudioRecorder.RecordTimed | src/main/java/com/skyefractal/audio/AudioRecorder.java:47-59 | A timed loop runs once per clock reading after the start, and at least once for a positive window (at least one block taken). Each iteration reads a whole chunk and writes all 8192 bytes of the chunk, whatever the read returned. The buffer holds the concatenation of the pieces, and the log grows by the reads. |
| Recorder.AudioRecorder.TimedStep | src/main/java/com/skyefractal/audio/AudioRecorder.java:56-58 | One read of 8192 then one write of the whole chunk: the chunk's front is overwritten by the next block, the buffer grows by the chunk, and the log by the read. |
| Recorder.AudioRecorder.PlayStep | src/main/java/com/skyefractal/audio/AudioRecorder.java:68-70 | available() then read(chunk, 0, available()), then writing exactly the count read. The log grows by the available and read calls. |
| Recorder.AudioRecorder.PlayTurn | src/main/java/com/skyefractal/audio/AudioRecorder.java:65-71 | One test of the playback loop and its body. A true answer is one of the leading trues and is followed by one PlayStep. A false answer means every leading true has been used: nothing is read, the sequencer is stopped at the end of the sequence and the answers left are those after the first false. The flags never change. |
| Recorder.AudioRecorder.RecordPlaying | src/main/java/com/skyefractal/audio/AudioRecorder.java:65-71 | The playback loop runs once per true answer of isRunning() before the first false. Each pass writes what its read returned. The flags are untouched, and the sequencer ends stopped at the end of the sequence. |
| Recorder.AudioRecorder.RecordPlayback | src/main/java/com/skyefractal/audio/AudioRecorder.java:62-71 | The position is set to 0 and the sequencer started only after the pre-roll, and then followed until it stops at the end of the sequence. |
| Recorder.AudioRecorder.RecordSession | src/main/java/com/skyefractal/audio/AudioRecorder.java:47-84 | The three capture loops together equal the `Middle` specification. The flags are unchanged. The buffer holds every piece written, in order. The sequencer ends stopped at the end of the sequence. |
| Recorder.AudioRecorder.Release | src/main/java/com/skyefractal/audio/AudioRecorder.java:87-99 | Once isRunning() is false, the track is re-muted and un-soloed, the sequencer stopped, and the line stopped then closed, and the log grows by exactly these calls. The file, named "./recording_" + track + ".wav", holds the buffer. |
| Recorder.AudioRecorder.constructor | src/main/java/com/skyefractal/audio/AudioRecorder.java:19-23 | Keeps the line, sequencer and track it is given, which report to one log. |
| Recorder.SessionPieces | src/main/java/com/skyefractal/audio/AudioRecorder.java:52-84 | The audio is pre-roll whole chunks, then the blocks read during playback, then tail whole chunks. |
| Recorder.SessionAudioLength | src/main/java/com/skyefractal/audio/AudioRecorder.java:52-84 | Audio size = 8192 x (pre-roll + tail iterations) + the bytes read during playback. |
| Recorder.SessionCapturesFullBlocks | src/main/java/com/skyefractal/audio/AudioRecorder.java:52-84 | When every block fills the chunk, the pieces are exactly the blocks read, in order. |
| Recorder.FixedReadsPieces | src/main/java/com/skyefractal/audio/AudioRecorder.java:52-59 | n timed iterations append n whole chunks, each beginning with its block, and keep what came before. |
| Recorder.PlayReadsShape | src/main/java/com/skyefractal/audio/AudioRecorder.java:65-71 | n playback iterations append exactly the n blocks read. |
| Recorder.ClockWindowRuns | src/main/java/com/skyefractal/audio/AudioRecorder.java:47-59 | The loop test `currentTime - startTime < window` holds exactly while readings remain. |
| Recorder.ClockWindowEntered | src/main/java/com/skyefractal/audio/AudioRecorder.java:47-54 | A positive window is entered at least once: the first test compares the start time with currentTime = 0. |
| Recorder.SessionFillsTwoChunks | src/main/java/com/skyefractal/audio/AudioRecorder.java:47-84 | Whatever the sequencer and the line do, a recording holds at least two whole chunks: one from each timed loop. |
| Recorder.LeadingTrueSpec | src/main/java/com/skyefractal/audio/AudioRecorder.java:65 | The playback loop count is the number of leading true answers: all of them are true, and the next answer (if any) is false. |
| Recorder.PlaybackStops | src/main/java/com/skyefractal/audio/AudioRecorder.java:65 | A loop that has seen only true answers and now meets a false one (or the end) has run exactly the leading-true count. The false answer is consumed with it. |
| Recorder.SessionCalls | src/main/java/com/skyefractal/audio/AudioRecorder.java:37-94 | The session's call log is header, reads, rewind and start, playback polls and reads, tail reads, then footer, in that order. |
| Recorder.FramedCalls | src/main/java/com/skyefractal/audio/AudioRecorder.java:37-94 | Where each phase sits in the calls of a recording: 4 header calls, the pre-roll reads, the rewind and start, three calls per playback pass, the false poll, the tail reads, then 6 footer calls. |
| Recorder.FramedPolls | src/main/java/com/skyefractal/audio/AudioRecorder.java:65-71 | Each playback pass in the calls of a recording begins with an isRunning() that answered true. |
| Recorder.SessionTouchesOnly | src/main/java/com/skyefractal/audio/AudioRecorder.java:43-90 | Every mute or solo call of a session names the recorded track: other tracks are untouched. |
| Recorder.SessionRestoresQuiet | src/main/java/com/skyefractal/audio/AudioRecorder.java:43-90 | From the all-muted, none-soloed state a session returns to it. |
| Recorder.SessionIsolation | src/main/java/com/skyefractal/audio/AudioRecorder.java:43-90 | At every point of a session only the recorded track may be isolated. Between the solo and the final isRunning it is unmuted and soloed. |
| Recorder.Reisolate | src/main/java/com/skyefractal/audio/AudioRecorder.java:43-90 | Unmute, solo, mute, unsolo of one track equals just the final mute and unsolo: the track's flags are restored. |
| Recorder.RecordingName | src/main/java/com/skyefractal/audio/AudioRecorder.java:98 | The name starts with "./recording_" and holds at least one character between that prefix and ".wav". |
| Recorder.RecordingNameInjective | src/main/java/com/skyefractal/audio/AudioRecorder.java:98 | Distinct tracks get distinct file names. |
| Recorder.WavDeclaresFourTimesTheData | src/main/java/com/skyefractal/audio/AudioRecorder.java:95-97 | The AudioInputStream is given the byte count as its frame length, so it declares four times the bytes it holds. |
| Devices.Sequencer.IsRunning | src/main/java/com/skyefractal/audio/AudioRecorder.java:65 | A started sequencer reports the next answer of its playback thread; a false answer leaves it stopped at the end of the sequence. A stopped one reports false and stays stopped. |
| Devices.Sequencer.constructor | src/main/java/com/skyefractal/App.java:167-174 | An opened sequencer with its sequence set: one track per entry, nothing muted or soloed, stopped at position 0. |
| Devices.Sequencer.SetMicrosecondPosition | src/main/java/com/skyefractal/audio/AudioRecorder.java:62 | Moves the position to the value given, logs the call and changes nothing else. |
| Devices.Sequencer.Start | src/main/java/com/skyefractal/audio/AudioRecorder.java:63 | Starts the sequencer, logs the call and changes nothing else. |
| Devices.Sequencer.Stop | src/main/java/com/skyefractal/audio/AudioRecorder.java:91 | Stops the sequencer, logs the call and changes nothing else. |
| Devices.Sequencer.SetTrackMute | src/main/java/com/skyefractal/audio/AudioRecorder.java:43 | Changes the one flag of the named track and logs the call. |
| Devices.Sequencer.SetTrackSolo | src/main/java/com/skyefractal/audio/AudioRecorder.java:44 | Changes the one flag of the named track and logs the call. |
| Devices.CaptureLine.Open | src/main/java/com/skyefractal/audio/AudioRecorder.java:37 | Opening either fails (LineUnavailableException) and changes nothing, or opens the line with the given format and buffer size. The attempt is logged either way. |
| Devices.CaptureLine.constructor | src/main/java/com/skyefractal/App.java:195 | A newly obtained line is neither open nor active. |
| Devices.CaptureLine.Start | src/main/java/com/skyefractal/audio/AudioRecorder.java:39 | Makes the open line active, logs the call and keeps its format, buffer size and pending data. |
| Devices.CaptureLine.Available | src/main/java/com/skyefractal/audio/AudioRecorder.java:68 | Reports the size of the block the next read delivers, and logs the call. |
| Devices.CaptureLine.Read | src/main/java/com/skyefractal/audio/AudioRecorder.java:56 | A read takes the next block: it overwrites the front of the array with it, leaves the rest of the array alone, returns its length and logs the call. |
| Devices.CaptureLine.Stop | src/main/java/com/skyefractal/audio/AudioRecorder.java:93 | Makes the line inactive and logs the call. |
| Devices.CaptureLine.Close | src/main/java/com/skyefractal/audio/AudioRecorder.java:94 | Closes the line, which is then neither open nor active, and logs the call. |
| Devices.CaptureBuffer.Write | src/main/java/com/skyefractal/audio/AudioRecorder.java:58 | ByteArrayOutputStream.write appends exactly the bytes given. |
| Devices.CaptureBuffer.constructor | src/main/java/com/skyefractal/audio/AudioRecorder.java:31 | A new ByteArrayOutputStream holds no bytes. |
| Devices.ReplayConcat | src/main/java/com/skyefractal/audio/AudioRecorder.java:43-90 | Replaying two call logs one after the other is replaying their concatenation. |
| App.SplitsSecondTrack | src/main/java/com/skyefractal/App.java:83-87 | splitTrack hands over index 1, never index 0, and fails for a file with fewer than two tracks. |
| App.MuteAllTracks | src/main/java/com/skyefractal/App.java:174-177 | setTrackMute(j, true) for j = 0 .. trackCount-1 in order, and the sequencer's log grows by exactly those calls. Position, running state and isRunning answers are untouched. |
| App.MuteAllReplay | src/main/java/com/skyefractal/App.java:175-177 | After the first j mute calls, tracks below j are muted, the others unchanged and the solo flags untouched. |
| App.MuteAllQuiets | src/main/java/com/skyefractal/App.java:174-177 | Starting with nothing soloed, the mute loop leaves every track muted and none soloed. |
| App.RunOf | src/main/java/com/skyefractal/App.java:195-197 | A track's run writes a file exactly when its line opened and the write succeeded. The file is named after the track and uses CD_AUDIO. |
| App.RecordTrack | src/main/java/com/skyefractal/App.java:195-197 | One iteration: a fresh line and recorder on the shared sequencer. Its calls, file and remaining answers are those of `RunOf`, and the sequencer's log grows by exactly those calls. |
| App.RecordTracks | src/main/java/com/skyefractal/App.java:193-204 | Tracks are recorded in ascending order. The first track whose line cannot be obtained ends the loop with LineUnavailable. Its calls and files are those of the consistent history of Done(outcome) iterations. |
| App.RecordMultitrackMidi | src/main/java/com/skyefractal/App.java:151-205 | No MIDI device aborts after the mute loop. No mixer by that name crashes (the null mixer is dereferenced at App.java:190). A chosen mixer without TargetDataLine crashes at the first track (IllegalArgumentException, not caught at App.java:201); with no tracks it finishes. Otherwise it finishes, or aborts at the first unobtainable line. In every case the calls, which are also what the sequencer's log gained, are the mute loop then the iterations made. |
| App.OpenAttemptKeepsFlags | src/main/java/com/skyefractal/audio/AudioRecorder.java:37 | A failed open changes no flag. |
| App.OpenAttemptIsolates | src/main/java/com/skyefractal/audio/AudioRecorder.java:102-105 | A track whose line fails to open isolates no track. |
| App.RunRestoresQuiet | src/main/java/com/skyefractal/App.java:196-197 | Each track's run, opened or not, returns the quiet state. |
| App.RunIsolates | src/main/java/com/skyefractal/App.java:196-197 | No prefix of a track's run isolates a track other than its own. |
| App.ConsistentSnoc | src/main/java/com/skyefractal/App.java:193-199 | One more iteration extends the history: calls, files and remaining answers grow by that run's. |
| App.ConsistentAgree | src/main/java/com/skyefractal/App.java:193-199 | The iterations are determined by the takes: two histories agree on all iterations both made. |
| App.ConsistentPrefix | src/main/java/com/skyefractal/App.java:193-199 | The first m iterations of a history form the history of m iterations. |
| App.ChainPrefix | src/main/java/com/skyefractal/App.java:193-199 | The calls and files of the first m iterations begin those of the whole history. |
| App.AbortKeepsPrefix | src/main/java/com/skyefractal/App.java:193-204 | An abort keeps what was recorded: the shorter history is a prefix of the longer one, with its calls and files. |
| App.ConsistentRuns | src/main/java/com/skyefractal/App.java:193-199 | Every iteration, from the quiet state, returns to it and isolates only its own track. |
| App.ChainRestores | src/main/java/com/skyefractal/App.java:193-199 | After any number of completed tracks every track is muted and none soloed. |
| App.IsolationAppend | src/main/java/com/skyefractal/App.java:193-199 | Appending a track's calls keeps "at most one isolated" on every prefix. |
| App.ChainIsolation | src/main/java/com/skyefractal/App.java:193-199 | At every point of the per-track loop at most one track is unmuted or soloed. |
| App.IsolatedAfter | src/main/java/com/skyefractal/App.java:174-199 | The invariant of the per-track loop carries over to the whole run after the mute loop. |
| App.RunIsolation | src/main/java/com/skyefractal/App.java:174-199 | For the whole run from a sequencer nobody soloed: after the mute loop at most one track is isolated at any point, and at the end all tracks are muted and none soloed. |
| App.WrittenOf | src/main/java/com/skyefractal/App.java:193-199 | One written track per file. |
| App.ChainFiles | src/main/java/com/skyefractal/App.java:193-199 | Files are in ascending track order, and each is named after a track that wrote one. |
| App.RecordedFiles | src/main/java/com/skyefractal/App.java:193-199 | Files are in ascending track order, each named after its track, only for tracks whose line opened and whose write succeeded. |
| App.RecordedFileNamesDistinct | src/main/java/com/skyefractal/App.java:193-199 | No two files of a run share a name. |
| MidiHelp.GetReceiver | src/main/java/com/skyefractal/midi/MidiHelp.java:27-52 | An empty device list throws MidiUnavailableException. Otherwise the result is the first descriptor containing both the port's decimal digits and the interface name, or null when none does. |
| MidiHelp.LongerPortMatches | src/main/java/com/skyefractal/midi/MidiHelp.java:40-41 | The port test is containment: port 1 also matches a descriptor naming port 12. |
| MidiHelp.PortsHiddenInInterfaceName | src/main/java/com/skyefractal/midi/MidiHelp.java:40-41 | With the interface name "Express  128: Port" the port test passes for ports 1, 2, 8, 12, 28 and 128 whatever port the device has. |
| MidiHelp.AddEvent | src/main/java/com/skyefractal/midi/MidiHelp.java:113-127 | Track.add: an End of Track event only moves the end of the track later. Any other event is added exactly once (the events are a permutation of the old ones plus it), and End of Track moves to its tick when it is later. |
| MidiHelp.InsertKeepsSorted | src/main/java/com/skyefractal/midi/MidiHelp.java:113-127 | Inserting before End of Track keeps the events in tick order. |
| MidiHelp.InsertBounded | src/main/java/com/skyefractal/midi/MidiHelp.java:113-127 | Inserting an event no later than End of Track keeps every event no later than it. |
| MidiHelp.AddEventKeepsOrder | src/main/java/com/skyefractal/midi/MidiHelp.java:113-127 | Track.add keeps a track in tick order with End of Track last. |
| MidiHelp.OrderedEvents | src/main/java/com/skyefractal/midi/MidiHelp.java:113-127 | An ordered track lists all its events, End of Track included, in tick order. |
| MidiHelp.AddEventAppends | src/main/java/com/skyefractal/midi/MidiHelp.java:121-127 | An event no earlier than the end of the track is appended, and End of Track follows it at its tick. |
| MidiHelp.WriteMidiFile | src/main/java/com/skyefractal/midi/MidiHelp.java:97-128 | The sequence holds two tracks: the empty one `new Sequence(PPQ, 960, 1)` made and the created one, which gets the tempo event at tick 0, then the 100 note pairs, then End of Track at tick 96000. |
| MidiHelp.NotePairsExtend | src/main/java/com/skyefractal/midi/MidiHelp.java:116-128 | Each loop iteration adds its note on, then its note off. |
| MidiHelp.SampleTrackShape | src/main/java/com/skyefractal/midi/MidiHelp.java:100-128 | The created track has 202 events: the tempo at tick 0 first, then pair i at positions 2i+1 and 2i+2, then End of Track at tick 96000. |
| MidiHelp.NotePairMessages | src/main/java/com/skyefractal/midi/MidiHelp.java:116-128 | Note on i is status 144 (channel 0), key 60 + i % 24, velocity 64, at tick 960 i. Note off i is status 128, same key, velocity 0, 960 ticks later. Keys stay in 60..83. |
| MidiHelp.NoteOffMeetsNextOn | src/main/java/com/skyefractal/midi/MidiHelp.java:120-126 | Each note off shares its tick with the next note on. |
| MidiHelp.NotePairsSorted | src/main/java/com/skyefractal/midi/MidiHelp.java:116-128 | The pairs are in tick order, and the last tick is n x 960. |
| MidiHelp.SampleTrackSorted | src/main/java/com/skyefractal/midi/MidiHelp.java:100-128 | Ticks never decrease in insertion order, so every event was appended and the track lists them, End of Track last, in tick order. |
| MidiHelp.SampleTrackCounts | src/main/java/com/skyefractal/midi/MidiHelp.java:100-128 | Exactly two meta events (the tempo and End of Track), 100 note ons and 100 note offs. |
| MidiHelp.SetTempoRoundTrip | src/main/java/com/skyefractal/midi/MidiHelp.java:106-109 | A Set Tempo event built from a 24-bit tempo reads back as that tempo. |
| MidiHelp.TempoAsWritten | src/main/java/com/skyefractal/midi/MidiHelp.java:106-109 | The event as written encodes as FF 51 05 51 03 07 A0 20. It is not a valid Set Tempo event, and its last three bytes are 499744, not 500000. |
| MidiHelp.TempoIntended | src/main/java/com/skyefractal/midi/MidiHelp.java:106-109 | The intended event is FF 51 03 07 A1 20. It carries 500000 microseconds per quarter note (120 BPM). |
| AudioHelp.CdAudioRates | src/main/java/com/skyefractal/audio/AudioHelp.java:21 | CD_AUDIO has 4-byte frames and 176000 bytes per second. 176400 is the figure for 44100 Hz. |
| AudioHelp.GetMixer | src/main/java/com/skyefractal/audio/AudioHelp.java:41-61 | null exactly when no descriptor contains the name. Otherwise the result is the first name match that supports TargetDataLine (the scan stops there), or, when no name match supports it, the last name match. |
| AudioHelp.SupportSuffix | src/main/java/com/skyefractal/audio/AudioHelp.java:75-83 | The suffix starts with ", supports " and reads back as exactly the supported line kinds. |
| AudioHelp.SuffixRoundTrip | src/main/java/com/skyefractal/audio/AudioHelp.java:75-83 | ", supports " followed by the words for SourceDataLine, Clip, TargetDataLine and Port, in that order and each present exactly when supported, parses back to the capabilities. |
| AudioHelp.SupportWordsRoundTrip | src/main/java/com/skyefractal/audio/AudioHelp.java:77-83 | The four optional words, in their fixed order, determine which line kinds are supported. |
| Base.IntToStringInjective | src/main/java/com/skyefractal/audio/AudioRecorder.java:98 | Integer.toString gives distinct strings for distinct integers. |
| Base.NatToStringRoundTrip | src/main/java/com/skyefractal/midi/MidiHelp.java:40 | Integer.toString of a non-negative number gives its decimal digits, which parse back to it. |

## Left out

- `MidiHelp.splitTrack` and `MidiHelp.disableDefaultSynth` (called at App.java:87, 110, 152 and 188) are not defined in midi/MidiHelp.java, so they are not part of this model. Only the choice of track index 1 is modelled.
- javax.sound plumbing is not modelled, nor is any of its failure modes except those named here:
  - `MidiSystem`/`AudioSystem` lookups, `device.open`, the transmitter and receiver wiring, `MidiSystem.write`, WAV header encoding, `FileOutputStream` and `saveFile`;
  - the chosen receiver and mixer are not passed on, because the devices they stand for are the inputs of each `Take`.
- The unclosed `FileOutputStream` at AudioRecorder.java:98 is not modelled, because file handles are outside the model.
- The wall clock and threads are replaced by data:
  - `System.currentTimeMillis` becomes the readings each timed loop takes;
  - the sequencer's playback thread becomes the trace of `isRunning()` answers;
  - `Thread.sleep` does not occur in the modelled code.
- Before the mute loop, `getSequencer`, `open`, `getSequence` and `setSequence` are not modelled, nor are their exceptions. The model starts with the sequencer holding a sequence of one track per `Take`.
- Format-specific line support is not modelled: a name-matching mixer with a TargetDataLine is taken to support CD_AUDIO. An `obtainable = false` take stands for `LineUnavailableException` from `getTargetDataLine`.
- An `IOException` from writing the WAV file is modelled as `writeOk = false`. It comes after the flags are restored, so only that track's file is lost.
- Run's precondition `Bounded`: a line delivering a block larger than 8192 bytes (which would overflow `chunk`) is excluded, following the buffer-size comment at AudioRecorder.java:36.
- `playSequence`, `main`, `dumpSequence`, `allNotesOff`, `MidiListener` and all logging are not modelled, because they only print or wire devices. The only part of `showMixers` modelled is the suffix string.
- The `44000.0f` sample rate is the integer 44000, because no floating-point arithmetic depends on it.
- Buffer capacities (the 10000000-byte initial `ByteArrayOutputStream` capacity, the unused 20000000-byte array) are not modelled, because they do not affect what is written.
- Devices.Sequencer.IsRunning: after its first false answer the sequencer stays stopped (nothing restarts it), so the guard at AudioRecorder.java:87 is always taken. The branch that skips the clean-up is not modelled.
- App.RunIsolation: "at most one track isolated" is stated only from the end of the mute loop on. During the mute loop the tracks that have not yet been muted keep whatever flags the sequence gave them.

- Devices.Sequencer: the position changes only at `setMicrosecondPosition` and when playback reaches the end of the sequence; the position while the sequence plays is not modelled.
- MidiHelp.AddEvent: Track.add's refusal of an event object already in the track is not modelled, because writeMidiFile adds a new event object every time.
- `CaptureBuffer.size()` (AudioRecorder.java:95) is a plain accessor of the buffer's length; the file's data is stated through the bytes themselves.

## Findings

| source | as written | input that shows it | evidently intended | confidence | as-written member | corrected member |
|---|---|---|---|---|---|---|
| src/main/java/com/skyefractal/midi/MidiHelp.java:106-109 | The Set Tempo message gets the data {0x51, 0x03, 0x07, 160, 0x20}: it repeats the type and length bytes, and 160 is 0xA0 | none needed (constant data): the event encodes as FF 51 05 51 03 07 A0 20, whose length byte is 5, not 3, and whose tempo bytes 07 A0 20 are 499744 | data {0x07, 0xA1, 0x20}, that is FF 51 03 07 A1 20 = 500000 microseconds per quarter note (120 BPM), as the constant and comment at :106 say | high (not executed) | MidiHelp.TempoAsWritten | MidiHelp.TempoIntended |

`SampleTrack` takes the tempo message as a parameter. The properties proved
about it therefore hold of the corrected track `SampleTrack(SetTempo(500000))`
as well as of the track `WriteMidiFile` builds as written: shape, tick
order and counts.
