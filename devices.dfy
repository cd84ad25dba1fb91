/** The javax.sound collaborators the recorder drives, reduced to the state
    the recorder can observe: the sequencer's per-track mute and solo flags,
    its position and whether it runs; the capture line; and the growable byte
    buffer the captured audio goes into. Every call the recorder makes on the
    line or the sequencer is also named by a `Call`, so that the order of the
    calls can be stated. */
module Devices {
  import opened Base
  import opened AudioHelp

  /** One call on the capture line or the sequencer. */
  datatype Call =
    | OpenLine(format: AudioFormat, bufferSize: nat)
    | StartLine
    | SetTrackMute(track: int, mute: bool)
    | SetTrackSolo(track: int, solo: bool)
    | Available(bytes: nat)
    | ReadLine(requested: nat, count: nat)
    | SetPosition(micros: int)
    | StartSequencer
    | PollRunning(running: bool)
    | StopSequencer
    | StopLine
    | CloseLine

  predicate IsFlagCall(c: Call)
  {
    c.SetTrackMute? || c.SetTrackSolo?
  }

  predicate NoFlagCalls(calls: seq<Call>)
  {
    forall k :: 0 <= k < |calls| ==> !IsFlagCall(calls[k])
  }

  /** The per-track flags of a sequencer. */
  datatype Flags = Flags(mute: seq<bool>, solo: seq<bool>)

  /** The effect of one call on the flags; a track index the sequence does
      not have is ignored, as the sequencer ignores it. */
  function Apply(f: Flags, c: Call): (r: Flags)
    ensures |r.mute| == |f.mute| && |r.solo| == |f.solo|
  {
    match c
    case SetTrackMute(t, m) => if 0 <= t < |f.mute| then f.(mute := f.mute[t := m]) else f
    case SetTrackSolo(t, s) => if 0 <= t < |f.solo| then f.(solo := f.solo[t := s]) else f
    case _ => f
  }

  /** The flags after a sequence of calls. */
  function Replay(f: Flags, calls: seq<Call>): (r: Flags)
    ensures |r.mute| == |f.mute| && |r.solo| == |f.solo|
  {
    if calls == [] then f else Apply(Replay(f, calls[..|calls| - 1]), calls[|calls| - 1])
  }

  lemma {:induction false} ReplayConcat(f: Flags, a: seq<Call>, b: seq<Call>)
    ensures Replay(f, a + b) == Replay(Replay(f, a), b)
    decreases |b|
  {
    if b == [] {
      assert a + b == a;
    } else {
      assert (a + b)[..|a + b| - 1] == a + b[..|b| - 1];
      ReplayConcat(f, a, b[..|b| - 1]);
    }
  }

  /** Calls other than flag calls leave the flags alone. */
  lemma {:induction false} ReplayNoFlagCalls(f: Flags, calls: seq<Call>)
    requires NoFlagCalls(calls)
    ensures Replay(f, calls) == f
    decreases |calls|
  {
    if calls != [] {
      ReplayNoFlagCalls(f, calls[..|calls| - 1]);
    }
  }

  /** Replay one call further. */
  lemma ReplayPrefix(f: Flags, calls: seq<Call>, k: nat)
    requires 0 < k <= |calls|
    ensures Replay(f, calls[..k]) == Apply(Replay(f, calls[..k - 1]), calls[k - 1])
  {
    assert calls[..k][..k - 1] == calls[..k - 1];
  }

  /** A track is isolated when it is audible (not muted) or soloed. */
  predicate Isolated(f: Flags, t: int)
  {
    0 <= t < |f.mute| && |f.solo| == |f.mute| && (!f.mute[t] || f.solo[t])
  }

  /** Every track muted and none soloed: the state between two recordings. */
  predicate Quiet(f: Flags)
  {
    |f.mute| == |f.solo| && forall t :: 0 <= t < |f.mute| ==> f.mute[t] && !f.solo[t]
  }

  /** No track but t is isolated. */
  predicate OnlyIsolated(f: Flags, t: int)
  {
    forall u :: 0 <= u < |f.mute| && Isolated(f, u) ==> u == t
  }

  predicate AtMostOneIsolated(f: Flags)
  {
    forall a, b :: 0 <= a < |f.mute| && 0 <= b < |f.mute| && Isolated(f, a) && Isolated(f, b) ==> a == b
  }

  /** The flag calls of a call sequence all name track t. */
  predicate TouchesOnly(calls: seq<Call>, t: int)
  {
    forall k :: 0 <= k < |calls| && IsFlagCall(calls[k]) ==> calls[k].track == t
  }

  lemma TouchesOnlyConcat(a: seq<Call>, b: seq<Call>, t: int)
    requires TouchesOnly(a, t) && TouchesOnly(b, t)
    ensures TouchesOnly(a + b, t)
  {
    forall k | 0 <= k < |a + b| && IsFlagCall((a + b)[k])
      ensures (a + b)[k].track == t
    {
      if k < |a| {
        assert (a + b)[k] == a[k];
      } else {
        assert (a + b)[k] == b[k - |a|];
      }
    }
  }

  /** Calls that touch only track t leave every other track as it was. */
  lemma {:induction false} ReplayTouchesOnly(f: Flags, calls: seq<Call>, t: int)
    requires TouchesOnly(calls, t)
    ensures |Replay(f, calls).mute| == |f.mute| && |Replay(f, calls).solo| == |f.solo|
    ensures forall u :: 0 <= u < |f.mute| && u != t ==> Replay(f, calls).mute[u] == f.mute[u]
    ensures forall u :: 0 <= u < |f.solo| && u != t ==> Replay(f, calls).solo[u] == f.solo[u]
    decreases |calls|
  {
    if calls != [] {
      ReplayTouchesOnly(f, calls[..|calls| - 1], t);
    }
  }

  /** From a quiet state, calls that touch only track t never isolate any
      other track. */
  lemma QuietTouchesOnly(f: Flags, calls: seq<Call>, t: int)
    requires Quiet(f) && TouchesOnly(calls, t)
    ensures OnlyIsolated(Replay(f, calls), t)
  {
    ReplayTouchesOnly(f, calls, t);
  }

  /** The calls made on the devices so far, in the order they were made.
      The sequencer and the line of one recording share one log, and each of
      their methods appends its own call to it. */
  class Log {
    ghost var calls: seq<Call>

    constructor ()
      ensures calls == []
    {
      calls := [];
    }
  }

  /** The sequencer, seen through the controls the recorder uses. `polls`
      holds what isRunning() answers while the sequencer plays on its own
      thread; once it answers false the sequence has ended: the sequencer
      has stopped at the end of the sequence, `length` microseconds in. */
  class Sequencer {
    var mute: seq<bool>
    var solo: seq<bool>
    var position: int
    var running: bool
    var polls: seq<bool>
    const length: nat
    ghost const log: Log

    ghost predicate Valid()
      reads this
    {
      |mute| == |solo|
    }

    function State(): Flags
      reads this
    {
      Flags.Flags(mute, solo)
    }

    /** An opened sequencer holding a sequence of trackCount tracks that
        plays for `length` microseconds: nothing muted, nothing soloed,
        stopped at the start. */
    constructor (trackCount: nat, length: nat, polls: seq<bool>, ghost log: Log)
      ensures Valid() && |mute| == trackCount
      ensures forall t :: 0 <= t < trackCount ==> !mute[t] && !solo[t]
      ensures position == 0 && !running && this.polls == polls
      ensures this.length == length && this.log == log
    {
      mute := seq(trackCount, _ => false);
      solo := seq(trackCount, _ => false);
      position := 0;
      running := false;
      this.polls := polls;
      this.length := length;
      this.log := log;
    }

    method SetTrackMute(track: int, m: bool)
      requires Valid()
      modifies this, log
      ensures Valid() && State() == Apply(old(State()), Call.SetTrackMute(track, m))
      ensures position == old(position) && running == old(running) && polls == old(polls)
      ensures log.calls == old(log.calls) + [Call.SetTrackMute(track, m)]
    {
      if 0 <= track < |mute| {
        mute := mute[track := m];
      }
      log.calls := log.calls + [Call.SetTrackMute(track, m)];
    }

    method SetTrackSolo(track: int, s: bool)
      requires Valid()
      modifies this, log
      ensures Valid() && State() == Apply(old(State()), Call.SetTrackSolo(track, s))
      ensures position == old(position) && running == old(running) && polls == old(polls)
      ensures log.calls == old(log.calls) + [Call.SetTrackSolo(track, s)]
    {
      if 0 <= track < |solo| {
        solo := solo[track := s];
      }
      log.calls := log.calls + [Call.SetTrackSolo(track, s)];
    }

    method SetMicrosecondPosition(micros: int)
      modifies this, log
      ensures position == micros
      ensures mute == old(mute) && solo == old(solo) && running == old(running) && polls == old(polls)
      ensures log.calls == old(log.calls) + [SetPosition(micros)]
    {
      position := micros;
      log.calls := log.calls + [SetPosition(micros)];
    }

    method Start()
      modifies this, log
      ensures running
      ensures mute == old(mute) && solo == old(solo) && position == old(position) && polls == old(polls)
      ensures log.calls == old(log.calls) + [StartSequencer]
    {
      running := true;
      log.calls := log.calls + [StartSequencer];
    }

    method Stop()
      modifies this, log
      ensures !running
      ensures mute == old(mute) && solo == old(solo) && position == old(position) && polls == old(polls)
      ensures log.calls == old(log.calls) + [StopSequencer]
    {
      running := false;
      log.calls := log.calls + [StopSequencer];
    }

    /** isRunning(): a started sequencer reports the next answer of its
        playback thread; a stopped one reports false. The answer false from
        a started sequencer means the sequence has played to its end, where
        the position now is. */
    method IsRunning() returns (r: bool)
      modifies this, log
      ensures r == (old(running) && old(polls) != [] && old(polls)[0])
      ensures running == r
      ensures polls == if old(running) && old(polls) != [] then old(polls)[1..] else old(polls)
      ensures position == if old(running) && !r then length else old(position)
      ensures mute == old(mute) && solo == old(solo)
      ensures log.calls == old(log.calls) + [PollRunning(r)]
    {
      r := running && polls != [] && polls[0];
      if running && !r {
        position := length;
      }
      if running && polls != [] {
        polls := polls[1..];
      }
      running := r;
      log.calls := log.calls + [PollRunning(r)];
    }
  }

  /** The block a read takes next, or nothing when the device has nothing. */
  function Next(feed: seq<seq<byte>>): seq<byte>
  {
    if feed == [] then [] else feed[0]
  }

  function Rest(feed: seq<seq<byte>>): seq<seq<byte>>
  {
    if feed == [] then [] else feed[1..]
  }

  /** A TargetDataLine. `feed` is what the device delivers: one block per
      read call, and available() reports the size of the next block. */
  class CaptureLine {
    const openFails: bool
    ghost const log: Log
    var isOpen: bool
    var active: bool
    var format: AudioFormat
    var bufferSize: nat
    var feed: seq<seq<byte>>

    /** A newly obtained line, not yet open. */
    constructor (openFails: bool, feed: seq<seq<byte>>, ghost log: Log)
      ensures this.openFails == openFails && this.feed == feed && this.log == log
      ensures !isOpen && !active
    {
      this.openFails := openFails;
      this.log := log;
      this.feed := feed;
      isOpen := false;
      active := false;
      format := AudioFormat(0, 0, 0, false, false);
      bufferSize := 0;
    }

    /** open(format, bufferSize): false stands for LineUnavailableException,
        which leaves the line as it was. */
    method Open(fmt: AudioFormat, size: nat) returns (ok: bool)
      modifies this, log
      ensures ok == !openFails
      ensures ok ==> isOpen && format == fmt && bufferSize == size && active == old(active) && feed == old(feed)
      ensures !ok ==> unchanged(this)
      ensures log.calls == old(log.calls) + [OpenLine(fmt, size)]
    {
      ok := !openFails;
      if ok {
        isOpen := true;
        format := fmt;
        bufferSize := size;
      }
      log.calls := log.calls + [OpenLine(fmt, size)];
    }

    method Start()
      requires isOpen
      modifies this, log
      ensures active
      ensures isOpen && format == old(format) && bufferSize == old(bufferSize) && feed == old(feed)
      ensures log.calls == old(log.calls) + [StartLine]
    {
      active := true;
      log.calls := log.calls + [StartLine];
    }

    method Available() returns (n: nat)
      modifies log
      ensures n == |Next(feed)|
      ensures log.calls == old(log.calls) + [Call.Available(n)]
    {
      n := |Next(feed)|;
      log.calls := log.calls + [Call.Available(n)];
    }

    /** read(b, 0, len): the next block goes to the front of b, the rest of b
        keeps what it held, and the number of bytes read is returned. */
    method Read(b: array<byte>, len: nat) returns (count: nat)
      requires isOpen && len <= b.Length && |Next(feed)| <= len
      modifies this, b, log
      ensures count == |Next(old(feed))|
      ensures b[..] == Next(old(feed)) + old(b[..])[count..]
      ensures feed == Rest(old(feed))
      ensures isOpen == old(isOpen) && active == old(active)
      ensures format == old(format) && bufferSize == old(bufferSize)
      ensures log.calls == old(log.calls) + [ReadLine(len, count)]
    {
      var block := Next(feed);
      count := |block|;
      var i := 0;
      while i < count
        invariant 0 <= i <= count
        invariant forall k :: 0 <= k < i ==> b[k] == block[k]
        invariant forall k :: i <= k < b.Length ==> b[k] == old(b[k])
        modifies b
      {
        b[i] := block[i];
        i := i + 1;
      }
      assert b[..] == block + old(b[..])[count..];
      feed := Rest(feed);
      log.calls := log.calls + [ReadLine(len, count)];
    }

    method Stop()
      modifies this, log
      ensures !active
      ensures isOpen == old(isOpen) && feed == old(feed)
      ensures log.calls == old(log.calls) + [StopLine]
    {
      active := false;
      log.calls := log.calls + [StopLine];
    }

    method Close()
      modifies this, log
      ensures !isOpen && !active
      ensures feed == old(feed)
      ensures log.calls == old(log.calls) + [CloseLine]
    {
      isOpen := false;
      active := false;
      log.calls := log.calls + [CloseLine];
    }
  }

  /** A ByteArrayOutputStream: it grows as needed and only ever appends. */
  class CaptureBuffer {
    var bytes: seq<byte>

    constructor ()
      ensures bytes == []
    {
      bytes := [];
    }

    /** write(b, off, len) */
    method Write(b: array<byte>, off: nat, len: nat)
      requires off + len <= b.Length
      modifies this
      ensures bytes == old(bytes) + b[off..off + len]
    {
      bytes := bytes + b[off..off + len];
    }

    /** size() */
    function Size(): nat
      reads this
    {
      |bytes|
    }
  }
}
