/** The recorder that captures one MIDI track as audio: it isolates the track
    on the sequencer, records a pre-roll of fixed-size reads, plays the
    sequence while copying whatever the line has, records a tail, then mutes
    the track again, releases the line and writes the audio out. */
module Recorder {
  import opened Base
  import opened AudioHelp
  import opened Devices

  /** Size of the line's buffer and of the reusable read chunk. */
  const ChunkSize: nat := 8192
  /** Length of the recording before the sequencer starts. */
  const PreRollMillis: int := 2000
  /** Length of the recording after the sequencer stops. */
  const TailMillis: int := 10000

  /** No block the device delivers is larger than the line's buffer. */
  predicate Bounded(feed: seq<seq<byte>>)
  {
    forall k :: 0 <= k < |feed| ==> |feed[k]| <= ChunkSize
  }

  /** The clock readings of one timed loop `while (now - start < window)`,
      where `now` starts at 0: clock[0] is the start time and clock[k] the
      reading at the head of iteration k. The loop runs |clock| - 1 times.
      System.currentTimeMillis() counts from 1970, so no reading is negative. */
  predicate ClockWindow(clock: seq<int>, window: int)
  {
    && |clock| >= 1 && clock[0] >= 0
    && (forall k :: 1 <= k < |clock| - 1 ==> clock[k] - clock[0] < window)
    && if 0 - clock[0] < window then |clock| >= 2 && clock[|clock| - 1] - clock[0] >= window
       else |clock| == 1
  }

  /** The block the read numbered n (from 0) takes: nothing once the device
      has delivered all it had. */
  function Block(feed: seq<seq<byte>>, n: int): seq<byte>
  {
    if 0 <= n < |feed| then feed[n] else []
  }

  /** The blocks left after n reads. */
  function Drop(feed: seq<seq<byte>>, n: nat): seq<seq<byte>>
  {
    if n >= |feed| then [] else feed[n..]
  }

  /** Reading from what is left takes the next block and leaves one less. */
  lemma DropStep(feed: seq<seq<byte>>, n: nat)
    ensures Next(Drop(feed, n)) == Block(feed, n)
    ensures Rest(Drop(feed, n)) == Drop(feed, n + 1)
  {
  }

  /** The state of one recording as it goes: the pieces written to the
      output stream so far, the contents of the reused chunk array, how many
      reads have been made, and the calls made. */
  datatype Capture = Capture(
    pieces: seq<seq<byte>>,
    chunk: seq<byte>,
    taken: nat,
    calls: seq<Call>)

  /** A fresh chunk array. */
  function Zeros(): seq<byte>
  {
    seq(ChunkSize, _ => 0)
  }

  /** Pieces written by a timed loop whose first read was the read numbered
      `from`: each is a whole chunk that begins with the block its read took. */
  predicate FullChunks(pieces: seq<seq<byte>>, feed: seq<seq<byte>>, from: nat)
  {
    && ChunkSized(pieces)
    && forall i :: 0 <= i < |pieces| ==> Block(feed, from + i) <= pieces[i]
  }

  predicate ChunkSized(pieces: seq<seq<byte>>)
  {
    forall i :: 0 <= i < |pieces| ==> |pieces[i]| == ChunkSize
  }

  /** The pieces written by the playback loop: the blocks themselves. */
  function Blocks(feed: seq<seq<byte>>, from: nat, n: nat): (bs: seq<seq<byte>>)
    ensures |bs| == n
  {
    seq(n, i => Block(feed, from + i))
  }

  /** The calls of n iterations of a timed loop. */
  function FixedCalls(feed: seq<seq<byte>>, from: nat, n: nat): (calls: seq<Call>)
    ensures |calls| == n
  {
    seq(n, i => ReadLine(ChunkSize, |Block(feed, from + i)|))
  }

  /** A timed loop only reads. */
  lemma FixedCallsNoFlags(feed: seq<seq<byte>>, from: nat, n: nat)
    ensures NoFlagCalls(FixedCalls(feed, from, n))
  {
  }

  /** One iteration of a timed loop: read(chunk, 0, 8192) overwrites the
      front of the chunk with the next block, and the WHOLE chunk is written,
      whatever the read returned. */
  function FixedRead(feed: seq<seq<byte>>, c: Capture): (r: Capture)
    requires Bounded(feed) && |c.chunk| == ChunkSize
    ensures |r.chunk| == ChunkSize
  {
    var d := Block(feed, c.taken);
    var chunk := d + c.chunk[|d|..];
    Capture(c.pieces + [chunk], chunk, c.taken + 1, c.calls + [ReadLine(ChunkSize, |d|)])
  }

  /** n iterations of a timed loop. */
  function FixedReads(feed: seq<seq<byte>>, c: Capture, n: nat): (r: Capture)
    requires Bounded(feed) && |c.chunk| == ChunkSize
    ensures |r.chunk| == ChunkSize && r.taken == c.taken + n
    decreases n
  {
    if n == 0 then c else FixedRead(feed, FixedReads(feed, c, n - 1))
  }

  /** What n iterations of a timed loop write: n whole chunks, each
      beginning with the block its read took. */
  lemma {:induction false} FixedReadsPieces(feed: seq<seq<byte>>, c: Capture, n: nat)
    requires Bounded(feed) && |c.chunk| == ChunkSize
    ensures var r := FixedReads(feed, c, n);
      && |r.pieces| == |c.pieces| + n && r.pieces[..|c.pieces|] == c.pieces
      && FullChunks(r.pieces[|c.pieces|..], feed, c.taken)
    decreases n
  {
    var r := FixedReads(feed, c, n);
    var k := |c.pieces|;
    if n == 0 {
      assert r.pieces[..k] == c.pieces;
    } else {
      var p := FixedReads(feed, c, n - 1);
      FixedReadsPieces(feed, c, n - 1);
      var d := Block(feed, p.taken);
      assert r.pieces == p.pieces + [r.chunk] && r.chunk == d + p.chunk[|d|..];
      assert r.pieces[..k] == p.pieces[..k];
      assert r.pieces[k..] == p.pieces[k..] + [r.chunk];
      FullChunksSnoc(p.pieces[k..], r.chunk, feed, c.taken);
    }
  }

  lemma FullChunksSnoc(ps: seq<seq<byte>>, x: seq<byte>, feed: seq<seq<byte>>, from: nat)
    requires FullChunks(ps, feed, from) && |x| == ChunkSize && Block(feed, from + |ps|) <= x
    ensures FullChunks(ps + [x], feed, from)
  {
  }

  /** The calls of n iterations of a timed loop: n reads of 8192 bytes. */
  lemma {:induction false} FixedReadsCalls(feed: seq<seq<byte>>, c: Capture, n: nat)
    requires Bounded(feed) && |c.chunk| == ChunkSize
    ensures FixedReads(feed, c, n).calls == c.calls + FixedCalls(feed, c.taken, n)
    decreases n
  {
    if n == 0 {
      assert c.calls + FixedCalls(feed, c.taken, 0) == c.calls;
    } else {
      FixedReadsCalls(feed, c, n - 1);
      assert FixedCalls(feed, c.taken, n)
        == FixedCalls(feed, c.taken, n - 1) + [ReadLine(ChunkSize, |Block(feed, c.taken + n - 1)|)];
    }
  }

  /** The calls of n iterations of the playback loop: each one polls
      isRunning(), asks how much is available and reads exactly that. */
  function PlayCalls(feed: seq<seq<byte>>, from: nat, n: nat): (calls: seq<Call>)
    ensures |calls| == 3 * n
  {
    if n == 0 then []
    else
      var d := Block(feed, from + n - 1);
      PlayCalls(feed, from, n - 1) + [PollRunning(true), Available(|d|), ReadLine(|d|, |d|)]
  }

  /** The playback loop never touches a flag, and every iteration begins
      with a poll that answered true. */
  lemma {:induction false} PlayCallsShape(feed: seq<seq<byte>>, from: nat, n: nat)
    ensures var calls := PlayCalls(feed, from, n);
      && NoFlagCalls(calls)
      && forall i :: 0 <= i < n ==> calls[3 * i] == PollRunning(true)
  {
    if n > 0 {
      PlayCallsShape(feed, from, n - 1);
      var d := Block(feed, from + n - 1);
      NoFlagCallsConcat(PlayCalls(feed, from, n - 1), [PollRunning(true), Available(|d|), ReadLine(|d|, |d|)]);
    }
  }

  /** One iteration of the playback loop: only the bytes read are written. */
  function PlayRead(feed: seq<seq<byte>>, c: Capture): (r: Capture)
    requires Bounded(feed) && |c.chunk| == ChunkSize
    ensures |r.chunk| == ChunkSize
  {
    var d := Block(feed, c.taken);
    Capture(c.pieces + [d], d + c.chunk[|d|..], c.taken + 1,
            c.calls + [PollRunning(true), Available(|d|), ReadLine(|d|, |d|)])
  }

  /** n iterations of the playback loop. */
  function PlayReads(feed: seq<seq<byte>>, c: Capture, n: nat): (r: Capture)
    requires Bounded(feed) && |c.chunk| == ChunkSize
    ensures |r.chunk| == ChunkSize && r.taken == c.taken + n
    decreases n
  {
    if n == 0 then c else PlayRead(feed, PlayReads(feed, c, n - 1))
  }

  /** What n iterations of the playback loop add: exactly the next n
      blocks, and a poll, an available() and a read for each. */
  lemma {:induction false} PlayReadsShape(feed: seq<seq<byte>>, c: Capture, n: nat)
    requires Bounded(feed) && |c.chunk| == ChunkSize
    ensures var r := PlayReads(feed, c, n);
      && r.pieces == c.pieces + Blocks(feed, c.taken, n)
      && r.calls == c.calls + PlayCalls(feed, c.taken, n)
    decreases n
  {
    if n == 0 {
      assert Blocks(feed, c.taken, 0) == [];
    } else {
      var p := PlayReads(feed, c, n - 1);
      PlayReadsShape(feed, c, n - 1);
      var d := Block(feed, c.taken + n - 1);
      assert Blocks(feed, c.taken, n) == Blocks(feed, c.taken, n - 1) + [d];
      AppendAssoc(c.pieces, Blocks(feed, c.taken, n - 1), [d]);
      AppendAssoc(c.calls, PlayCalls(feed, c.taken, n - 1), [PollRunning(true), Available(|d|), ReadLine(|d|, |d|)]);
    }
  }

  /** How many times isRunning() answers true before it first answers false
      (or the sequence ends). */
  function LeadingTrue(polls: seq<bool>): (n: nat)
    ensures n <= |polls|
  {
    if polls == [] || !polls[0] then 0 else 1 + LeadingTrue(polls[1..])
  }

  /** The count covers exactly the leading true answers. */
  lemma {:induction false} LeadingTrueSpec(polls: seq<bool>)
    ensures var n := LeadingTrue(polls);
      && (forall j :: 0 <= j < n ==> polls[j])
      && (n < |polls| ==> !polls[n])
    decreases |polls|
  {
    if polls != [] && polls[0] {
      var rest := polls[1..];
      LeadingTrueSpec(rest);
      forall j | 0 <= j < LeadingTrue(polls)
        ensures polls[j]
      {
        if j > 0 {
          assert polls[j] == rest[j - 1];
        }
      }
    }
  }

  /** The first false (or the end) is where the leading answers stop. */
  lemma {:induction false} LeadingTrueAt(polls: seq<bool>, p: nat)
    requires p <= |polls| && (forall j :: 0 <= j < p ==> polls[j])
    requires p == |polls| || !polls[p]
    ensures LeadingTrue(polls) == p
    decreases p
  {
    if p > 0 {
      LeadingTrueAt(polls[1..], p - 1);
    }
  }

  /** The playback loop stops at the first false answer (or when the
      answers run out), and the answer that stopped it is consumed. */
  lemma PlaybackStops(polls: seq<bool>, p: nat)
    requires p <= LeadingTrue(polls) && (p == |polls| || !polls[p])
    ensures LeadingTrue(polls) == p
    ensures AfterPlayback(polls) == if p < |polls| then polls[p..][1..] else polls[p..]
  {
    LeadingTrueSpec(polls);
    if p < |polls| {
      assert polls[p..][1..] == polls[p + 1..];
    }
  }

  /** A true answer below the count lets the loop go on with one answer
      fewer. */
  lemma PlaybackGoesOn(polls: seq<bool>, p: nat)
    requires p <= LeadingTrue(polls) && p < |polls| && polls[p]
    ensures p + 1 <= LeadingTrue(polls) && polls[p..][1..] == polls[p + 1..]
  {
    LeadingTrueSpec(polls);
  }

  /** The calls before the pre-roll: the line is opened and started before
      the track is unmuted and soloed. */
  function Header(track: int): seq<Call>
  {
    [OpenLine(CD_AUDIO, ChunkSize), StartLine, SetTrackMute(track, false), SetTrackSolo(track, true)]
  }

  /** The calls after the tail: the final isRunning() check, then the track is
      muted and unsoloed, the sequencer stopped and the line released. */
  function Footer(track: int): seq<Call>
  {
    [PollRunning(false), SetTrackMute(track, true), SetTrackSolo(track, false), StopSequencer, StopLine, CloseLine]
  }

  /** The capture after the pre-roll loop (its calls start after the header). */
  function PreRoll(feed: seq<seq<byte>>, pre: nat): (c: Capture)
    requires Bounded(feed)
    ensures |c.chunk| == ChunkSize && c.taken == pre
  {
    FixedReads(feed, Capture([], Zeros(), 0, []), pre)
  }

  /** ... after the sequencer is rewound and started and the playback loop
      has ended. */
  function Playback(feed: seq<seq<byte>>, polls: seq<bool>, pre: nat): (c: Capture)
    requires Bounded(feed)
    ensures |c.chunk| == ChunkSize && c.taken == pre + LeadingTrue(polls)
  {
    var c1 := PreRoll(feed, pre);
    var c3 := PlayReads(feed, c1.(calls := c1.calls + [SetPosition(0), StartSequencer]), LeadingTrue(polls));
    c3.(calls := c3.calls + [PollRunning(false)])
  }

  /** ... after the tail loop: everything between Header and Footer. */
  function Middle(feed: seq<seq<byte>>, polls: seq<bool>, pre: nat, tail: nat): (c: Capture)
    requires Bounded(feed)
    ensures |c.chunk| == ChunkSize && c.taken == pre + LeadingTrue(polls) + tail
  {
    FixedReads(feed, Playback(feed, polls, pre), tail)
  }

  /** A whole recording of `track` whose pre-roll loop runs `pre` times and
      whose tail loop runs `tail` times, when the line can be opened. */
  function Session(track: int, feed: seq<seq<byte>>, polls: seq<bool>, pre: nat, tail: nat): Capture
    requires Bounded(feed)
  {
    var m := Middle(feed, polls, pre, tail);
    m.(calls := Header(track) + m.calls + Footer(track))
  }

  /** The audio: the pieces in the order they were written. */
  function Flatten(pieces: seq<seq<byte>>): seq<byte>
  {
    if pieces == [] then [] else Flatten(pieces[..|pieces| - 1]) + pieces[|pieces| - 1]
  }

  lemma {:induction false} FlattenConcat(a: seq<seq<byte>>, b: seq<seq<byte>>)
    ensures Flatten(a + b) == Flatten(a) + Flatten(b)
    decreases |b|
  {
    if b == [] {
      assert a + b == a;
    } else {
      assert (a + b)[..|a + b| - 1] == a + b[..|b| - 1];
      FlattenConcat(a, b[..|b| - 1]);
      AppendAssoc(Flatten(a), Flatten(b[..|b| - 1]), b[|b| - 1]);
    }
  }

  /** Whole chunks flatten to that many chunks of bytes. */
  lemma {:induction false} FlattenChunks(pieces: seq<seq<byte>>)
    requires ChunkSized(pieces)
    ensures |Flatten(pieces)| == ChunkSize * |pieces|
    decreases |pieces|
  {
    if pieces != [] {
      FlattenChunks(pieces[..|pieces| - 1]);
    }
  }

  lemma PreRollPieces(feed: seq<seq<byte>>, pre: nat)
    requires Bounded(feed)
    ensures var c := PreRoll(feed, pre);
      |c.pieces| == pre && FullChunks(c.pieces, feed, 0)
  {
    var c := PreRoll(feed, pre);
    FixedReadsPieces(feed, Capture([], Zeros(), 0, []), pre);
    assert c.pieces[0..] == c.pieces;
  }

  /** Pieces laid out as a session lays them out: `pre` whole chunks, the
      playback pieces, `tail` whole chunks. */
  predicate SessionLayout(ps: seq<seq<byte>>, feed: seq<seq<byte>>, pre: nat, played: nat, tail: nat)
  {
    && |ps| == pre + played + tail
    && FullChunks(ps[..pre], feed, 0)
    && ps[pre..pre + played] == Blocks(feed, pre, played)
    && FullChunks(ps[pre + played..], feed, pre + played)
  }

  /** The session's pieces: `pre` full chunks, the blocks read while the
      sequencer played, `tail` full chunks. */
  lemma SessionPieces(track: int, feed: seq<seq<byte>>, polls: seq<bool>, pre: nat, tail: nat)
    requires Bounded(feed)
    ensures SessionLayout(Session(track, feed, polls, pre, tail).pieces, feed, pre, LeadingTrue(polls), tail)
  {
    var played := LeadingTrue(polls);
    var c1 := PreRoll(feed, pre);
    var c4 := Playback(feed, polls, pre);
    var m := Middle(feed, polls, pre, tail);
    var b := Blocks(feed, pre, played);
    PreRollPieces(feed, pre);
    PlayReadsShape(feed, c1.(calls := c1.calls + [SetPosition(0), StartSequencer]), played);
    assert c4.pieces == c1.pieces + b;
    FixedReadsPieces(feed, c4, tail);
    var t := m.pieces[|c4.pieces|..];
    assert m.pieces == c4.pieces + t;
    LayoutOf(m.pieces, c1.pieces, b, t, feed, pre, played, tail);
  }

  lemma LayoutOf(ps: seq<seq<byte>>, a: seq<seq<byte>>, b: seq<seq<byte>>, t: seq<seq<byte>>,
                 feed: seq<seq<byte>>, pre: nat, played: nat, tail: nat)
    requires ps == (a + b) + t
    requires |a| == pre && FullChunks(a, feed, 0)
    requires b == Blocks(feed, pre, played)
    requires |t| == tail && FullChunks(t, feed, pre + played)
    ensures SessionLayout(ps, feed, pre, played, tail)
  {
    ThreeParts(ps, a, b, t);
  }

  lemma LayoutLength(ps: seq<seq<byte>>, feed: seq<seq<byte>>, pre: nat, played: nat, tail: nat)
    requires SessionLayout(ps, feed, pre, played, tail)
    ensures |Flatten(ps)| == ChunkSize * (pre + tail) + |Flatten(Blocks(feed, pre, played))|
  {
    var a, b, c := ps[..pre], ps[pre..pre + played], ps[pre + played..];
    assert ChunkSized(a) && ChunkSized(c);
    FlattenChunks(a);
    FlattenChunks(c);
    assert ps == a + b + c;
    FlattenConcat(a + b, c);
    FlattenConcat(a, b);
  }

  /** Audio size: 8192 bytes per pre-roll and tail iteration, plus what was
      read while the sequencer played. */
  lemma SessionAudioLength(track: int, feed: seq<seq<byte>>, polls: seq<bool>, pre: nat, tail: nat)
    requires Bounded(feed)
    ensures |Flatten(Session(track, feed, polls, pre, tail).pieces)|
      == ChunkSize * (pre + tail) + |Flatten(Blocks(feed, pre, LeadingTrue(polls)))|
  {
    SessionPieces(track, feed, polls, pre, tail);
    LayoutLength(Session(track, feed, polls, pre, tail).pieces, feed, pre, LeadingTrue(polls), tail);
  }

  lemma LayoutOfFullBlocks(ps: seq<seq<byte>>, feed: seq<seq<byte>>, pre: nat, played: nat, tail: nat)
    requires SessionLayout(ps, feed, pre, played, tail)
    requires forall k :: 0 <= k < |feed| ==> |feed[k]| == ChunkSize
    requires pre + played + tail <= |feed|
    ensures ps == feed[..pre + played + tail]
  {
    var a, b, c := ps[..pre], ps[pre..pre + played], ps[pre + played..];
    forall i | 0 <= i < pre + played + tail
      ensures ps[i] == feed[i]
    {
      assert Block(feed, i) == feed[i];
      if i < pre {
        assert ps[i] == a[i];
      } else if i < pre + played {
        assert ps[i] == b[i - pre];
      } else {
        assert ps[i] == c[i - pre - played];
      }
    }
  }

  /** When every block the device delivers fills the chunk, the audio is
      exactly the blocks read, in order. */
  lemma SessionCapturesFullBlocks(track: int, feed: seq<seq<byte>>, polls: seq<bool>, pre: nat, tail: nat)
    requires forall k :: 0 <= k < |feed| ==> |feed[k]| == ChunkSize
    requires pre + LeadingTrue(polls) + tail <= |feed|
    ensures Bounded(feed)
    ensures Session(track, feed, polls, pre, tail).pieces == feed[..pre + LeadingTrue(polls) + tail]
  {
    SessionPieces(track, feed, polls, pre, tail);
    LayoutOfFullBlocks(Session(track, feed, polls, pre, tail).pieces, feed, pre, LeadingTrue(polls), tail);
  }

  /** The calls between Header and Footer, phase by phase. */
  function MiddleCalls(feed: seq<seq<byte>>, pre: nat, played: nat, tail: nat): seq<Call>
  {
    FixedCalls(feed, 0, pre) + [SetPosition(0), StartSequencer] + PlayCalls(feed, pre, played)
    + [PollRunning(false)] + FixedCalls(feed, pre + played, tail)
  }

  lemma MiddleIsMiddleCalls(feed: seq<seq<byte>>, polls: seq<bool>, pre: nat, tail: nat)
    requires Bounded(feed)
    ensures Middle(feed, polls, pre, tail).calls == MiddleCalls(feed, pre, LeadingTrue(polls), tail)
  {
    var c4 := Playback(feed, polls, pre);
    PlaybackCalls(feed, polls, pre);
    FixedReadsCalls(feed, c4, tail);
    assert Middle(feed, polls, pre, tail) == FixedReads(feed, c4, tail);
    assert c4.taken == pre + LeadingTrue(polls);
  }

  /** The calls up to the end of the playback loop. */
  lemma PlaybackCalls(feed: seq<seq<byte>>, polls: seq<bool>, pre: nat)
    requires Bounded(feed)
    ensures Playback(feed, polls, pre).calls
      == FixedCalls(feed, 0, pre) + [SetPosition(0), StartSequencer]
         + PlayCalls(feed, pre, LeadingTrue(polls)) + [PollRunning(false)]
  {
    var c1 := PreRoll(feed, pre);
    PreRollCalls(feed, pre);
    var c2 := c1.(calls := c1.calls + [SetPosition(0), StartSequencer]);
    PlayReadsShape(feed, c2, LeadingTrue(polls));
  }

  lemma PreRollCalls(feed: seq<seq<byte>>, pre: nat)
    requires Bounded(feed)
    ensures PreRoll(feed, pre).calls == FixedCalls(feed, 0, pre)
  {
    FixedReadsCalls(feed, Capture([], Zeros(), 0, []), pre);
    assert [] + FixedCalls(feed, 0, pre) == FixedCalls(feed, 0, pre);
  }

  /** Where each phase sits in the calls of a recording. */
  lemma FramedCalls(track: int, feed: seq<seq<byte>>, pre: nat, played: nat, tail: nat)
    ensures var calls := Header(track) + MiddleCalls(feed, pre, played, tail) + Footer(track);
      && |calls| == 13 + pre + 3 * played + tail
      && calls[..4] == Header(track)
      && calls[4..4 + pre] == FixedCalls(feed, 0, pre)
      && calls[4 + pre] == SetPosition(0)
      && calls[5 + pre] == StartSequencer
      && calls[6 + pre + 3 * played] == PollRunning(false)
      && calls[7 + pre + 3 * played..|calls| - 6] == FixedCalls(feed, pre + played, tail)
      && calls[|calls| - 6..] == Footer(track)
  {
    Framed(Header(track), FixedCalls(feed, 0, pre), [SetPosition(0), StartSequencer], PlayCalls(feed, pre, played),
           [PollRunning(false)], FixedCalls(feed, pre + played, tail), Footer(track));
  }

  /** Each turn of the playback loop in a recording's calls starts with a
      poll that answered true. */
  lemma FramedPolls(track: int, feed: seq<seq<byte>>, pre: nat, played: nat, tail: nat)
    ensures var calls := Header(track) + MiddleCalls(feed, pre, played, tail) + Footer(track);
      forall i :: 0 <= i < played ==> calls[6 + pre + 3 * i] == PollRunning(true)
  {
    var pc := PlayCalls(feed, pre, played);
    PlayCallsShape(feed, pre, played);
    var calls := Header(track) + MiddleCalls(feed, pre, played, tail) + Footer(track);
    forall i | 0 <= i < played
      ensures calls[6 + pre + 3 * i] == PollRunning(true)
    {
      FramedAt(Header(track), FixedCalls(feed, 0, pre), [SetPosition(0), StartSequencer], pc,
               [PollRunning(false)], FixedCalls(feed, pre + played, tail), Footer(track), 3 * i);
    }
  }

  lemma FramedAt<T>(h: seq<T>, a: seq<T>, s: seq<T>, p: seq<T>, f: seq<T>, t: seq<T>, e: seq<T>, i: nat)
    requires |h| == 4 && |s| == 2 && i < |p|
    ensures (h + (a + s + p + f + t) + e)[6 + |a| + i] == p[i]
  {
  }

  /** Where each part sits in h + (a + s + p + f + t) + e. */
  lemma Framed<T>(h: seq<T>, a: seq<T>, s: seq<T>, p: seq<T>, f: seq<T>, t: seq<T>, e: seq<T>)
    requires |h| == 4 && |s| == 2 && |f| == 1 && |e| == 6
    ensures var calls := h + (a + s + p + f + t) + e;
      && |calls| == 13 + |a| + |p| + |t|
      && calls[..4] == h
      && calls[4..4 + |a|] == a
      && calls[4 + |a|] == s[0]
      && calls[5 + |a|] == s[1]
      && (forall i :: 0 <= i < |p| ==> calls[6 + |a| + i] == p[i])
      && calls[6 + |a| + |p|] == f[0]
      && calls[7 + |a| + |p|..|calls| - 6] == t
      && calls[|calls| - 6..] == e
  {
  }

  /** The order of the calls of one recording: the header, `pre` fixed reads,
      the position reset and start, `played` poll/available/read triples, the
      poll that answered false, `tail` fixed reads, the footer. */
  lemma SessionCalls(track: int, feed: seq<seq<byte>>, polls: seq<bool>, pre: nat, tail: nat)
    requires Bounded(feed)
    ensures Session(track, feed, polls, pre, tail).calls
      == Header(track) + MiddleCalls(feed, pre, LeadingTrue(polls), tail) + Footer(track)
  {
    MiddleIsMiddleCalls(feed, polls, pre, tail);
  }

  /** The middle of a session never touches a flag. */
  lemma MiddleHasNoFlagCalls(feed: seq<seq<byte>>, polls: seq<bool>, pre: nat, tail: nat)
    requires Bounded(feed)
    ensures NoFlagCalls(Middle(feed, polls, pre, tail).calls)
  {
    var played := LeadingTrue(polls);
    MiddleIsMiddleCalls(feed, polls, pre, tail);
    var a := FixedCalls(feed, 0, pre) + [SetPosition(0), StartSequencer];
    var b := a + PlayCalls(feed, pre, played);
    var c := b + [PollRunning(false)];
    FixedCallsNoFlags(feed, 0, pre);
    PlayCallsShape(feed, pre, played);
    FixedCallsNoFlags(feed, pre + played, tail);
    NoFlagCallsConcat(FixedCalls(feed, 0, pre), [SetPosition(0), StartSequencer]);
    NoFlagCallsConcat(a, PlayCalls(feed, pre, played));
    NoFlagCallsConcat(b, [PollRunning(false)]);
    NoFlagCallsConcat(c, FixedCalls(feed, pre + played, tail));
  }

  lemma NoFlagCallsConcat(a: seq<Call>, b: seq<Call>)
    requires NoFlagCalls(a) && NoFlagCalls(b)
    ensures NoFlagCalls(a + b)
  {
    forall k | 0 <= k < |a + b|
      ensures !IsFlagCall((a + b)[k])
    {
      if k < |a| {
        assert (a + b)[k] == a[k];
      } else {
        assert (a + b)[k] == b[k - |a|];
      }
    }
  }

  lemma HeaderReplay(f: Flags, track: int)
    ensures Replay(f, Header(track)) == Apply(Apply(f, SetTrackMute(track, false)), SetTrackSolo(track, true))
  {
    var h := Header(track);
    ReplayPrefix(f, h, 1);
    ReplayPrefix(f, h, 2);
    ReplayPrefix(f, h, 3);
    ReplayPrefix(f, h, 4);
    assert h[..0] == [] && h[..4] == h;
  }

  lemma FooterReplay(f: Flags, track: int)
    ensures Replay(f, Footer(track)) == Apply(Apply(f, SetTrackMute(track, true)), SetTrackSolo(track, false))
  {
    var h := Footer(track);
    ReplayPrefix(f, h, 1);
    ReplayPrefix(f, h, 2);
    ReplayPrefix(f, h, 3);
    ReplayPrefix(f, h, 4);
    ReplayPrefix(f, h, 5);
    ReplayPrefix(f, h, 6);
    assert h[..0] == [] && h[..6] == h;
  }

  /** Calls framed by Header and Footer with no flag call in between leave
      the track muted and unsoloed and every other track as it was. */
  lemma FramedReplay(f: Flags, track: int, m: seq<Call>)
    requires NoFlagCalls(m)
    ensures Replay(f, Header(track) + m + Footer(track))
      == Apply(Apply(f, SetTrackMute(track, true)), SetTrackSolo(track, false))
  {
    var g := Replay(f, Header(track));
    ReplayConcat(f, Header(track) + m, Footer(track));
    assert Replay(f, Header(track) + m) == g by {
      ReplayConcat(f, Header(track), m);
      ReplayNoFlagCalls(g, m);
    }
    HeaderReplay(f, track);
    FooterReplay(g, track);
  }

  /** The flags after a session: the track is left muted and unsoloed, and
      no other track changes. */
  lemma SessionFlags(f: Flags, track: int, feed: seq<seq<byte>>, polls: seq<bool>, pre: nat, tail: nat)
    requires Bounded(feed)
    ensures Replay(f, Session(track, feed, polls, pre, tail).calls)
      == Apply(Apply(f, SetTrackMute(track, true)), SetTrackSolo(track, false))
  {
    MiddleHasNoFlagCalls(feed, polls, pre, tail);
    FramedReplay(f, track, Middle(feed, polls, pre, tail).calls);
  }

  /** SessionFlags for a call log built piece by piece. */
  lemma FramedMiddleFlags(f: Flags, track: int, m: seq<Call>,
                          feed: seq<seq<byte>>, polls: seq<bool>, pre: nat, tail: nat)
    requires Bounded(feed) && m == Middle(feed, polls, pre, tail).calls
    ensures Replay(f, Header(track) + m + Footer(track))
      == Apply(Apply(f, SetTrackMute(track, true)), SetTrackSolo(track, false))
  {
    MiddleHasNoFlagCalls(feed, polls, pre, tail);
    FramedReplay(f, track, m);
  }

  /** A session's flag calls all name its own track. */
  lemma SessionTouchesOnly(track: int, feed: seq<seq<byte>>, polls: seq<bool>, pre: nat, tail: nat)
    requires Bounded(feed)
    ensures TouchesOnly(Session(track, feed, polls, pre, tail).calls, track)
  {
    var m := Middle(feed, polls, pre, tail).calls;
    MiddleHasNoFlagCalls(feed, polls, pre, tail);
    assert TouchesOnly(Header(track), track);
    assert TouchesOnly(m, track);
    assert TouchesOnly(Footer(track), track);
    TouchesOnlyConcat(Header(track), m, track);
    TouchesOnlyConcat(Header(track) + m, Footer(track), track);
  }

  /** Between two recordings every track is muted and none soloed; a session
      on an existing track returns the sequencer to exactly that state. */
  lemma SessionRestoresQuiet(f: Flags, track: int, feed: seq<seq<byte>>, polls: seq<bool>, pre: nat, tail: nat)
    requires Bounded(feed) && Quiet(f) && 0 <= track < |f.mute|
    ensures Replay(f, Session(track, feed, polls, pre, tail).calls) == f
  {
    SessionFlags(f, track, feed, polls, pre, tail);
    var g := Apply(Apply(f, SetTrackMute(track, true)), SetTrackSolo(track, false));
    assert g.mute == f.mute;
    assert g.solo == f.solo;
  }

  /** Header, then calls that touch no flag, then Footer: from the quiet
      state, no prefix isolates any track but `track`. */
  lemma FramedOnlyIsolated(f: Flags, track: int, m: seq<Call>)
    requires Quiet(f) && NoFlagCalls(m)
    ensures var calls := Header(track) + m + Footer(track);
      forall k :: 0 <= k <= |calls| ==> OnlyIsolated(Replay(f, calls[..k]), track)
  {
    var calls := Header(track) + m + Footer(track);
    assert TouchesOnly(calls, track) by {
      TouchesOnlyConcat(Header(track), m, track);
      TouchesOnlyConcat(Header(track) + m, Footer(track), track);
    }
    forall k | 0 <= k <= |calls|
      ensures OnlyIsolated(Replay(f, calls[..k]), track)
    {
      assert TouchesOnly(calls[..k], track);
      QuietTouchesOnly(f, calls[..k], track);
    }
  }

  /** ... and from the end of Header until Footer mutes it, `track` is
      unmuted and soloed. */
  lemma FramedSoloed(f: Flags, track: int, m: seq<Call>)
    requires 0 <= track < |f.mute| == |f.solo| && NoFlagCalls(m)
    ensures var calls := Header(track) + m + Footer(track);
      forall k :: 4 <= k <= |calls| - 5 ==>
        !Replay(f, calls[..k]).mute[track] && Replay(f, calls[..k]).solo[track]
  {
    var calls := Header(track) + m + Footer(track);
    HeaderReplay(f, track);
    var polled := m + [PollRunning(false)];
    assert NoFlagCalls(polled);
    forall k | 4 <= k <= |calls| - 5
      ensures !Replay(f, calls[..k]).mute[track] && Replay(f, calls[..k]).solo[track]
    {
      var mid := polled[..k - 4];
      assert calls[..k] == Header(track) + mid;
      ReplayConcat(f, Header(track), mid);
      ReplayNoFlagCalls(Replay(f, Header(track)), mid);
    }
  }

  /** Starting from the quiet state, at no point of a session is any track
      but the recorded one audible or soloed; and from the moment it is
      soloed until the footer mutes it, the recorded track is unmuted and
      soloed. */
  lemma SessionIsolation(f: Flags, track: int, feed: seq<seq<byte>>, polls: seq<bool>, pre: nat, tail: nat)
    requires Bounded(feed) && Quiet(f) && 0 <= track < |f.mute|
    ensures var calls := Session(track, feed, polls, pre, tail).calls;
      forall k :: 0 <= k <= |calls| ==> OnlyIsolated(Replay(f, calls[..k]), track)
    ensures var calls := Session(track, feed, polls, pre, tail).calls;
      forall k :: 4 <= k <= |calls| - 5 ==>
        !Replay(f, calls[..k]).mute[track] && Replay(f, calls[..k]).solo[track]
  {
    MiddleHasNoFlagCalls(feed, polls, pre, tail);
    FramedOnlyIsolated(f, track, Middle(feed, polls, pre, tail).calls);
    FramedSoloed(f, track, Middle(feed, polls, pre, tail).calls);
  }

  /** "./recording_" + track + ".wav" */
  function RecordingName(track: int): (name: string)
    ensures "./recording_" <= name
    ensures |name| > |"./recording_.wav"|
  {
    "./recording_" + IntToString(track) + ".wav"
  }

  /** Different tracks are written to different files. */
  lemma RecordingNameInjective(a: int, b: int)
    ensures RecordingName(a) == RecordingName(b) ==> a == b
  {
    if RecordingName(a) == RecordingName(b) {
      var sa, sb := IntToString(a), IntToString(b);
      assert RecordingName(a)[12..|RecordingName(a)| - 4] == sa;
      assert RecordingName(b)[12..|RecordingName(b)| - 4] == sb;
      IntToStringInjective(a, b);
    }
  }

  /** The file written: its name, the format given to the AudioInputStream,
      the bytes, and the length given to it (the byte count). */
  datatype WavFile = WavFile(name: string, format: AudioFormat, data: seq<byte>, frameLength: nat)

  function WavOf(track: int, audio: seq<byte>): (w: WavFile)
    ensures w.name == RecordingName(track) && w.format == CD_AUDIO && w.data == audio
  {
    WavFile(RecordingName(track), CD_AUDIO, audio, |audio|)
  }

  /** The AudioInputStream is told the byte count where it expects a count of
      frames, so the length it declares is four times the bytes it holds. */
  lemma WavDeclaresFourTimesTheData(track: int, audio: seq<byte>)
    ensures var w := WavOf(track, audio);
      w.frameLength * FrameSize(w.format) == 4 * |w.data|
  {
    CdAudioRates();
  }

  /** The reading the loop condition compares at the head of iteration k:
      `currentTime` starts at 0, then holds the last reading taken. */
  function Reading(clock: seq<int>, k: nat): int
    requires 1 <= k <= |clock|
  {
    if k == 1 then 0 else clock[k - 1]
  }

  /** A timed loop continues exactly while readings are left: it runs
      |clock| - 1 times. */
  lemma ClockWindowRuns(clock: seq<int>, window: int, k: nat)
    requires ClockWindow(clock, window) && 1 <= k <= |clock|
    ensures Reading(clock, k) - clock[0] < window <==> k < |clock|
  {
  }

  /** A positive window is entered at least once: the first test compares
      the start time with 0, which is at most the start time. */
  lemma ClockWindowEntered(clock: seq<int>, window: int)
    requires ClockWindow(clock, window) && 0 < window
    ensures |clock| >= 2
  {
  }

  /** Each timed loop records at least one whole chunk, so a recording holds
      at least two chunks of audio whatever the sequencer and the line do. */
  lemma SessionFillsTwoChunks(track: int, feed: seq<seq<byte>>, polls: seq<bool>,
                              preClock: seq<int>, tailClock: seq<int>)
    requires Bounded(feed) && ClockWindow(preClock, PreRollMillis) && ClockWindow(tailClock, TailMillis)
    ensures |Flatten(Session(track, feed, polls, |preClock| - 1, |tailClock| - 1).pieces)| >= 2 * ChunkSize
  {
    ClockWindowEntered(preClock, PreRollMillis);
    ClockWindowEntered(tailClock, TailMillis);
    SessionAudioLength(track, feed, polls, |preClock| - 1, |tailClock| - 1);
  }

  /** What is left of the isRunning() answers once the playback loop has
      seen its first false (the answer is consumed with it). */
  function AfterPlayback(polls: seq<bool>): (rest: seq<bool>)
    ensures |rest| <= |polls|
  {
    var n := LeadingTrue(polls);
    if n < |polls| then polls[n + 1..] else []
  }

  lemma FlattenSnoc(ps: seq<seq<byte>>, x: seq<byte>)
    ensures Flatten(ps + [x]) == Flatten(ps) + x
  {
    assert (ps + [x])[..|ps|] == ps;
  }

  /** Unmuting and soloing a track and then muting and unsoloing it leaves
      the same flags as only muting and unsoloing it. */
  lemma Reisolate(f: Flags, track: int)
    ensures Apply(Apply(Apply(Apply(f, SetTrackMute(track, false)), SetTrackSolo(track, true)),
                        SetTrackMute(track, true)), SetTrackSolo(track, false))
         == Apply(Apply(f, SetTrackMute(track, true)), SetTrackSolo(track, false))
  {
    if 0 <= track < |f.mute| {
      assert f.mute[track := false][track := true] == f.mute[track := true];
    }
    if 0 <= track < |f.solo| {
      assert f.solo[track := true][track := false] == f.solo[track := false];
    }
  }

  /** AudioRecorder: records one track of the sequencer through the line.
      The line and the sequencer share one log of the calls made on them. */
  class AudioRecorder {
    const line: CaptureLine
    const sequencer: Sequencer
    const track: int
    ghost const log: Log

    constructor (line: CaptureLine, sequencer: Sequencer, track: int)
      requires line.log == sequencer.log
      ensures this.line == line && this.sequencer == sequencer && this.track == track
      ensures Wired()
    {
      this.line := line;
      this.sequencer := sequencer;
      this.track := track;
      this.log := line.log;
    }

    /** The line and the sequencer report their calls to the recorder's log. */
    ghost predicate Wired()
    {
      line.log == log && sequencer.log == log
    }

    /** The line, the chunk array and the buffer are where the capture
        `c` says they are: the line has delivered the first c.taken blocks,
        the array holds c.chunk and the buffer holds the pieces written. */
    ghost predicate Mirrors(chunk: array<byte>, audio: CaptureBuffer, feed: seq<seq<byte>>, c: Capture)
      reads line, chunk, audio
    {
      && Wired()
      && Bounded(feed) && |c.chunk| == ChunkSize
      && line.isOpen && line.feed == Drop(feed, c.taken)
      && chunk[..] == c.chunk && audio.bytes == Flatten(c.pieces)
    }

    /** The body of a timed loop: read(chunk, 0, 8192), then write the
        whole chunk. */
    method TimedStep(chunk: array<byte>, audio: CaptureBuffer, ghost feed: seq<seq<byte>>, ghost c: Capture)
      returns (n: nat, ghost r: Capture)
      requires Mirrors(chunk, audio, feed, c)
      modifies line, chunk, audio, log
      ensures r == FixedRead(feed, c) && r.calls == c.calls + [ReadLine(ChunkSize, n)]
      ensures Mirrors(chunk, audio, feed, r)
      ensures log.calls == old(log.calls) + [ReadLine(ChunkSize, n)]
    {
      DropStep(feed, c.taken);
      n := line.Read(chunk, ChunkSize);
      audio.Write(chunk, 0, chunk.Length);
      assert chunk[0..chunk.Length] == chunk[..];
      FlattenSnoc(c.pieces, chunk[..]);
      r := FixedRead(feed, c);
    }

    /** One timed loop of run(): while less than `window` milliseconds of
        clock have passed, read a whole chunk and write the whole chunk. As
        currentTime starts at 0, a positive window is entered at least once. */
    method RecordTimed(clock: seq<int>, window: int, chunk: array<byte>, audio: CaptureBuffer,
                       ghost feed: seq<seq<byte>>, ghost c: Capture)
      returns (more: seq<Call>, ghost r: Capture)
      requires ClockWindow(clock, window) && Mirrors(chunk, audio, feed, c)
      modifies line, chunk, audio, log
      ensures r == FixedReads(feed, c, |clock| - 1) && r.calls == c.calls + more
      ensures 0 < window ==> r.taken > c.taken
      ensures Mirrors(chunk, audio, feed, r)
      ensures log.calls == old(log.calls) + more
    {
      more := [];
      r := c;
      var startTime := clock[0];
      var currentTime := 0;
      var k := 1;
      while currentTime - startTime < window
        invariant 1 <= k <= |clock| && currentTime == Reading(clock, k)
        invariant r == FixedReads(feed, c, k - 1) && r.calls == c.calls + more
        invariant Mirrors(chunk, audio, feed, r)
        invariant log.calls == old(log.calls) + more
        modifies line, chunk, audio, log
        decreases |clock| - k
      {
        ClockWindowRuns(clock, window, k);
        currentTime := clock[k];
        var n;
        n, r := TimedStep(chunk, audio, feed, r);
        AppendAssoc(c.calls, more, [ReadLine(ChunkSize, n)]);
        AppendAssoc(old(log.calls), more, [ReadLine(ChunkSize, n)]);
        more := more + [ReadLine(ChunkSize, n)];
        k := k + 1;
      }
      ClockWindowRuns(clock, window, k);
      if 0 < window {
        ClockWindowEntered(clock, window);
      }
    }

    /** The body of the playback loop after isRunning() answered true:
        read(chunk, 0, available()), then write what was read. */
    method PlayStep(chunk: array<byte>, audio: CaptureBuffer, ghost feed: seq<seq<byte>>, ghost c: Capture)
      returns (avail: nat, count: nat, ghost r: Capture)
      requires Mirrors(chunk, audio, feed, c)
      modifies line, chunk, audio, log
      ensures r == PlayRead(feed, c)
      ensures r.calls == c.calls + [PollRunning(true), Available(avail), ReadLine(avail, count)]
      ensures Mirrors(chunk, audio, feed, r)
      ensures log.calls == old(log.calls) + [Available(avail), ReadLine(avail, count)]
    {
      DropStep(feed, c.taken);
      avail := line.Available();
      count := line.Read(chunk, avail);
      audio.Write(chunk, 0, count);
      FlattenSnoc(c.pieces, chunk[..count]);
      r := PlayRead(feed, c);
    }

    /** One turn of the playback loop: ask isRunning(); when it answers true,
        read what the line has available and write exactly that. */
    method PlayTurn(chunk: array<byte>, audio: CaptureBuffer, ghost feed: seq<seq<byte>>, ghost c: Capture,
                    ghost polls: seq<bool>, ghost p: nat)
      returns (running: bool, step: seq<Call>, ghost r: Capture)
      requires Mirrors(chunk, audio, feed, c) && sequencer.running
      requires p <= LeadingTrue(polls) && sequencer.polls == polls[p..]
      modifies line, chunk, audio, sequencer, log
      ensures log.calls == old(log.calls) + step
      ensures sequencer.State() == old(sequencer.State())
      ensures Mirrors(chunk, audio, feed, r)
      ensures running ==>
        && p + 1 <= LeadingTrue(polls) && sequencer.polls == polls[p + 1..] && sequencer.running
        && r == PlayRead(feed, c) && r.calls == c.calls + step
      ensures !running ==>
        && LeadingTrue(polls) == p && step == [PollRunning(false)] && r == c
        && sequencer.polls == AfterPlayback(polls) && !sequencer.running
        && sequencer.position == sequencer.length
    {
      r := c;
      running := sequencer.IsRunning();
      step := [PollRunning(running)];
      if !running {
        PlaybackStops(polls, p);
        return;
      }
      PlaybackGoesOn(polls, p);
      var avail, count;
      avail, count, r := PlayStep(chunk, audio, feed, r);
      step := step + [Available(avail), ReadLine(avail, count)];
    }

    /** The playback loop of run(): while the sequencer reports that it
        runs, read what the line has available and write exactly that. */
    method RecordPlaying(chunk: array<byte>, audio: CaptureBuffer, ghost feed: seq<seq<byte>>, ghost c: Capture)
      returns (more: seq<Call>, ghost r: Capture)
      requires Mirrors(chunk, audio, feed, c) && sequencer.running
      modifies line, chunk, audio, sequencer, log
      ensures r == PlayReads(feed, c, LeadingTrue(old(sequencer.polls)))
      ensures c.calls + more == r.calls + [PollRunning(false)]
      ensures Mirrors(chunk, audio, feed, r)
      ensures sequencer.polls == AfterPlayback(old(sequencer.polls)) && !sequencer.running
      ensures sequencer.State() == old(sequencer.State()) && sequencer.position == sequencer.length
      ensures log.calls == old(log.calls) + more
    {
      ghost var polls := sequencer.polls;
      ghost var log0 := log.calls;
      more := [];
      r := c;
      ghost var p := 0;
      while true
        invariant p <= LeadingTrue(polls) && sequencer.polls == polls[p..] && sequencer.running
        invariant sequencer.State() == old(sequencer.State())
        invariant r == PlayReads(feed, c, p) && c.calls + more == r.calls
        invariant Mirrors(chunk, audio, feed, r)
        invariant log.calls == log0 + more
        modifies line, chunk, audio, sequencer, log
        decreases |polls| - p
      {
        var running, step;
        ghost var next;
        running, step, next := PlayTurn(chunk, audio, feed, r, polls, p);
        AppendAssoc(log0, more, step);
        AppendAssoc(c.calls, more, step);
        more := more + step;
        if !running {
          break;
        }
        r := next;
        p := p + 1;
      }
    }

    /** The middle phase of run(): rewind and start the sequencer, then
        follow it until it reports that it stopped, at the end of the
        sequence. */
    method RecordPlayback(chunk: array<byte>, audio: CaptureBuffer, ghost feed: seq<seq<byte>>, ghost c: Capture)
      returns (more: seq<Call>, ghost r: Capture)
      requires Mirrors(chunk, audio, feed, c) && sequencer.Valid()
      modifies line, chunk, audio, sequencer, log
      ensures var p := PlayReads(feed, c.(calls := c.calls + [SetPosition(0), StartSequencer]),
                                 LeadingTrue(old(sequencer.polls)));
        r == p.(calls := p.calls + [PollRunning(false)]) && r.calls == c.calls + more
      ensures Mirrors(chunk, audio, feed, r)
      ensures sequencer.Valid() && sequencer.State() == old(sequencer.State())
      ensures sequencer.position == sequencer.length && !sequencer.running
      ensures sequencer.polls == AfterPlayback(old(sequencer.polls))
      ensures log.calls == old(log.calls) + more
    {
      sequencer.SetMicrosecondPosition(0);
      sequencer.Start();
      more := [SetPosition(0), StartSequencer];
      ghost var c1 := c.(calls := c.calls + more);
      var played;
      played, r := RecordPlaying(chunk, audio, feed, c1);
      AppendAssoc(old(log.calls), more, played);
      more := more + played;
      r := r.(calls := r.calls + [PollRunning(false)]);
    }

    /** The three capture phases of run() between the set-up and the
        clean-up: the pre-roll, starting the sequencer from the beginning
        and following it while it plays, and the tail. */
    method RecordSession(preClock: seq<int>, tailClock: seq<int>, chunk: array<byte>, audio: CaptureBuffer,
                         ghost feed: seq<seq<byte>>, ghost polls: seq<bool>)
      returns (more: seq<Call>, ghost c: Capture)
      requires ClockWindow(preClock, PreRollMillis) && ClockWindow(tailClock, TailMillis) && Bounded(feed)
      requires Wired() && line.isOpen && line.feed == feed && sequencer.Valid() && sequencer.polls == polls
      requires chunk[..] == Zeros() && audio.bytes == []
      modifies line, chunk, audio, sequencer, log
      ensures c == Middle(feed, polls, |preClock| - 1, |tailClock| - 1) && more == c.calls
      ensures line.isOpen && line.feed == Drop(feed, c.taken) && audio.bytes == Flatten(c.pieces)
      ensures sequencer.Valid() && sequencer.State() == old(sequencer.State())
      ensures sequencer.position == sequencer.length && !sequencer.running
      ensures sequencer.polls == AfterPlayback(polls)
      ensures log.calls == old(log.calls) + more
    {
      ghost var pre, tail := |preClock| - 1, |tailClock| - 1;
      c := Capture([], Zeros(), 0, []);
      more, c := RecordTimed(preClock, PreRollMillis, chunk, audio, feed, c);
      assert c == PreRoll(feed, pre) && more == c.calls;
      var played;
      played, c := RecordPlayback(chunk, audio, feed, c);
      AppendAssoc(old(log.calls), more, played);
      more := more + played;
      assert c == Playback(feed, polls, pre) && more == c.calls;
      var tailCalls;
      tailCalls, c := RecordTimed(tailClock, TailMillis, chunk, audio, feed, c);
      AppendAssoc(old(log.calls), more, tailCalls);
      more := more + tailCalls;
      assert more == c.calls;
    }

    /** The guarded end of run(): once isRunning() answers false, mute and
        unsolo the track, stop the sequencer, stop and close the line, and
        write what was captured to the track's file (writeOk is false when
        the write fails). */
    method Release(audio: CaptureBuffer, writeOk: bool) returns (footer: seq<Call>, file: Option<WavFile>)
      requires Wired() && sequencer.Valid() && !sequencer.running
      modifies line, sequencer, log
      ensures footer == Footer(track)
      ensures file == if writeOk then Some(WavOf(track, audio.bytes)) else None
      ensures sequencer.Valid()
      ensures sequencer.State()
        == Apply(Apply(old(sequencer.State()), SetTrackMute(track, true)), SetTrackSolo(track, false))
      ensures sequencer.position == old(sequencer.position) && sequencer.polls == old(sequencer.polls)
      ensures !sequencer.running && !line.isOpen && !line.active && line.feed == old(line.feed)
      ensures log.calls == old(log.calls) + footer
    {
      var still := sequencer.IsRunning();
      footer := [PollRunning(still)];
      file := None;
      if !still {
        sequencer.SetTrackMute(track, true);
        sequencer.SetTrackSolo(track, false);
        sequencer.Stop();
        line.Stop();
        line.Close();
        footer := footer + [SetTrackMute(track, true), SetTrackSolo(track, false), StopSequencer, StopLine, CloseLine];
        var size := audio.Size();
        if writeOk {
          file := Some(WavFile(RecordingName(track), CD_AUDIO, audio.bytes, size));
        }
      }
    }

    /** The set-up of run(): open the line with the capture format and an
        8192-byte buffer, start it, then unmute and solo the track. Opening
        is the step that can fail (the line is unavailable). */
    method Prepare() returns (ok: bool, header: seq<Call>)
      requires Wired() && sequencer.Valid() && !line.isOpen
      modifies line, sequencer, log
      ensures ok == !line.openFails
      ensures log.calls == old(log.calls) + header
      ensures !ok ==> header == [OpenLine(CD_AUDIO, ChunkSize)] && unchanged(line) && unchanged(sequencer)
      ensures ok ==> header == Header(track) && line.isOpen && line.feed == old(line.feed)
      ensures ok ==> line.format == CD_AUDIO && line.bufferSize == ChunkSize && line.active
      ensures ok ==> sequencer.Valid()
      ensures ok ==> sequencer.State()
                     == Apply(Apply(old(sequencer.State()), SetTrackMute(track, false)), SetTrackSolo(track, true))
      ensures ok ==> sequencer.polls == old(sequencer.polls) && sequencer.position == old(sequencer.position)
      ensures ok ==> sequencer.running == old(sequencer.running)
    {
      header := [OpenLine(CD_AUDIO, ChunkSize)];
      ok := line.Open(CD_AUDIO, ChunkSize);
      if !ok {
        return;
      }
      line.Start();
      sequencer.SetTrackMute(track, false);
      sequencer.SetTrackSolo(track, true);
      header := header + [StartLine, SetTrackMute(track, false), SetTrackSolo(track, true)];
    }

    /** run(): preClock and tailClock are the clock readings the two timed
        loops take; writeOk is false when writing the file fails. The line
        failing to open ends the run before anything else happens. */
    method Run(preClock: seq<int>, tailClock: seq<int>, writeOk: bool) returns (calls: seq<Call>, file: Option<WavFile>)
      requires Wired() && sequencer.Valid() && !line.isOpen && Bounded(line.feed)
      requires ClockWindow(preClock, PreRollMillis) && ClockWindow(tailClock, TailMillis)
      modifies line, sequencer, log
      ensures log.calls == old(log.calls) + calls
      ensures line.openFails ==>
        calls == [OpenLine(CD_AUDIO, ChunkSize)] && file == None && unchanged(line) && unchanged(sequencer)
      ensures !line.openFails ==>
        var s := Session(track, old(line.feed), old(sequencer.polls), |preClock| - 1, |tailClock| - 1);
        && calls == s.calls
        && file == (if writeOk then Some(WavOf(track, Flatten(s.pieces))) else None)
        && |Flatten(s.pieces)| >= 2 * ChunkSize
        && line.feed == Drop(old(line.feed), s.taken) && !line.isOpen && !line.active
        && sequencer.Valid() && sequencer.State() == Replay(old(sequencer.State()), calls)
        && sequencer.position == sequencer.length && !sequencer.running
        && sequencer.polls == AfterPlayback(old(sequencer.polls))
    {
      var audio := new CaptureBuffer();
      var chunk := new byte[ChunkSize](_ => 0);
      ghost var feed := line.feed;
      ghost var polls := sequencer.polls;
      ghost var f0 := sequencer.State();
      file := None;
      var ok;
      ok, calls := Prepare();
      if !ok {
        return;
      }
      assert chunk[..] == Zeros();
      var more;
      ghost var c;
      more, c := RecordSession(preClock, tailClock, chunk, audio, feed, polls);
      AppendAssoc(old(log.calls), calls, more);
      calls := calls + more;

      var footer;
      footer, file := Release(audio, writeOk);
      AppendAssoc(old(log.calls), calls, footer);
      calls := calls + footer;
      FramedMiddleFlags(f0, track, more, feed, polls, |preClock| - 1, |tailClock| - 1);
      Reisolate(f0, track);
      SessionFillsTwoChunks(track, feed, polls, preClock, tailClock);
    }
  }
}
