/** MidiHelp: choosing the MIDI output device by its descriptor string, and
    the event list of the demonstration file that writeMidiFile builds. */
module MidiHelp {
  import opened Base

  // ---------------------------------------------------------------------
  // Receiver selection

  /** The test getReceiver applies to each device descriptor
      (MidiDevice.Info.toString()): it contains the decimal port number and
      it contains the interface name, both as plain substrings. */
  predicate Matches(descriptor: string, port: int, midiInterfaceName: string)
  {
    Contains(descriptor, IntToString(port)) && Contains(descriptor, midiInterfaceName)
  }

  /** What getReceiver ends with: MidiUnavailableException when the system
      lists no MIDI device at all, otherwise the receiver of the chosen
      device, or null (None) when no descriptor matched. */
  datatype Lookup = NoDevices | Receiver(device: Option<nat>)

  /** getReceiver: scans the descriptors in order and takes the first that
      matches, stopping there. */
  method GetReceiver(port: int, midiInterfaceName: string, info: seq<string>) returns (r: Lookup)
    ensures r == NoDevices <==> |info| == 0
    ensures r.Receiver? && r.device.Some? ==>
      && r.device.value < |info|
      && Matches(info[r.device.value], port, midiInterfaceName)
      && forall j :: 0 <= j < r.device.value ==> !Matches(info[j], port, midiInterfaceName)
    ensures r.Receiver? && r.device.None? ==>
      forall j :: 0 <= j < |info| ==> !Matches(info[j], port, midiInterfaceName)
  {
    if |info| == 0 {
      return NoDevices;
    }
    var receiver: Option<nat> := None;
    var i := 0;
    while i < |info|
      invariant 0 <= i <= |info|
      invariant receiver.None?
      invariant forall j :: 0 <= j < i ==> !Matches(info[j], port, midiInterfaceName)
    {
      if Matches(info[i], port, midiInterfaceName) {
        receiver := Some(i);
        break;
      }
      i := i + 1;
    }
    r := Receiver(receiver);
  }

  /** A descriptor that names a longer port number starting with the digits
      of `port` (port 12 when asking for port 1) passes the port test. */
  lemma LongerPortMatches(descriptor: string, port: int, moreDigits: string)
    requires Contains(descriptor, IntToString(port) + moreDigits)
    ensures Contains(descriptor, IntToString(port))
  {
    assert IntToString(port) <= IntToString(port) + moreDigits;
    ContainsAt(IntToString(port) + moreDigits, IntToString(port), 0);
    ContainsTransitive(descriptor, IntToString(port) + moreDigits, IntToString(port));
  }

  /** The interface name the application was written for. */
  const MOTU_MIDI_EXPRESS: string := "Express  128: Port"

  /** With that interface name, ports 1, 2, 8, 12, 28 and 128 pass the port
      test on EVERY descriptor of the interface, because their digits occur
      in the name itself; the first device of the interface is then chosen
      whatever its port. */
  lemma PortsHiddenInInterfaceName(descriptor: string, port: int)
    requires Contains(descriptor, MOTU_MIDI_EXPRESS)
    requires port == 1 || port == 2 || port == 8 || port == 12 || port == 28 || port == 128
    ensures Matches(descriptor, port, MOTU_MIDI_EXPRESS)
  {
    var digits := IntToString(port);
    var at: nat := if port == 2 || port == 28 then 10 else if port == 8 then 11 else 9;
    if port == 12 {
      assert digits == "12";
    } else if port == 28 {
      assert digits == "28";
    } else if port == 128 {
      assert NatToString(12) == "12";
      assert digits == "128";
    }
    assert digits <= MOTU_MIDI_EXPRESS[at..];
    ContainsAt(MOTU_MIDI_EXPRESS, digits, at);
    ContainsTransitive(descriptor, MOTU_MIDI_EXPRESS, digits);
  }

  // ---------------------------------------------------------------------
  // Events

  /** javax.sound.midi messages with their bytes seen as unsigned values. */
  datatype MidiMessage =
    | MetaMessage(metaType: byte, data: seq<byte>)
    | ShortMessage(status: byte, data1: byte, data2: byte)

  /** A message at an absolute tick. */
  datatype MidiEvent = MidiEvent(message: MidiMessage, tick: int)

  const NOTE_OFF: byte := 0x80
  const NOTE_ON: byte := 0x90
  const SET_TEMPO: byte := 0x51
  const TICKS_PER_QUARTER: nat := 960
  const NOTE_COUNT: nat := 100

  /** The data bytes writeMidiFile gives its tempo meta message. */
  const TEMPO_DATA: seq<byte> := [0x51, 0x03, 0x07, 160, 0x20]

  /** ShortMessage.setMessage(command, channel, data1, data2): the status byte
      is the command with the channel in its low nibble. */
  function NoteMessage(command: byte, channel: nat, key: nat, velocity: nat): MidiMessage
    requires command == NOTE_ON || command == NOTE_OFF
    requires channel < 16 && key < 128 && velocity < 128
  {
    ShortMessage(command + channel, key, velocity)
  }

  predicate TicksSorted(track: seq<MidiEvent>)
  {
    forall a, b :: 0 <= a < b < |track| ==> track[a].tick <= track[b].tick
  }

  const END_OF_TRACK: byte := 0x2F

  /** The End of Track meta event (FF 2F 00). */
  function EndOfTrack(tick: int): MidiEvent
  {
    MidiEvent(MetaMessage(END_OF_TRACK, []), tick)
  }

  predicate IsEndOfTrack(m: MidiMessage)
  {
    m.MetaMessage? && m.metaType == END_OF_TRACK
  }

  /** A javax.sound.midi Track: the events added to it, in the order it
      keeps them, and the tick of the End of Track event every track holds
      after them. */
  datatype Track = Track(added: seq<MidiEvent>, endTick: int)

  /** The events of a track as it lists and writes them: End of Track last. */
  function Events(t: Track): (es: seq<MidiEvent>)
    ensures |es| == |t.added| + 1 && es[|es| - 1] == EndOfTrack(t.endTick)
    ensures es[..|t.added|] == t.added
  {
    t.added + [EndOfTrack(t.endTick)]
  }

  /** A track made by `new Sequence(...)` or `Sequence.createTrack()`: only
      End of Track, at tick 0. */
  const EmptyTrack: Track := Track([], 0)

  /** The events of a track are in tick order and none comes after End of
      Track. */
  predicate Ordered(t: Track)
  {
    TicksSorted(t.added) && forall k :: 0 <= k < |t.added| ==> t.added[k].tick <= t.endTick
  }

  /** Inserting among the added events: the event goes in after every event
      whose tick is not later than its own. */
  function Insert(events: seq<MidiEvent>, e: MidiEvent): (r: seq<MidiEvent>)
    ensures multiset(r) == multiset(events) + multiset{e}
    decreases |events|
  {
    if events == [] || events[|events| - 1].tick <= e.tick then
      events + [e]
    else
      var front, last := events[..|events| - 1], events[|events| - 1];
      assert events == front + [last];
      Insert(front, e) + [last]
  }

  /** Track.add: an End of Track event only moves the track's end to a later
      tick. Any other event no earlier than the end overwrites End of Track,
      which is appended again at the event's tick; an earlier one is inserted
      in tick order before it. */
  function AddEvent(t: Track, e: MidiEvent): (r: Track)
    ensures IsEndOfTrack(e.message) ==> r.added == t.added
    ensures !IsEndOfTrack(e.message) ==> multiset(r.added) == multiset(t.added) + multiset{e}
    ensures r.endTick == if t.endTick < e.tick then e.tick else t.endTick
  {
    if IsEndOfTrack(e.message) then
      Track(t.added, if t.endTick < e.tick then e.tick else t.endTick)
    else if t.endTick <= e.tick then
      Track(t.added + [e], e.tick)
    else
      Track(Insert(t.added, e), t.endTick)
  }

  /** An ordered track lists its events, End of Track included, in tick
      order. */
  lemma OrderedEvents(t: Track)
    requires Ordered(t)
    ensures TicksSorted(Events(t))
  {
  }

  /** Inserting keeps the added events in tick order. */
  lemma {:induction false} InsertKeepsSorted(events: seq<MidiEvent>, e: MidiEvent)
    requires TicksSorted(events)
    ensures TicksSorted(Insert(events, e))
    decreases |events|
  {
    if !(events == [] || events[|events| - 1].tick <= e.tick) {
      var front, last := events[..|events| - 1], events[|events| - 1];
      assert events == front + [last];
      InsertKeepsSorted(front, e);
      var r' := Insert(front, e);
      forall k | 0 <= k < |r'|
        ensures r'[k].tick <= last.tick
      {
        assert r'[k] in multiset(r');
        if r'[k] != e {
          assert r'[k] in multiset(front);
          var j :| 0 <= j < |front| && front[j] == r'[k];
          assert events[j] == front[j];
        }
      }
    }
  }

  /** Every inserted event lies no later than a bound all of them keep. */
  lemma InsertBounded(events: seq<MidiEvent>, e: MidiEvent, bound: int)
    requires forall k :: 0 <= k < |events| ==> events[k].tick <= bound
    requires e.tick <= bound
    ensures forall k :: 0 <= k < |Insert(events, e)| ==> Insert(events, e)[k].tick <= bound
  {
    var r := Insert(events, e);
    forall k | 0 <= k < |r|
      ensures r[k].tick <= bound
    {
      assert r[k] in multiset(r);
      if r[k] != e {
        assert r[k] in multiset(events);
      }
    }
  }

  /** Track.add keeps a track ordered, with End of Track last. */
  lemma AddEventKeepsOrder(t: Track, e: MidiEvent)
    requires Ordered(t)
    ensures Ordered(AddEvent(t, e))
  {
    if !IsEndOfTrack(e.message) && e.tick < t.endTick {
      InsertKeepsSorted(t.added, e);
      InsertBounded(t.added, e, t.endTick);
    }
  }

  /** Adding an event no earlier than the end of the track appends it and
      moves End of Track to its tick. */
  lemma AddEventAppends(t: Track, e: MidiEvent)
    requires !IsEndOfTrack(e.message) && t.endTick <= e.tick
    ensures Events(AddEvent(t, e)) == t.added + [e, EndOfTrack(e.tick)]
  {
  }

  /** The key of the i-th note of the demonstration: a chromatic run over two
      octaves starting at middle C. */
  function Key(i: nat): nat
  {
    60 + i % 24
  }

  function NoteOnEvent(i: nat): MidiEvent
  {
    MidiEvent(NoteMessage(NOTE_ON, 0, Key(i), 64), i * TICKS_PER_QUARTER)
  }

  function NoteOffEvent(i: nat): MidiEvent
  {
    MidiEvent(NoteMessage(NOTE_OFF, 0, Key(i), 0), i * TICKS_PER_QUARTER + TICKS_PER_QUARTER)
  }

  /** The first n note pairs, in the order they are added: pair i is the
      note on at position 2i and its note off at 2i+1. */
  function NotePairs(n: nat): (r: seq<MidiEvent>)
    ensures |r| == 2 * n
  {
    seq(2 * n, k requires 0 <= k => if k % 2 == 0 then NoteOnEvent(k / 2) else NoteOffEvent(k / 2))
  }

  lemma NotePairsExtend(n: nat)
    ensures NotePairs(n + 1) == NotePairs(n) + [NoteOnEvent(n), NoteOffEvent(n)]
  {
    var a, b := NotePairs(n + 1), NotePairs(n) + [NoteOnEvent(n), NoteOffEvent(n)];
    forall k | 0 <= k < 2 * n + 2
      ensures a[k] == b[k]
    {
      if k >= 2 * n {
        assert k / 2 == n;
      }
    }
  }

  /** The demonstration track for a given tempo message: the tempo at tick 0,
      then one note on / note off pair per quarter note, and End of Track
      where the last note ends. */
  function SampleTrack(tempo: MidiMessage): Track
  {
    Track([MidiEvent(tempo, 0)] + NotePairs(NOTE_COUNT), NOTE_COUNT * TICKS_PER_QUARTER)
  }

  /** writeMidiFile's event construction: `new Sequence(PPQ, 960, 1)` already
      holds one (empty) track and createTrack adds a second one, which gets
      the tempo event and then 100 pairs, each added with Track.add. */
  method WriteMidiFile() returns (tracks: seq<Track>)
    ensures tracks == [EmptyTrack, SampleTrack(MetaMessage(SET_TEMPO, TEMPO_DATA))]
  {
    tracks := [EmptyTrack];
    var track := EmptyTrack;
    tracks := tracks + [track];
    var tempoMsg := MetaMessage(SET_TEMPO, TEMPO_DATA);
    track := AddEvent(track, MidiEvent(tempoMsg, 0));
    for i := 0 to NOTE_COUNT
      invariant track == Track([MidiEvent(tempoMsg, 0)] + NotePairs(i), i * TICKS_PER_QUARTER)
    {
      ghost var before := track.added;
      var noteOn := NoteMessage(NOTE_ON, 0, 60 + i % 24, 64);
      assert MidiEvent(noteOn, i * 960) == NoteOnEvent(i);
      track := AddEvent(track, MidiEvent(noteOn, i * 960));
      var noteOff := NoteMessage(NOTE_OFF, 0, 60 + i % 24, 0);
      assert MidiEvent(noteOff, i * 960 + 960) == NoteOffEvent(i);
      track := AddEvent(track, MidiEvent(noteOff, i * 960 + 960));
      assert track.added == before + [NoteOnEvent(i), NoteOffEvent(i)];
      NotePairsExtend(i);
    }
    tracks := tracks[1 := track];
  }

  lemma NotePairsAt(n: nat, i: nat)
    requires i < n
    ensures NotePairs(n)[2 * i] == NoteOnEvent(i)
    ensures NotePairs(n)[2 * i + 1] == NoteOffEvent(i)
  {
    assert (2 * i) / 2 == i && (2 * i + 1) / 2 == i;
  }

  /** The shape of the demonstration track: 202 events, the tempo first,
      pair i at positions 2i+1 and 2i+2, and End of Track last at tick
      96000. */
  lemma SampleTrackShape(tempo: MidiMessage, i: nat)
    requires i < NOTE_COUNT
    ensures |Events(SampleTrack(tempo))| == 2 + 2 * NOTE_COUNT
    ensures Events(SampleTrack(tempo))[0] == MidiEvent(tempo, 0)
    ensures Events(SampleTrack(tempo))[2 * i + 1] == NoteOnEvent(i)
    ensures Events(SampleTrack(tempo))[2 * i + 2] == NoteOffEvent(i)
    ensures Events(SampleTrack(tempo))[1 + 2 * NOTE_COUNT] == EndOfTrack(96000)
  {
    NotePairsAt(NOTE_COUNT, i);
  }

  /** Each note on is a channel-0 Note On (status 144) of velocity 64 at tick
      960 i, its note off a Note Off (status 128) of the same key and velocity
      0 exactly 960 ticks later, and every key lies in 60..83. */
  lemma NotePairMessages(i: nat)
    ensures NoteOnEvent(i).message == ShortMessage(144, Key(i), 64)
    ensures NoteOffEvent(i).message == ShortMessage(128, Key(i), 0)
    ensures NoteOnEvent(i).tick == 960 * i
    ensures NoteOffEvent(i).tick == NoteOnEvent(i).tick + 960
    ensures 60 <= Key(i) <= 83
  {
  }

  /** A note off shares its tick with the next note on. */
  lemma NoteOffMeetsNextOn(i: nat)
    ensures NoteOffEvent(i).tick == NoteOnEvent(i + 1).tick
  {
  }

  lemma {:induction false} NotePairsSorted(n: nat)
    ensures TicksSorted(NotePairs(n))
    ensures n > 0 ==> NotePairs(n)[2 * n - 1].tick == n * TICKS_PER_QUARTER
    ensures forall k :: 0 <= k < |NotePairs(n)| ==> 0 <= NotePairs(n)[k].tick <= n * TICKS_PER_QUARTER
  {
    if n > 0 {
      NotePairsSorted(n - 1);
      NotePairsExtend(n - 1);
      NotePairsAt(n, n - 1);
    }
  }

  /** Ticks never decrease in insertion order, so Track.add appended every
      event just before End of Track, which stays last. */
  lemma SampleTrackSorted(tempo: MidiMessage)
    ensures Ordered(SampleTrack(tempo))
    ensures TicksSorted(Events(SampleTrack(tempo)))
  {
    NotePairsSorted(NOTE_COUNT);
    var t := SampleTrack(tempo);
    assert forall k :: 1 <= k < |t.added| ==> t.added[k] == NotePairs(NOTE_COUNT)[k - 1];
    OrderedEvents(t);
  }

  /** How many events of the track carry the given status byte. */
  function CountStatus(track: seq<MidiEvent>, status: byte): nat
  {
    if track == [] then 0
    else
      var last := track[|track| - 1];
      CountStatus(track[..|track| - 1], status)
      + (if last.message.ShortMessage? && last.message.status == status then 1 else 0)
  }

  function CountMeta(track: seq<MidiEvent>): nat
  {
    if track == [] then 0
    else CountMeta(track[..|track| - 1]) + (if track[|track| - 1].message.MetaMessage? then 1 else 0)
  }

  lemma {:induction false} CountsOfConcat(a: seq<MidiEvent>, b: seq<MidiEvent>, status: byte)
    ensures CountStatus(a + b, status) == CountStatus(a, status) + CountStatus(b, status)
    ensures CountMeta(a + b) == CountMeta(a) + CountMeta(b)
    decreases |b|
  {
    if b != [] {
      var b' := b[..|b| - 1];
      assert (a + b)[..|a + b| - 1] == a + b';
      CountsOfConcat(a, b', status);
    } else {
      assert a + b == a;
    }
  }

  lemma {:induction false} NotePairsCounts(n: nat)
    ensures CountStatus(NotePairs(n), NOTE_ON) == n
    ensures CountStatus(NotePairs(n), NOTE_OFF) == n
    ensures CountMeta(NotePairs(n)) == 0
  {
    if n > 0 {
      NotePairsCounts(n - 1);
      NotePairsExtend(n - 1);
      var pair := [NoteOnEvent(n - 1), NoteOffEvent(n - 1)];
      CountsOfConcat(NotePairs(n - 1), pair, NOTE_ON);
      CountsOfConcat(NotePairs(n - 1), pair, NOTE_OFF);
      var on, off := [NoteOnEvent(n - 1)], [NoteOffEvent(n - 1)];
      assert pair == on + off;
      CountsOfConcat(on, off, NOTE_ON);
      CountsOfConcat(on, off, NOTE_OFF);
      assert on[..0] == [] && off[..0] == [];
    }
  }

  /** Exactly 202 events: two meta events (the tempo and End of Track), 100
      note ons and 100 note offs. */
  lemma SampleTrackCounts(tempo: MidiMessage)
    requires tempo.MetaMessage?
    ensures CountMeta(Events(SampleTrack(tempo))) == 2
    ensures CountStatus(Events(SampleTrack(tempo)), NOTE_ON) == NOTE_COUNT
    ensures CountStatus(Events(SampleTrack(tempo)), NOTE_OFF) == NOTE_COUNT
  {
    var head, pairs, eot := [MidiEvent(tempo, 0)], NotePairs(NOTE_COUNT), [EndOfTrack(96000)];
    NotePairsCounts(NOTE_COUNT);
    CountsOfConcat(head, pairs, NOTE_ON);
    CountsOfConcat(head, pairs, NOTE_OFF);
    CountsOfConcat(head + pairs, eot, NOTE_ON);
    CountsOfConcat(head + pairs, eot, NOTE_OFF);
    assert head[..0] == [] && eot[..0] == [];
    assert Events(SampleTrack(tempo)) == head + pairs + eot;
  }

  // ---------------------------------------------------------------------
  // The Set Tempo meta event

  /** A three-byte big-endian number. */
  function BigEndian3(b: seq<byte>): nat
    requires |b| == 3
  {
    (b[0] as nat) * 65536 + (b[1] as nat) * 256 + b[2]
  }

  /** Bytes of a message as a Standard MIDI File 1.0 stores them: FF, type,
      length (one byte of variable-length quantity when below 128), data for
      a meta event; status and two data bytes for a channel message. */
  function Encode(m: MidiMessage): seq<int>
    requires m.MetaMessage? ==> |m.data| < 128
  {
    match m
    case MetaMessage(t, data) => [0xFF, t, |data|] + data
    case ShortMessage(s, d1, d2) => [s, d1, d2]
  }

  /** The tempo a Set Tempo meta event carries, in microseconds per quarter
      note (FF 51 03 tt tt tt); None when the message is not a well-formed
      Set Tempo event. */
  function TempoOf(m: MidiMessage): Option<nat>
  {
    if m.MetaMessage? && m.metaType == SET_TEMPO && |m.data| == 3 then Some(BigEndian3(m.data))
    else None
  }

  /** A Set Tempo message for a tempo in microseconds per quarter note. */
  function SetTempo(usPerQuarter: nat): MidiMessage
    requires usPerQuarter < 0x100_0000
  {
    MetaMessage(SET_TEMPO, [usPerQuarter / 65536, usPerQuarter / 256 % 256, usPerQuarter % 256])
  }

  lemma SetTempoRoundTrip(usPerQuarter: nat)
    requires usPerQuarter < 0x100_0000
    ensures TempoOf(SetTempo(usPerQuarter)) == Some(usPerQuarter)
  {
    var t := usPerQuarter;
    var hi, rest := t / 65536, t % 65536;
    assert t == hi * 65536 + rest;
    assert t / 256 == hi * 256 + rest / 256;
    assert t / 256 % 256 == rest / 256;
    assert t % 256 == rest % 256;
  }

  /** The tempo event as written: its data repeats the type and length bytes,
      so the stored event is FF 51 05 51 03 07 A0 20 and is not a well-formed
      Set Tempo; a reader that takes the first three data bytes gets 5309191
      microseconds a quarter; and the three bytes meant as the tempo, 07 A0 20,
      are 499744, not the 500000 (120 beats a minute) stated beside them. */
  lemma TempoAsWritten()
    ensures Encode(MetaMessage(SET_TEMPO, TEMPO_DATA)) == [0xFF, 0x51, 0x05, 0x51, 0x03, 0x07, 0xA0, 0x20]
    ensures TempoOf(MetaMessage(SET_TEMPO, TEMPO_DATA)) == None
    ensures BigEndian3(TEMPO_DATA[..3]) == 5309191
    ensures BigEndian3(TEMPO_DATA[2..]) == 499744 != 500000
  {
  }

  /** The intended event: FF 51 03 07 A1 20, which carries 500000. */
  lemma TempoIntended()
    ensures Encode(SetTempo(500000)) == [0xFF, 0x51, 0x03, 0x07, 0xA1, 0x20]
    ensures TempoOf(Events(SampleTrack(SetTempo(500000)))[0].message) == Some(500000)
  {
    SetTempoRoundTrip(500000);
  }
}
