/** AudioHelp: the capture format, the rule that picks a recording mixer
    by name, and the capability suffix printed for each mixer. */
module AudioHelp {
  import opened Base

  /** javax.sound.sampled.AudioFormat(sampleRate, sampleSizeInBits, channels,
      signed, bigEndian), PCM encoding; the float sample rate is kept as an
      integer number of hertz. */
  datatype AudioFormat = AudioFormat(
    sampleRate: nat,
    sampleSizeInBits: nat,
    channels: nat,
    signed: bool,
    bigEndian: bool)

  /** The one format the recorder opens lines with: 44000 Hz, 16 bit,
      stereo, signed, little-endian. */
  const CD_AUDIO: AudioFormat := AudioFormat(44000, 16, 2, true, false)

  /** Bytes per frame of a PCM format: whole bytes per sample, times channels. */
  function FrameSize(f: AudioFormat): nat
  {
    (f.sampleSizeInBits + 7) / 8 * f.channels
  }

  /** Bytes captured per second (frame rate equals sample rate for PCM). */
  function ByteRate(f: AudioFormat): nat
  {
    f.sampleRate * FrameSize(f)
  }

  /** CD_AUDIO frames are 4 bytes and arrive at 176000 bytes a second; the
      176400 figure belongs to a 44100 Hz rate, not to this format. */
  lemma CdAudioRates()
    ensures FrameSize(CD_AUDIO) == 4
    ensures ByteRate(CD_AUDIO) == 176000
    ensures ByteRate(CD_AUDIO.(sampleRate := 44100)) == 176400
  {
  }

  /** Which javax.sound line kinds a mixer supports (Mixer.isLineSupported). */
  datatype LineSupport = LineSupport(
    sourceDataLine: bool,
    clip: bool,
    targetDataLine: bool,
    port: bool)

  /** A mixer as the search sees it: the string form of its Mixer.Info and
      what it supports. */
  datatype MixerInfo = MixerInfo(descriptor: string, supports: LineSupport)

  predicate NameMatches(m: MixerInfo, mixerName: string)
  {
    Contains(m.descriptor, mixerName)
  }

  /** An input-capable mixer whose descriptor contains the name. */
  predicate Usable(m: MixerInfo, mixerName: string)
  {
    NameMatches(m, mixerName) && m.supports.targetDataLine
  }

  /** getMixer: scans the mixers in order; each one whose descriptor contains
      mixerName becomes the answer, and the scan stops at the first of them
      that supports a TargetDataLine. So the result is that first usable
      mixer when there is one, otherwise the LAST name match, otherwise none
      (null). */
  method GetMixer(mixerName: string, info: seq<MixerInfo>) returns (mixer: Option<nat>)
    ensures mixer.None? <==> forall j :: 0 <= j < |info| ==> !NameMatches(info[j], mixerName)
    ensures mixer.Some? ==> mixer.value < |info| && NameMatches(info[mixer.value], mixerName)
    ensures mixer.Some? && info[mixer.value].supports.targetDataLine ==>
      forall j :: 0 <= j < mixer.value ==> !Usable(info[j], mixerName)
    ensures mixer.Some? && !info[mixer.value].supports.targetDataLine ==>
      forall j :: 0 <= j < |info| && NameMatches(info[j], mixerName) ==>
        !info[j].supports.targetDataLine && j <= mixer.value
  {
    mixer := None;
    var i := 0;
    while i < |info|
      invariant 0 <= i <= |info|
      invariant forall j :: 0 <= j < i ==> !Usable(info[j], mixerName)
      invariant mixer.None? <==> forall j :: 0 <= j < i ==> !NameMatches(info[j], mixerName)
      invariant mixer.Some? ==>
        && mixer.value < i
        && NameMatches(info[mixer.value], mixerName)
        && !info[mixer.value].supports.targetDataLine
        && forall j :: mixer.value < j < i ==> !NameMatches(info[j], mixerName)
    {
      if Contains(info[i].descriptor, mixerName) {
        mixer := Some(i);
        if info[i].supports.targetDataLine {
          break;
        }
      }
      i := i + 1;
    }
  }

  /** The suffix showMixers prints for one mixer: ", supports " and then
      each supported line kind in a fixed order, each followed by a blank. */
  method SupportSuffix(s: LineSupport) returns (support: string)
    ensures ", supports " <= support
    ensures ParseSupport(support) == Some(s)
  {
    support := ", supports ";
    if s.sourceDataLine {
      support := support + "SourceDataLine ";
    }
    assert support == ", supports " + Word(s.sourceDataLine, "SourceDataLine ");
    ghost var before := support;
    if s.clip {
      support := support + "Clip ";
    }
    assert support == before + Word(s.clip, "Clip ");
    before := support;
    if s.targetDataLine {
      support := support + "TargetDataLine ";
    }
    assert support == before + Word(s.targetDataLine, "TargetDataLine ");
    before := support;
    if s.port {
      support := support + "Port ";
    }
    assert support == before + Word(s.port, "Port ");
    SuffixRoundTrip(s);
  }

  /** The suffix, built word by word, reads back as the capabilities. */
  lemma SuffixRoundTrip(s: LineSupport)
    ensures var support := ", supports " + Word(s.sourceDataLine, "SourceDataLine ") + Word(s.clip, "Clip ")
      + Word(s.targetDataLine, "TargetDataLine ") + Word(s.port, "Port ");
      ", supports " <= support && ParseSupport(support) == Some(s)
  {
    var words := SupportWords(s);
    PrefixWords(", supports ", Word(s.sourceDataLine, "SourceDataLine "), Word(s.clip, "Clip "),
                Word(s.targetDataLine, "TargetDataLine "), Word(s.port, "Port "));
    SuffixParse(words);
    SupportWordsRoundTrip(s);
  }

  lemma PrefixWords(prefix: string, w1: string, w2: string, w3: string, w4: string)
    ensures prefix + w1 + w2 + w3 + w4 == prefix + (w1 + (w2 + (w3 + w4)))
  {
    AppendAssoc(prefix + w1 + w2, w3, w4);
    AppendAssoc(prefix + w1, w2, w3 + w4);
    AppendAssoc(prefix, w1, w2 + (w3 + w4));
  }

  lemma SuffixParse(words: string)
    ensures ", supports " <= ", supports " + words
    ensures ParseSupport(", supports " + words) == ParseWords(words)
  {
    assert (", supports " + words)[|", supports "|..] == words;
  }

  function Word(supported: bool, word: string): string
  {
    if supported then word else ""
  }

  /** The words of a suffix, in the order showMixers appends them. */
  function SupportWords(s: LineSupport): string
  {
    Word(s.sourceDataLine, "SourceDataLine ")
    + (Word(s.clip, "Clip ") + (Word(s.targetDataLine, "TargetDataLine ") + Word(s.port, "Port ")))
  }

  /** Strips `word` from the front of `s` when it is there. */
  function TakeWord(word: string, s: string): (bool, string)
  {
    if word <= s then (true, s[|word|..]) else (false, s)
  }

  /** Reads a capability suffix back: the partner of SupportSuffix. */
  function ParseSupport(s: string): Option<LineSupport>
  {
    if ", supports " <= s then ParseWords(s[|", supports "|..]) else None
  }

  function ParseWords(s: string): Option<LineSupport>
  {
    var (a, s1) := TakeWord("SourceDataLine ", s);
    var (b, s2) := TakeWord("Clip ", s1);
    var (c, s3) := TakeWord("TargetDataLine ", s2);
    var (d, s4) := TakeWord("Port ", s3);
    if s4 == [] then Some(LineSupport(a, b, c, d)) else None
  }

  /** Taking a word from its own optional occurrence gives back whether it
      was there, when what follows does not start like the word. */
  lemma TakeOptionalWord(present: bool, word: string, rest: string)
    requires |word| > 0 && (rest == [] || rest[0] != word[0])
    ensures TakeWord(word, Word(present, word) + rest) == (present, rest)
  {
    if present {
      assert word <= word + rest;
      assert (word + rest)[|word|..] == rest;
    } else {
      assert [] + rest == rest;
    }
  }

  /** The string is empty or starts with one of the given letters. */
  predicate StartsIn(s: string, first: set<char>)
  {
    s == [] || s[0] in first
  }

  lemma WordStartsIn(present: bool, word: string, rest: string, first: set<char>)
    requires |word| > 0 && word[0] in first && StartsIn(rest, first)
    ensures StartsIn(Word(present, word) + rest, first)
  {
    if !present {
      assert [] + rest == rest;
    }
  }

  lemma {:induction false} SupportWordsRoundTrip(s: LineSupport)
    ensures ParseWords(SupportWords(s)) == Some(s)
  {
    var w4 := Word(s.port, "Port ");
    var w3 := Word(s.targetDataLine, "TargetDataLine ") + w4;
    var w2 := Word(s.clip, "Clip ") + w3;
    var w1 := Word(s.sourceDataLine, "SourceDataLine ") + w2;
    assert w4 + [] == w4;
    WordStartsIn(s.port, "Port ", [], {'P'});
    WordStartsIn(s.port, "Port ", [], {'T', 'P'});
    WordStartsIn(s.targetDataLine, "TargetDataLine ", w4, {'T', 'P'});
    WordStartsIn(s.port, "Port ", [], {'C', 'T', 'P'});
    WordStartsIn(s.targetDataLine, "TargetDataLine ", w4, {'C', 'T', 'P'});
    WordStartsIn(s.clip, "Clip ", w3, {'C', 'T', 'P'});
    TakeOptionalWord(s.sourceDataLine, "SourceDataLine ", w2);
    TakeOptionalWord(s.clip, "Clip ", w3);
    TakeOptionalWord(s.targetDataLine, "TargetDataLine ", w4);
    TakeOptionalWord(s.port, "Port ", []);
  }
}
