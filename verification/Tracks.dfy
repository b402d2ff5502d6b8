/** Track kinds and the track key, the codec shared by down tracks and cascade tracks. */
module Tracks {

  datatype Kind = Audio | Screen | ScreenAudio

  const SCREEN_SUFFIX := "#screen"
  const SCREEN_AUDIO_SUFFIX := "#screen-audio"

  function TrackKeyOf(sid: string, kind: Kind): string {
    match kind
    case Screen => sid + SCREEN_SUFFIX
    case ScreenAudio => sid + SCREEN_AUDIO_SUFFIX
    case Audio => sid
  }

  predicate EndsWith(s: string, suffix: string) {
    |suffix| <= |s| && s[|s| - |suffix|..] == suffix
  }

  function CutSuffix(s: string, suffix: string): (r: string)
    requires EndsWith(s, suffix)
    ensures s == r + suffix
  {
    s[..|s| - |suffix|]
  }

  datatype Split = Split(sid: string, kind: Kind)

  function SplitTrackKey(key: string): Split {
    if EndsWith(key, SCREEN_AUDIO_SUFFIX) then Split(CutSuffix(key, SCREEN_AUDIO_SUFFIX), ScreenAudio)
    else if EndsWith(key, SCREEN_SUFFIX) then Split(CutSuffix(key, SCREEN_SUFFIX), Screen)
    else Split(key, Audio)
  }

  /** Neither suffix: what makes a sid safe as an audio key. */
  predicate SuffixFree(sid: string) {
    !EndsWith(sid, SCREEN_SUFFIX) && !EndsWith(sid, SCREEN_AUDIO_SUFFIX)
  }

  lemma AppendedEndsWith(s: string, suffix: string)
    ensures EndsWith(s + suffix, suffix) && CutSuffix(s + suffix, suffix) == s
  {
    assert (s + suffix)[|s|..] == suffix;
    assert (s + suffix)[..|s|] == s;
  }

  lemma LastLetter(s: string, suffix: string)
    requires suffix != ""
    ensures EndsWith(s, suffix) ==> s != "" && s[|s| - 1] == suffix[|suffix| - 1]
  {
    if EndsWith(s, suffix) {
      assert s[|s| - 1] == s[|s| - |suffix|..][|suffix| - 1];
    }
  }

  /** A string that ends in one suffix does not end in the other: they differ in the last letter. */
  lemma SuffixesExclude(s: string)
    ensures !(EndsWith(s, SCREEN_SUFFIX) && EndsWith(s, SCREEN_AUDIO_SUFFIX))
  {
    LastLetter(s, SCREEN_SUFFIX);
    LastLetter(s, SCREEN_AUDIO_SUFFIX);
  }

  /** Every string is the key of what it splits into. */
  lemma SplitThenJoin(key: string)
    ensures var p := SplitTrackKey(key); TrackKeyOf(p.sid, p.kind) == key
  {}

  /** Joining and splitting gives back sid and kind: always for the screen kinds, for audio exactly
      when the sid ends in neither suffix. */
  lemma JoinThenSplit(sid: string, kind: Kind)
    ensures SplitTrackKey(TrackKeyOf(sid, kind)) == Split(sid, kind) <==> (kind == Audio ==> SuffixFree(sid))
  {
    AppendedEndsWith(sid, SCREEN_SUFFIX);
    AppendedEndsWith(sid, SCREEN_AUDIO_SUFFIX);
    SuffixesExclude(sid + SCREEN_SUFFIX);
  }

  /** Over suffix-free sids a key names one track. */
  lemma KeysAreInjective(a: string, j: Kind, b: string, k: Kind)
    requires SuffixFree(a) && SuffixFree(b) && TrackKeyOf(a, j) == TrackKeyOf(b, k)
    ensures a == b && j == k
  {
    JoinThenSplit(a, j);
    JoinThenSplit(b, k);
  }

  /** Without that, they collide: the audio key of a sid that looks like a screen key. */
  lemma KeysCollide(sid: string)
    ensures TrackKeyOf(sid + SCREEN_SUFFIX, Audio) == TrackKeyOf(sid, Screen)
  {}
}
