/**
 * The sound manager (the closure assigned to soundManager in script.js): an
 * on/off state machine with two handle slots, the media element now playing
 * (currentAudio) and its Web Audio source node (currentSource), plus the
 * lazily created audio context.
 *
 * Browser objects are represented by what the manager does with them: an
 * element is known by the clip path it was created with, and a source node by
 * the element it wraps. The random choices and whether the browser lets the
 * node graph be built are inputs (AudioEnv).
 */
module Sound {
  import opened Wrappers

  const AudioFolder: string := "assets/audio"
  const Files: seq<string> := ["wifen4kids.mp3", "smile.mp3", "pleasesmile2.mp3", "pleasesmile1.mp3", "choochoo.mp3"]

  /** An `Audio` element, known by the src it was created with. */
  datatype AudioElement = AudioElement(src: string)
  /** A MediaElementAudioSourceNode, known by the element it wraps. */
  datatype MediaSource = MediaSource(element: AudioElement)

  /** The inputs playRandom draws from the browser: the Math.random value used
      to pick a file, as the fraction pickNum / pickDen, and whether creating
      the source, panner and gain nodes succeeded. */
  datatype AudioEnv = AudioEnv(pickNum: nat, pickDen: nat, graphOk: bool)

  /** Math.random returns a value in [0, 1). */
  predicate ValidEnv(env: AudioEnv)
  {
    env.pickNum < env.pickDen
  }

  /** Math.floor(Math.random() * files.length). */
  function PickIndex(env: AudioEnv): (i: nat)
    requires ValidEnv(env)
    ensures i < |Files|
    ensures i * env.pickDen <= env.pickNum * |Files| < (i + 1) * env.pickDen
  {
    env.pickNum * |Files| / env.pickDen
  }

  /** `${audioFolder}/${file}` for the picked file. */
  function ClipPath(env: AudioEnv): string
    requires ValidEnv(env)
  {
    AudioFolder + "/" + Files[PickIndex(env)]
  }

  /** The closure's variables: playing, currentAudio, currentSource and whether
      audioCtx has been created. */
  datatype SoundState = SoundState(
    playing: bool,
    audio: Option<AudioElement>,
    source: Option<MediaSource>,
    hasContext: bool)

  const Initial := SoundState(false, None, None, false)

  /** What every operation keeps: an element is held exactly while playing, a
      source node only ever wraps the element held, and playing implies the
      audio context exists. */
  predicate Inv(s: SoundState)
  {
    (s.playing <==> s.audio.Some?) &&
    (s.source.Some? ==> s.audio.Some? && s.source.value.element == s.audio.value) &&
    (s.playing ==> s.hasContext)
  }

  /** cleanupCurrent: both handle slots emptied, nothing else touched. */
  function Cleanup(s: SoundState): (r: SoundState)
    ensures r.audio.None? && r.source.None?
    ensures r.playing == s.playing && r.hasContext == s.hasContext
  {
    s.(audio := None, source := None)
  }

  /** playRandom: nothing unless playing; otherwise the old handles are
      released and a new element for the picked clip takes the slot, wrapped
      by a source node when the browser allows building the node graph. */
  function PlayRandomSpec(s: SoundState, env: AudioEnv): (r: SoundState)
    requires ValidEnv(env)
    ensures !s.playing ==> r == s
    ensures s.playing ==> r.playing && r.hasContext
    ensures s.playing ==> r.audio == Some(AudioElement(ClipPath(env)))
    ensures s.playing ==> (r.source.Some? <==> env.graphOk)
    ensures Inv(s) ==> Inv(r)
  {
    if !s.playing then s
    else
      var element := AudioElement(ClipPath(env));
      Cleanup(s).(audio := Some(element),
                  source := if env.graphOk then Some(MediaSource(element)) else None,
                  hasContext := true)
  }

  /** start: idempotent while playing; otherwise turns playing on, creates the
      context if needed and plays a random clip. */
  function StartSpec(s: SoundState, env: AudioEnv): (r: SoundState)
    requires ValidEnv(env)
    ensures r.playing
    ensures s.playing ==> r == s
    ensures !s.playing ==> r.audio == Some(AudioElement(ClipPath(env)))
    ensures Inv(s) ==> Inv(r)
  {
    if s.playing then s
    else PlayRandomSpec(s.(playing := true, hasContext := true), env)
  }

  /** stop: idempotent while stopped; otherwise turns playing off and empties
      both handle slots. */
  function StopSpec(s: SoundState): (r: SoundState)
    ensures !r.playing
    ensures !s.playing ==> r == s
    ensures Inv(s) ==> Inv(r) && r.audio.None? && r.source.None?
    ensures r.hasContext == s.hasContext
  {
    if !s.playing then s
    else Cleanup(s.(playing := false))
  }

  /** Starting twice has the effect of starting once, whatever the second call would draw. */
  lemma StartIdempotent(s: SoundState, e1: AudioEnv, e2: AudioEnv)
    requires ValidEnv(e1) && ValidEnv(e2)
    ensures StartSpec(StartSpec(s, e1), e2) == StartSpec(s, e1)
  {
  }

  /** Stopping twice has the effect of stopping once. */
  lemma StopIdempotent(s: SoundState)
    ensures StopSpec(StopSpec(s)) == StopSpec(s)
  {
  }

  /** A clip scheduled before stop finds the manager stopped and plays nothing. */
  lemma PlayAfterStopIsSilent(s: SoundState, env: AudioEnv)
    requires Inv(s) && ValidEnv(env)
    ensures PlayRandomSpec(StopSpec(s), env) == StopSpec(s)
    ensures PlayRandomSpec(StopSpec(s), env).audio.None?
  {
  }

  /** The manager object: the closure's variables as fields. */
  class SoundManager {
    var playing: bool
    var currentAudio: Option<AudioElement>
    var currentSource: Option<MediaSource>
    var hasContext: bool

    function State(): SoundState
      reads this
    {
      SoundState(playing, currentAudio, currentSource, hasContext)
    }

    ghost predicate Valid()
      reads this
    {
      Inv(State())
    }

    constructor ()
      ensures Valid() && State() == Initial
    {
      playing, currentAudio, currentSource, hasContext := false, None, None, false;
    }

    /** ensureCtx: create the audio context once. */
    method EnsureCtx()
      modifies this
      ensures State() == old(State()).(hasContext := true)
    {
      if !hasContext {
        hasContext := true;
      }
    }

    /** cleanupCurrent: release the element and the source node, if any. */
    method CleanupCurrent()
      modifies this
      ensures State() == Cleanup(old(State()))
    {
      if currentAudio.Some? {
        currentAudio := None;
      }
      if currentSource.Some? {
        currentSource := None;
      }
    }

    /** playRandom, the body that the start call and each clip's onended timer run. */
    method PlayRandom(env: AudioEnv)
      requires ValidEnv(env)
      modifies this
      ensures State() == PlayRandomSpec(old(State()), env)
    {
      if !playing {
        return;
      }
      var file := Files[PickIndex(env)];
      CleanupCurrent();
      var audio := AudioElement(AudioFolder + "/" + file);
      EnsureCtx();
      if env.graphOk {
        currentSource := Some(MediaSource(audio));
      } else {
        currentSource := None;
      }
      currentAudio := Some(audio);
    }

    method Start(env: AudioEnv)
      requires ValidEnv(env)
      modifies this
      ensures State() == StartSpec(old(State()), env)
    {
      if playing {
        return;
      }
      playing := true;
      EnsureCtx();
      PlayRandom(env);
    }

    method Stop()
      modifies this
      ensures State() == StopSpec(old(State()))
    {
      if !playing {
        return;
      }
      playing := false;
      CleanupCurrent();
    }

    method IsPlaying() returns (b: bool)
      ensures b == playing
    {
      b := playing;
    }
  }
}
