/**
 * The page session: the module-level trolleyProgress and _prevTrolleyProgress
 * together with the sound manager, driven by setTrolleyProgress and by the
 * detection tick that startDetection installs with setInterval.
 *
 * DOM writes are returned instead of performed: a tick returns the
 * background colour it sets and the offset updateTrolleyPosition writes.
 */
module Session {
  import opened Wrappers
  import opened Progress
  import opened Position
  import opened Sound

  datatype Colour = Red | White

  /** The background a tick sets: white while smiling, red otherwise. */
  function Background(r: Reading): (c: Colour)
    ensures c == White <==> Smiling(r)
  {
    if Smiling(r) then White else Red
  }

  /** The sound manager after one tick: stopped while smiling, started when
      the trolley moved, untouched when it is pinned. */
  function SoundAfterTick(p: int, s: SoundState, r: Reading, env: AudioEnv): (t: SoundState)
    requires 0 <= p <= Max && ValidEnv(env)
    ensures Smiling(r) ==> t == StopSpec(s)
    ensures !Smiling(r) && NextProgress(p, r) > p ==> t == StartSpec(s, env)
    ensures !Smiling(r) && NextProgress(p, r) == p ==> t == s
  {
    if Smiling(r) then StopSpec(s)
    else if NextProgress(p, r) > p then StartSpec(s, env)
    else s
  }

  /** Once progress is pinned at 100 %, no tick starts the sound again. */
  lemma PinnedNeverRestarts(s: SoundState, r: Reading, env: AudioEnv)
    requires ValidEnv(env)
    ensures SoundAfterTick(Max, s, r, env) == if Smiling(r) then StopSpec(s) else s
  {
  }

  /** Below 100 %, a tick that does not see a smile moves the trolley and the sound plays. */
  lemma MovingStartsSound(p: int, s: SoundState, r: Reading, env: AudioEnv)
    requires 0 <= p < Max && ValidEnv(env) && !Smiling(r)
    ensures NextProgress(p, r) > p
    ensures SoundAfterTick(p, s, r, env).playing
  {
    assert Step(r) > 0;
  }

  /** Whatever the tick, the sound manager's invariant survives it, and a
      smile leaves both handle slots empty. */
  lemma TickKeepsSoundInvariant(p: int, s: SoundState, r: Reading, env: AudioEnv)
    requires 0 <= p <= Max && ValidEnv(env) && Inv(s)
    ensures Inv(SoundAfterTick(p, s, r, env))
    ensures var t := SoundAfterTick(p, s, r, env);
      Smiling(r) ==> !t.playing && t.audio.None? && t.source.None?
  {
  }

  /** The readings of a run of ticks. */
  function ReadAll(frames: seq<seq<Detection>>): (rs: seq<Reading>)
    ensures |rs| == |frames|
    ensures forall i :: 0 <= i < |frames| ==> rs[i] == Read(frames[i])
  {
    seq(|frames|, i requires 0 <= i < |frames| => Read(frames[i]))
  }

  class Session {
    /** trolleyProgress, in eighths of a percent. */
    var progress: int
    /** _prevTrolleyProgress, in eighths of a percent. */
    var prevProgress: int
    const sound: SoundManager

    ghost predicate Valid()
      reads this, sound
    {
      0 <= progress <= Max && prevProgress == progress && sound.Valid()
    }

    constructor ()
      ensures Valid() && fresh(sound)
      ensures progress == 0 && sound.State() == Initial
    {
      progress, prevProgress := 0, 0;
      sound := new SoundManager();
    }

    /** setTrolleyProgress(percent): clamp to [0, 100], redraw, and start the
        sound when progress went up since the previous call. */
    method SetTrolleyProgress(percent: int, page: Page, env: AudioEnv)
      returns (startedMoving: bool, placed: Option<Offset>)
      requires sound.Valid() && ValidEnv(env)
      modifies this, sound
      ensures progress == Clamp(0, percent, Max) && prevProgress == progress
      ensures startedMoving <==> progress > old(prevProgress)
      ensures placed == UpdateTrolleyPosition(Default, progress, page)
      ensures sound.State() == if startedMoving then StartSpec(old(sound.State()), env)
                               else old(sound.State())
      ensures sound.Valid()
    {
      var clamped := Clamp(0, percent, Max);
      startedMoving := clamped > prevProgress;
      progress := clamped;
      placed := UpdateTrolleyPosition(Default, progress, page);
      if startedMoving {
        sound.Start(env);
      }
      prevProgress := progress;
    }

    /** One run of the setInterval callback in startDetection, after detection. */
    method Tick(detections: seq<Detection>, page: Page, env: AudioEnv)
      returns (background: Colour, placed: Option<Offset>)
      requires Valid() && ValidEnv(env)
      modifies this, sound
      ensures Valid()
      ensures progress == NextProgress(old(progress), Read(detections))
      ensures sound.State() == SoundAfterTick(old(progress), old(sound.State()), Read(detections), env)
      ensures background == Background(Read(detections))
      ensures placed == if Smiling(Read(detections)) then None
                        else UpdateTrolleyPosition(Default, progress, page)
    {
      var startedMoving;
      if |detections| > 0 && detections[0].expressions.Some? {
        var happyScore := HappyScore(detections[0].expressions.value);
        if happyScore < SmileThreshold {
          background := Red;
          startedMoving, placed := SetTrolleyProgress(progress + FaceStep, page, env);
        } else {
          background := White;
          placed := None;
          sound.Stop();
        }
      } else {
        background := Red;
        startedMoving, placed := SetTrolleyProgress(progress + NoFaceStep, page, env);
      }
    }

    /** A run of ticks, one per detector answer, against an unchanging page. */
    method RunTicks(frames: seq<seq<Detection>>, page: Page, envs: seq<AudioEnv>)
      returns (backgrounds: seq<Colour>)
      requires Valid()
      requires |envs| == |frames| && forall i :: 0 <= i < |envs| ==> ValidEnv(envs[i])
      modifies this, sound
      ensures Valid()
      ensures progress == Run(old(progress), ReadAll(frames))
      ensures old(progress) <= progress
      ensures |backgrounds| == |frames|
      ensures forall i :: 0 <= i < |frames| ==> backgrounds[i] == Background(Read(frames[i]))
    {
      ghost var start := progress;
      var rs := ReadAll(frames);
      backgrounds := [];
      var i := 0;
      while i < |frames|
        invariant 0 <= i <= |frames|
        invariant Valid()
        invariant progress == Run(start, rs[..i])
        invariant |backgrounds| == i
        invariant forall j :: 0 <= j < i ==> backgrounds[j] == Background(Read(frames[j]))
      {
        var background, placed := Tick(frames[i], page, envs[i]);
        assert rs[..i + 1][..i] == rs[..i];
        backgrounds := backgrounds + [background];
        i := i + 1;
      }
      assert rs[..i] == rs;
      RunMonotone(start, rs);
    }
  }
}
