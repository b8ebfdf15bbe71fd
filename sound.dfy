/**
  The audio bookkeeping of utils/sound.ts: the module-level `audioUnlocked`
  flag and `globalAudioContext`, `unlockAudio`, and the unlock guard in
  `speakMandarin` and `playCorrectSound`.

  The browser is not modelled. Everything a call can observe of it is a
  `Platform` argument (is there an AudioContext class, does the constructor,
  `resume()`, the silent probe or the chime throw, what is the context's state,
  what is `currentTime`), and every call the module makes into it is recorded as an
  `AudioCall` in a log. The pure functions `Unlock`, `Speak` and `PlayCorrect`
  give the effect of one call on the abstract state; the class `AudioModule`
  performs the same steps on its fields and is proved to agree with them.
*/
module Sound {

  /** The value of `AudioContext.state` at the moment `unlockAudio` reads it. */
  datatype ContextState = Suspended | Running | Closed

  /** What the browser does during one call into the module. */
  datatype Platform = Platform(
    hasAudioContextClass: bool,   // window.AudioContext || webkitAudioContext
    constructorThrows: bool,      // `new AudioContextClass()` throws
    contextState: ContextState,   // `globalAudioContext.state`
    resumeThrows: bool,           // `await globalAudioContext.resume()` rejects
    probeThrows: bool,            // building or starting the silent probe throws
    chimeThrows: bool,            // building or starting the chime throws (outside any `try`)
    currentTime: real)            // `globalAudioContext.currentTime`

  /** The two ramp methods of an `AudioParam`. */
  datatype Ramp = LinearRamp | ExponentialRamp

  /** The parameters `playCorrectSound` schedules on its oscillator and gain node. */
  datatype ChimeSchedule = ChimeSchedule(
    wave: string,
    freqStart: real, freqStartAt: real,
    freqRamp: Ramp, freqEnd: real, freqEndAt: real,
    gainStart: real, gainStartAt: real,
    gainRamp: Ramp, gainEnd: real, gainEndAt: real,
    stopAt: real)

  /** A call the module makes into the browser. */
  datatype AudioCall =
    | CreateContext
    | Resume
    | Probe(gain: real, stopAt: real)
    | Chime(schedule: ChimeSchedule)
    | PlaySpeech(text: string)

  /** Gain and length of the nearly silent tone that unlocks audio on mobile. */
  const PROBE_GAIN: real := 0.001
  const PROBE_LENGTH: real := 0.1

  /** The "ding" scheduled at time `t`: a sine sliding up an octave from 880 Hz,
      fading from 0.5 to 0.01, both along exponential ramps, stopped half a
      second after it starts. */
  function CorrectChime(t: real): (c: ChimeSchedule)
    ensures c.wave == "sine"
    ensures c.freqStart == 880.0 && c.freqEnd == 2.0 * c.freqStart
    ensures c.freqRamp == c.gainRamp == ExponentialRamp
    ensures c.gainStart == 0.5 && c.gainEnd == 0.01
    ensures c.freqStartAt == c.gainStartAt == t
    ensures c.freqEndAt == t + 0.1
    ensures t < c.freqEndAt < c.gainEndAt == c.stopAt == t + 0.5
  {
    ChimeSchedule("sine", 880.0, t, ExponentialRamp, 1760.0, t + 0.1, 0.5, t, ExponentialRamp, 0.01, t + 0.5, t + 0.5)
  }

  /** The two module-level variables: the flag, and whether the context exists. */
  datatype AudioState = AudioState(unlocked: bool, hasContext: bool)

  /** The states the module can be in: the flag is only set once a context exists. */
  predicate Reachable(s: AudioState) {
    s.unlocked ==> s.hasContext
  }

  const INITIAL: AudioState := AudioState(false, false)

  function CountCreates(calls: seq<AudioCall>): nat {
    if calls == [] then 0
    else (if calls[0] == CreateContext then 1 else 0) + CountCreates(calls[1..])
  }

  lemma {:induction false} CountCreatesAppend(a: seq<AudioCall>, b: seq<AudioCall>)
    ensures CountCreates(a + b) == CountCreates(a) + CountCreates(b)
  {
    if a == [] {
      assert a + b == b;
    } else {
      assert (a + b)[1..] == a[1..] + b;
      CountCreatesAppend(a[1..], b);
    }
  }

  /** The set-up calls are the ones only `unlockAudio` makes. */
  predicate IsSetup(c: AudioCall) {
    c.CreateContext? || c.Resume? || c.Probe?
  }

  /** Result of `unlockAudio`: the value returned, the new state, the calls made. */
  datatype UnlockResult = UnlockResult(ok: bool, state: AudioState, calls: seq<AudioCall>)

  /** Would `unlockAudio` get through the whole `try` block? */
  predicate UnlockSucceeds(s: AudioState, p: Platform) {
    && p.hasAudioContextClass
    && (s.hasContext || !p.constructorThrows)
    && !(p.contextState == Suspended && p.resumeThrows)
    && !p.probeThrows
  }

  /** `unlockAudio` (utils/sound.ts:8-38) as a function of the state. */
  function Unlock(s: AudioState, p: Platform): (r: UnlockResult)
    // already unlocked: true, nothing touched
    ensures s.unlocked ==> r == UnlockResult(true, s, [])
    // no AudioContext class: false, nothing touched
    ensures !s.unlocked && !p.hasAudioContextClass ==> r == UnlockResult(false, s, [])
    // the flag is set exactly when the call returns true ...
    ensures r.state.unlocked <==> r.ok
    // ... which, from a locked state, is exactly when the whole probe succeeds
    ensures !s.unlocked ==> (r.ok <==> UnlockSucceeds(s, p))
    ensures !s.unlocked && r.ok ==> |r.calls| > 0 && r.calls[|r.calls| - 1] == Probe(PROBE_GAIN, p.currentTime + PROBE_LENGTH)
    // the context is kept once there, and created only when it was missing
    ensures s.hasContext ==> r.state.hasContext
    // the context is assigned before anything that can throw, so it survives a
    // failed `resume()` or a failed probe
    ensures !s.unlocked && p.hasAudioContextClass ==> (r.state.hasContext <==> s.hasContext || !p.constructorThrows)
    ensures CountCreates(r.calls) == (if r.state.hasContext && !s.hasContext then 1 else 0)
    // resume is requested exactly when the context is reached in a suspended state
    ensures Resume in r.calls <==>
      !s.unlocked && p.hasAudioContextClass && (s.hasContext || !p.constructorThrows) && p.contextState == Suspended
    ensures Reachable(s) ==> Reachable(r.state)
  {
    if s.unlocked then UnlockResult(true, s, [])
    else if !p.hasAudioContextClass then UnlockResult(false, s, [])
    else if !s.hasContext && p.constructorThrows then UnlockResult(false, s, [])
    else
      var created := if s.hasContext then [] else [CreateContext];
      var s1 := s.(hasContext := true);
      if p.contextState == Suspended && p.resumeThrows then
        CountCreatesAppend(created, [Resume]);
        UnlockResult(false, s1, created + [Resume])
      else
        var resumed := created + (if p.contextState == Suspended then [Resume] else []);
        CountCreatesAppend(created, if p.contextState == Suspended then [Resume] else []);
        if p.probeThrows then UnlockResult(false, s1, resumed)
        else
          CountCreatesAppend(resumed, [Probe(PROBE_GAIN, p.currentTime + PROBE_LENGTH)]);
          UnlockResult(true, s1.(unlocked := true), resumed + [Probe(PROBE_GAIN, p.currentTime + PROBE_LENGTH)])
  }

  /** Effect of `speakMandarin` or `playCorrectSound`: the new state, the calls
      made, and whether `unlockAudio` was called on the way. */
  datatype Step = Step(state: AudioState, calls: seq<AudioCall>, unlockCalled: bool)

  /** `speakMandarin(text)` (utils/sound.ts:40-52). */
  function Speak(s: AudioState, text: string, p: Platform): (r: Step)
    ensures r.unlockCalled <==> !s.unlocked
    ensures s.unlocked ==> r.state == s && r.calls == [PlaySpeech(text)]
    ensures !s.unlocked ==> r.state == Unlock(s, p).state && r.calls == Unlock(s, p).calls + [PlaySpeech(text)]
    ensures Reachable(s) ==> Reachable(r.state)
  {
    if s.unlocked then Step(s, [PlaySpeech(text)], false)
    else
      var u := Unlock(s, p);
      Step(u.state, u.calls + [PlaySpeech(text)], true)
  }

  /** `playCorrectSound()` (utils/sound.ts:54-79). */
  function PlayCorrect(s: AudioState, p: Platform): (r: Step)
    ensures r.unlockCalled <==> !s.unlocked
    ensures r.state == Unlock(s, p).state
    // no context even after the unlock attempt, or the chime throws: nothing is scheduled
    ensures !r.state.hasContext || p.chimeThrows ==> r.calls == Unlock(s, p).calls
    // a context exists and the chime goes through: it is scheduled last, even if the unlock failed
    ensures r.state.hasContext && !p.chimeThrows ==> r.calls == Unlock(s, p).calls + [Chime(CorrectChime(p.currentTime))]
    ensures Reachable(s) && s.unlocked ==> r.calls == (if p.chimeThrows then [] else [Chime(CorrectChime(p.currentTime))])
    ensures Reachable(s) ==> Reachable(r.state)
  {
    // the guard: `unlockAudio` only while the module is still locked
    var u := if s.unlocked then UnlockResult(true, s, []) else Unlock(s, p);
    if !u.state.hasContext || p.chimeThrows then Step(u.state, u.calls, !s.unlocked)
    else Step(u.state, u.calls + [Chime(CorrectChime(p.currentTime))], !s.unlocked)
  }

  /** A call of one of the three entry points. */
  datatype Op = UnlockOp(p: Platform) | SpeakOp(text: string, p: Platform) | ChimeOp(p: Platform)

  function Apply(s: AudioState, op: Op): Step {
    match op
    case UnlockOp(p) => var u := Unlock(s, p); Step(u.state, u.calls, true)
    case SpeakOp(text, p) => Speak(s, text, p)
    case ChimeOp(p) => PlayCorrect(s, p)
  }

  /** The effect of a sequence of calls, in order. */
  function Run(s: AudioState, ops: seq<Op>): Step
    decreases |ops|
  {
    if ops == [] then Step(s, [], false)
    else
      var first := Apply(s, ops[0]);
      var rest := Run(first.state, ops[1..]);
      Step(rest.state, first.calls + rest.calls, first.unlockCalled || rest.unlockCalled)
  }

  /** Over any sequence of calls the context is created at most once: exactly
      once if it was missing at the start and exists at the end. */
  lemma {:induction false} RunCreatesContextOnce(s: AudioState, ops: seq<Op>)
    ensures s.hasContext ==> Run(s, ops).state.hasContext
    ensures CountCreates(Run(s, ops).calls) == (if Run(s, ops).state.hasContext && !s.hasContext then 1 else 0)
    decreases |ops|
  {
    if ops != [] {
      var first := Apply(s, ops[0]);
      assert s.hasContext ==> first.state.hasContext;
      assert CountCreates(first.calls) == (if first.state.hasContext && !s.hasContext then 1 else 0) by {
        match ops[0]
        case UnlockOp(p) =>
        case SpeakOp(text, p) =>
          CountCreatesAppend(Unlock(s, p).calls, [PlaySpeech(text)]);
        case ChimeOp(p) =>
          CountCreatesAppend(Unlock(s, p).calls, [Chime(CorrectChime(p.currentTime))]);
      }
      RunCreatesContextOnce(first.state, ops[1..]);
      CountCreatesAppend(first.calls, Run(first.state, ops[1..]).calls);
    }
  }

  /** Once unlocked, the module stays unlocked, never calls `unlockAudio` again
      and never repeats any set-up call. */
  lemma {:induction false} RunAfterUnlock(s: AudioState, ops: seq<Op>)
    requires s.unlocked && Reachable(s)
    ensures Run(s, ops).state == s
    ensures !Run(s, ops).unlockCalled || exists i :: 0 <= i < |ops| && ops[i].UnlockOp?
    ensures forall c :: c in Run(s, ops).calls ==> !IsSetup(c)
    decreases |ops|
  {
    if ops != [] {
      RunAfterUnlock(s, ops[1..]);
      var rest := Run(s, ops[1..]);
      if rest.unlockCalled {
        var i :| 0 <= i < |ops[1..]| && ops[1..][i].UnlockOp?;
        assert ops[i + 1].UnlockOp?;
      }
    }
  }

  /** The audio context object; it has no state the model needs. */
  class AudioContext {
    constructor () {}
  }

  /** The module-level state of utils/sound.ts. */
  class AudioModule {
    var globalAudioContext: AudioContext?
    var audioUnlocked: bool
    /** Every call into the browser, in order. */
    ghost var log: seq<AudioCall>
    /** How often `unlockAudio` has been entered. */
    ghost var unlockCalls: nat

    ghost function State(): AudioState
      reads this
    {
      AudioState(audioUnlocked, globalAudioContext != null)
    }

    ghost predicate Valid()
      reads this
    {
      && Reachable(State())
      && CountCreates(log) == (if globalAudioContext == null then 0 else 1)
    }

    /** Module load: no context, locked. */
    constructor ()
      ensures Valid()
      ensures State() == INITIAL && globalAudioContext == null
      ensures log == [] && unlockCalls == 0
    {
      globalAudioContext := null;
      audioUnlocked := false;
      log := [];
      unlockCalls := 0;
    }

    method UnlockAudio(p: Platform) returns (ok: bool)
      requires Valid()
      modifies this
      ensures Valid()
      ensures ok == Unlock(old(State()), p).ok
      ensures State() == Unlock(old(State()), p).state
      ensures log == old(log) + Unlock(old(State()), p).calls
      ensures unlockCalls == old(unlockCalls) + 1
      ensures old(globalAudioContext) != null ==> globalAudioContext == old(globalAudioContext)
      ensures globalAudioContext != old(globalAudioContext) ==> globalAudioContext != null && fresh(globalAudioContext)
    {
      unlockCalls := unlockCalls + 1;
      if audioUnlocked {
        return true;
      }
      if !p.hasAudioContextClass {
        return false;
      }
      ghost var calls: seq<AudioCall> := [];
      if globalAudioContext == null {
        if p.constructorThrows {
          return false;
        }
        globalAudioContext := new AudioContext();
        calls := [CreateContext];
      }
      if p.contextState == Suspended {
        calls := calls + [Resume];
        if p.resumeThrows {
          assert calls == Unlock(old(State()), p).calls;
          CountCreatesAppend(old(log), calls);
          log := log + calls;
          return false;
        }
      }
      if p.probeThrows {
        assert calls == Unlock(old(State()), p).calls;
        CountCreatesAppend(old(log), calls);
        log := log + calls;
        return false;
      }
      calls := calls + [Probe(PROBE_GAIN, p.currentTime + PROBE_LENGTH)];
      assert calls == Unlock(old(State()), p).calls;
      CountCreatesAppend(old(log), calls);
      log := log + calls;
      audioUnlocked := true;
      return true;
    }

    method SpeakMandarin(text: string, p: Platform)
      requires Valid()
      modifies this
      ensures Valid()
      ensures State() == Speak(old(State()), text, p).state
      ensures log == old(log) + Speak(old(State()), text, p).calls
      ensures unlockCalls == old(unlockCalls) + (if old(audioUnlocked) then 0 else 1)
      ensures old(globalAudioContext) != null ==> globalAudioContext == old(globalAudioContext)
      ensures globalAudioContext != old(globalAudioContext) ==> globalAudioContext != null && fresh(globalAudioContext)
    {
      if !audioUnlocked {
        var _ := UnlockAudio(p);
      }
      CountCreatesAppend(log, [PlaySpeech(text)]);
      log := log + [PlaySpeech(text)];
    }

    method PlayCorrectSound(p: Platform)
      requires Valid()
      modifies this
      ensures Valid()
      ensures State() == PlayCorrect(old(State()), p).state
      ensures log == old(log) + PlayCorrect(old(State()), p).calls
      ensures unlockCalls == old(unlockCalls) + (if old(audioUnlocked) then 0 else 1)
      ensures old(globalAudioContext) != null ==> globalAudioContext == old(globalAudioContext)
      ensures globalAudioContext != old(globalAudioContext) ==> globalAudioContext != null && fresh(globalAudioContext)
    {
      if !audioUnlocked {
        var _ := UnlockAudio(p);
      }
      if globalAudioContext == null {
        return;
      }
      if p.chimeThrows {
        // the promise of `playCorrectSound` rejects before anything is scheduled
        return;
      }
      var chime := Chime(CorrectChime(p.currentTime));
      CountCreatesAppend(log, [chime]);
      log := log + [chime];
    }
  }
}
