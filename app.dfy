/**
  The bookkeeping of App.tsx: the constant quiz table, the teleport pads built
  by four loops, and the game state (score, camera position, start prompt)
  with its handlers. The game owns one `QuizStation` per table entry and the
  shared sound module; its invariant ties the score to the `onCorrect` calls
  the stations have made, which bounds it by the number of stations.
*/
module App {
  import opened Types
  import Sound
  import Station

  function Opt(id: string, labelText: string, isCorrect: bool): QuizOption {
    QuizOption(id, labelText, isCorrect)
  }

  function At(x: real, z: real): Vector3 {
    Vector3(x, 0.0, z)
  }

  /** `QUIZ_DATA` (App.tsx:11-218). */
  const QUIZ_DATA: seq<QuizData> := [
    QuizData("station-01", "Initials: Bo (Unaspirated)", "波", "bō", "sphere", At(0.0, -8.0),
      (Opt("opt-b", "b", true), Opt("opt-p", "p", false))),
    QuizData("station-02", "Tones: Ma (3rd Tone)", "馬", "mǎ", "box", At(8.0, -8.0),
      (Opt("opt-ma3", "mǎ", true), Opt("opt-ma1", "mā", false))),
    QuizData("station-03", "Initials: Po (Aspirated)", "坡", "pō", "cone", At(16.0, -8.0),
      (Opt("opt-p", "p", true), Opt("opt-b", "b", false))),
    QuizData("station-04", "Initials: Fo", "佛", "fó", "cylinder", At(16.0, -16.0),
      (Opt("opt-f", "f", true), Opt("opt-h", "h", false))),
    QuizData("station-05", "Initials: Te", "特", "tè", "torus", At(8.0, -16.0),
      (Opt("opt-t", "t", true), Opt("opt-d", "d", false))),
    QuizData("station-06", "Initials: Ni (Nasal)", "你", "nǐ", "sphere", At(0.0, -16.0),
      (Opt("opt-n", "n", true), Opt("opt-l", "l", false))),
    QuizData("station-07", "Finals: E sound", "餓", "è", "box", At(-8.0, -16.0),
      (Opt("opt-e", "e", true), Opt("opt-o", "o", false))),
    QuizData("station-08", "Finals: Front Nasal (-an)", "山", "shān", "cone", At(-8.0, -24.0),
      (Opt("opt-an", "an", true), Opt("opt-ang", "ang", false))),
    QuizData("station-09", "Finals: Ü sound (after Q)", "去", "qù", "cylinder", At(0.0, -24.0),
      (Opt("opt-u", "qù (ü sound)", true), Opt("opt-oo", "qù (u sound)", false))),
    QuizData("station-10", "Tones: 1st Tone", "媽", "mā", "torus", At(8.0, -24.0),
      (Opt("opt-1st", "mā", true), Opt("opt-4th", "mà", false))),
    QuizData("station-11", "Tones: 2nd Tone", "魚", "yú", "sphere", At(16.0, -24.0),
      (Opt("opt-2nd", "yú", true), Opt("opt-3rd", "yǔ", false))),
    QuizData("station-12", "Tones: 4th Tone", "兔", "tù", "box", At(16.0, -32.0),
      (Opt("opt-4th", "tù", true), Opt("opt-1st", "tū", false))),
    QuizData("station-13", "Initials: Zh (Retroflex)", "中", "zhōng", "cone", At(8.0, -32.0),
      (Opt("opt-zh", "zh", true), Opt("opt-z", "z", false))),
    QuizData("station-14", "Initials: Qi", "七", "qī", "cylinder", At(0.0, -32.0),
      (Opt("opt-q", "q", true), Opt("opt-ch", "ch", false))),
    QuizData("station-15", "Finals: Er (Retroflex)", "二", "èr", "torus", At(-8.0, -32.0),
      (Opt("opt-er", "èr", true), Opt("opt-e", "è", false)))
  ]

  /** The table has 15 stations. */
  lemma QuizTableSize()
    ensures |QUIZ_DATA| == 15
  {
  }

  /** No two stations share an id. */
  lemma QuizIdsDistinct()
    ensures forall i, j :: 0 <= i < j < |QUIZ_DATA| ==> QUIZ_DATA[i].id != QUIZ_DATA[j].id
  {
  }

  /** Each station offers two options with distinct ids, exactly one of them
      right, and is drawn with a known shape. */
  lemma QuizEntriesWellFormed()
    ensures forall i :: 0 <= i < |QUIZ_DATA| ==> OneCorrect(QUIZ_DATA[i])
    ensures forall i :: 0 <= i < |QUIZ_DATA| ==> QUIZ_DATA[i].options.0.id != QUIZ_DATA[i].options.1.id
    ensures forall i :: 0 <= i < |QUIZ_DATA| ==> QUIZ_DATA[i].shape in SHAPE_TAGS
  {
  }

  /** A teleport pad on the ground at (x, 0, z). */
  function Pad(x: int, z: int): Vector3 {
    Vector3(x as real, 0.0, z as real)
  }

  /** `n` pads in the column `x`, from `z0` towards -z in steps of `step`. */
  function Column(x: int, z0: int, step: int, n: nat): (c: seq<Vector3>)
    ensures |c| == n
    ensures forall i :: 0 <= i < n ==> c[i] == Pad(x, z0 - step * i)
  {
    seq(n, i requires 0 <= i < n => Pad(x, z0 - step * i))
  }

  /** The pads the four loops of App.tsx:221-225 produce, in closed form. */
  const TELEPORT_PADS: seq<Vector3> :=
    Column(0, 0, 5, 8) + Column(-8, 0, 8, 5) + Column(8, 0, 8, 5) + Column(16, -8, 8, 4)

  /** 8 + 5 + 5 + 4 pads, on the ground, between z = 0 and z = -35; within each
      block the x is fixed and z steps down by the loop's step. */
  lemma TeleportPadsShape()
    ensures |TELEPORT_PADS| == 22
    ensures forall i :: 0 <= i < 22 ==> TELEPORT_PADS[i].y == 0.0 && -35.0 <= TELEPORT_PADS[i].z <= 0.0
    ensures forall i :: 0 <= i < 8 ==> TELEPORT_PADS[i] == Pad(0, -5 * i)
    ensures forall i :: 8 <= i < 13 ==> TELEPORT_PADS[i] == Pad(-8, -8 * (i - 8))
    ensures forall i :: 13 <= i < 18 ==> TELEPORT_PADS[i] == Pad(8, -8 * (i - 13))
    ensures forall i :: 18 <= i < 22 ==> TELEPORT_PADS[i] == Pad(16, -8 - 8 * (i - 18))
  {
  }

  /** The four `for` loops that fill `TELEPORT_PADS`. */
  method BuildTeleportPads() returns (pads: seq<Vector3>)
    ensures pads == TELEPORT_PADS
  {
    ghost var a := Column(0, 0, 5, 8);
    ghost var b := Column(-8, 0, 8, 5);
    ghost var c := Column(8, 0, 8, 5);
    ghost var d := Column(16, -8, 8, 4);
    pads := [];
    var z := 0;
    ghost var k := 0;
    while z >= -35
      invariant 0 <= k <= 8 && z == -5 * k
      invariant pads == a[..k]
    {
      pads := pads + [Pad(0, z)];
      z := z - 5;
      k := k + 1;
    }
    assert pads == a;
    z, k := 0, 0;
    while z >= -35
      invariant 0 <= k <= 5 && z == -8 * k
      invariant pads == a + b[..k]
    {
      pads := pads + [Pad(-8, z)];
      z := z - 8;
      k := k + 1;
    }
    assert pads == a + b;
    z, k := 0, 0;
    while z >= -35
      invariant 0 <= k <= 5 && z == -8 * k
      invariant pads == a + b + c[..k]
    {
      pads := pads + [Pad(8, z)];
      z := z - 8;
      k := k + 1;
    }
    assert pads == a + b + c;
    z, k := -8, 0;
    while z >= -35
      invariant 0 <= k <= 4 && z == -8 - 8 * k
      invariant pads == a + b + c + d[..k]
    {
      pads := pads + [Pad(16, z)];
      z := z - 8;
      k := k + 1;
    }
    assert pads == a + b + c + d;
  }

  /** The camera target of `handleTeleport`: the pad's position at eye height. */
  const EYE_HEIGHT: real := 1.6

  /** `QUIZ_DATA.map(...)` in the scene: one fresh, unanswered station per
      entry, in table order, no two the same object. */
  method NewStations(t: seq<QuizData>) returns (ss: seq<Station.QuizStation>)
    ensures |ss| == |t|
    ensures forall i :: 0 <= i < |ss| ==> fresh(ss[i]) && ss[i].data == t[i]
    ensures forall i :: 0 <= i < |ss| ==> ss[i].Valid() && !ss[i].answered && ss[i].effects == []
    ensures forall i, j :: 0 <= i < j < |ss| ==> ss[i] != ss[j]
  {
    ss := [];
    while |ss| < |t|
      invariant |ss| <= |t|
      invariant forall i :: 0 <= i < |ss| ==> fresh(ss[i]) && ss[i].data == t[i]
      invariant forall i :: 0 <= i < |ss| ==> ss[i].Valid() && !ss[i].answered && ss[i].effects == []
      invariant forall i, j :: 0 <= i < j < |ss| ==> ss[i] != ss[j]
    {
      var st := new Station.QuizStation(t[|ss|]);
      ss := ss + [st];
    }
  }

  /** The number of `onCorrect` calls made by all stations together. */
  function Tally(hs: seq<seq<Station.Effect>>): nat
    decreases |hs|
  {
    if hs == [] then 0 else Station.CountReports(hs[0]) + Tally(hs[1..])
  }

  /** If no station reports more than once, the tally is at most the number
      of stations. */
  lemma {:induction false} TallyBound(hs: seq<seq<Station.Effect>>)
    requires forall i :: 0 <= i < |hs| ==> Station.CountReports(hs[i]) <= 1
    ensures Tally(hs) <= |hs|
    decreases |hs|
  {
    if hs != [] {
      assert Station.CountReports(hs[0]) <= 1;
      TallyBound(hs[1..]);
    }
  }

  /** Changing one station's trace changes the tally by that station's difference. */
  lemma {:induction false} TallyUpdate(hs: seq<seq<Station.Effect>>, i: nat, h: seq<Station.Effect>)
    requires i < |hs|
    ensures Tally(hs[i := h]) == Tally(hs) - Station.CountReports(hs[i]) + Station.CountReports(h)
    decreases |hs|
  {
    if i == 0 {
      assert hs[i := h][1..] == hs[1..];
    } else {
      assert hs[i := h][1..] == hs[1..][i - 1 := h];
      TallyUpdate(hs[1..], i - 1, h);
    }
  }

  /** No station has reported anything: the tally is zero. */
  lemma {:induction false} TallyNone(hs: seq<seq<Station.Effect>>)
    requires forall i :: 0 <= i < |hs| ==> hs[i] == []
    ensures Tally(hs) == 0
    decreases |hs|
  {
    if hs != [] {
      TallyNone(hs[1..]);
    }
  }

  /** The state of the `App` component. */
  class Game {
    const sound: Sound.AudioModule
    /** The quiz table the stations were built from. */
    const table: seq<QuizData>
    const stations: seq<Station.QuizStation>
    var score: int
    var cameraPosition: Vector3
    var isReady: bool
    var audioReady: bool
    var showAudioPrompt: bool

    /** The effects each station has caused so far, by station. */
    ghost var traces: seq<seq<Station.Effect>>

    ghost predicate StationsValid()
      reads this, stations
    {
      && |stations| == |table| == |traces|
      && (forall i :: 0 <= i < |stations| ==>
            stations[i].data == table[i] && stations[i].Valid() && stations[i].effects == traces[i])
      && (forall i, j :: 0 <= i < j < |stations| ==> stations[i] != stations[j])
    }

    /** One station per table entry, each a separate object in a valid state;
        the score is the number of `onCorrect` calls the stations made. */
    ghost predicate Valid()
      reads this, sound, stations
    {
      && StationsValid()
      && sound.Valid()
      && score == Tally(traces)
    }

    /** The initial render state; one fresh station per table entry. */
    constructor (sound: Sound.AudioModule)
      requires sound.Valid()
      ensures Valid() && this.sound == sound && table == QUIZ_DATA
      ensures score == 0 && cameraPosition == Vector3(0.0, EYE_HEIGHT, 0.0)
      ensures !isReady && !audioReady && showAudioPrompt
      ensures forall i :: 0 <= i < |stations| ==> fresh(stations[i]) && !stations[i].answered
    {
      var t := QUIZ_DATA;
      var ss := NewStations(t);
      this.sound := sound;
      table := t;
      stations := ss;
      score := 0;
      cameraPosition := Vector3(0.0, EYE_HEIGHT, 0.0);
      isReady := false;
      audioReady := false;
      showAudioPrompt := true;
      traces := seq(|ss|, i requires 0 <= i < |ss| => []);
      new;
      TallyNone(traces);
    }

    /** The score never exceeds the number of stations, which is the length
        of the quiz table (`QUIZ_DATA.length` for a game built by the constructor). */
    lemma ScoreBound()
      requires Valid()
      ensures 0 <= score <= |stations| == |table|
    {
      forall i | 0 <= i < |stations|
        ensures Station.CountReports(traces[i]) <= 1
      {
        stations[i].ReportedAtMostOnce();
      }
      TallyBound(traces);
    }

    /** The mount effect: the scene may be shown. */
    method Mount()
      modifies this`isReady
      ensures isReady
    {
      isReady := true;
    }

    /** `handleCorrectAnswer`: one more point. */
    method HandleCorrectAnswer()
      modifies this`score
      ensures score == old(score) + 1
    {
      score := score + 1;
    }

    /** `handleTeleport`: move the camera over the target, at eye height. */
    method HandleTeleport(target: Vector3)
      modifies this`cameraPosition
      ensures cameraPosition == Vector3(target.x, EYE_HEIGHT, target.z)
    {
      cameraPosition := target.(y := EYE_HEIGHT);
    }

    /** `handleStartGame`: unlock audio, remember whether it worked, hide the prompt. */
    method HandleStartGame(p: Sound.Platform)
      requires Valid()
      modifies this`audioReady, this`showAudioPrompt, sound
      ensures Valid()
      ensures audioReady == Sound.Unlock(old(sound.State()), p).ok
      ensures !showAudioPrompt
      ensures sound.State() == Sound.Unlock(old(sound.State()), p).state
      ensures sound.log == old(sound.log) + Sound.Unlock(old(sound.State()), p).calls
    {
      var success := sound.UnlockAudio(p);
      audioReady := success;
      showAudioPrompt := false;
    }

    /** What a click leaves behind keeps the invariant: only station `i` and
        the sound module changed, the trace of `i` is its new effect list, and
        the score moved by the reports that station added. */
    twostate lemma ClickKeepsValid(i: nat)
      requires old(Valid()) && i < |stations|
      requires stations[i].Valid() && sound.Valid()
      requires forall j :: 0 <= j < |stations| && j != i ==> unchanged(stations[j])
      requires traces == old(traces)[i := stations[i].effects]
      requires score == old(score) - Station.CountReports(old(stations[i].effects)) + Station.CountReports(stations[i].effects)
      ensures Valid()
    {
      TallyUpdate(old(traces), i, stations[i].effects);
    }

    /** A click on option `which` (0 or 1) of station `i`: the station's
        handler runs, and its `onCorrect` is `handleCorrectAnswer`. */
    method Click(i: nat, which: nat, p: Sound.Platform)
      requires Valid() && i < |stations| && which < 2
      modifies this`score, this`traces, stations[i], sound
      ensures Valid()
      ensures score == old(score) + (if !old(stations[i].answered) && OptionAt(stations[i].data, which).isCorrect then 1 else 0)
      ensures 0 <= score <= |stations|
    {
      var st := stations[i];
      var reported := st.ClickOption(which, sound, p);
      if reported {
        HandleCorrectAnswer();
      }
      traces := traces[i := st.effects];
      assert forall j :: 0 <= j < |stations| && j != i ==> unchanged(stations[j]) by {
        assert forall j :: 0 <= j < |stations| && j != i ==> stations[j] != st;
      }
      ClickKeepsValid(i);
      ScoreBound();
    }
  }
}
