/**
  One quiz station (components/QuizStation.tsx): the two pieces of component
  state `answered` and `selectedOptionId`, the click handler that accepts
  exactly one answer, the listen button, the option colouring and the choice
  of 3D primitive.

  The station calls the sound module directly, as the component does. The
  `onCorrect` callback belongs to the caller, so `HandleInteraction` returns
  whether it would be invoked and the caller invokes it. A ghost trace
  `effects` records, in order, every side effect the station has caused.
*/
module Station {
  import opened Types
  import Sound

  /** A side effect of a click: the chime, a spoken word, the `onCorrect` call. */
  datatype Effect = ChimePlayed | Spoken(text: string) | CorrectReported

  /** The words spoken after an answer: "correct" and "wrong". */
  const CORRECT_SPEECH: string := "正确"
  const WRONG_SPEECH: string := "错误"

  /** Option colours: neutral, right answer chosen, wrong answer chosen. */
  const WHITE: string := "#FFFFFF"
  const GREEN: string := "#4ADE80"
  const RED: string := "#EF4444"

  function CountReports(es: seq<Effect>): nat {
    if es == [] then 0
    else (if es[0] == CorrectReported then 1 else 0) + CountReports(es[1..])
  }

  lemma {:induction false} CountReportsAppend(a: seq<Effect>, b: seq<Effect>)
    ensures CountReports(a + b) == CountReports(a) + CountReports(b)
  {
    if a == [] {
      assert a + b == b;
    } else {
      assert (a + b)[1..] == a[1..] + b;
      CountReportsAppend(a[1..], b);
    }
  }

  /** The station's answer state as a value. */
  datatype AnswerState = AnswerState(answered: bool, selectedOptionId: Option<string>)

  const UNANSWERED: AnswerState := AnswerState(false, None)

  /** One click on an option: whether it is the right one, and its id. */
  datatype Click = Click(isCorrect: bool, optionId: string)

  /** What a first answer causes, in order: for the right one the chime, the
      word "correct" and one `onCorrect` call; for a wrong one only the word
      "wrong". */
  function Response(isCorrect: bool): (es: seq<Effect>)
    ensures CountReports(es) == (if isCorrect then 1 else 0)
    ensures isCorrect <==> ChimePlayed in es
    ensures |es| > 0
  {
    if isCorrect then
      assert [CorrectReported][1..] == [];
      assert CountReports([CorrectReported]) == 1;
      assert [Spoken(CORRECT_SPEECH), CorrectReported][1..] == [CorrectReported];
      assert CountReports([Spoken(CORRECT_SPEECH), CorrectReported]) == 1;
      assert [ChimePlayed, Spoken(CORRECT_SPEECH), CorrectReported][1..] == [Spoken(CORRECT_SPEECH), CorrectReported];
      [ChimePlayed, Spoken(CORRECT_SPEECH), CorrectReported]
    else
      assert [Spoken(WRONG_SPEECH)][1..] == [];
      [Spoken(WRONG_SPEECH)]
  }

  /** `handleInteraction` (components/QuizStation.tsx:17-30) on the answer state:
      the new state and the side effects, in the order they happen. */
  function Interact(s: AnswerState, c: Click): (r: (AnswerState, seq<Effect>))
    // after any click the station is answered
    ensures r.0.answered
    // an answered station ignores the click entirely
    ensures s.answered ==> r == (s, [])
    // the first click is recorded
    ensures !s.answered ==> r.0.selectedOptionId == Some(c.optionId)
    // right answer: chime, then "correct", then onCorrect
    ensures !s.answered && c.isCorrect ==> r.1 == [ChimePlayed, Spoken(CORRECT_SPEECH), CorrectReported]
    // wrong answer: "wrong" only
    ensures !s.answered && !c.isCorrect ==> r.1 == [Spoken(WRONG_SPEECH)]
    ensures CountReports(r.1) == (if !s.answered && c.isCorrect then 1 else 0)
  {
    if s.answered then (s, [])
    else (AnswerState(true, Some(c.optionId)), Response(c.isCorrect))
  }

  /** Any number of clicks on one station, in order. */
  function RunClicks(s: AnswerState, clicks: seq<Click>): (AnswerState, seq<Effect>)
    decreases |clicks|
  {
    if clicks == [] then (s, [])
    else
      var first := Interact(s, clicks[0]);
      var rest := RunClicks(first.0, clicks[1..]);
      (rest.0, first.1 + rest.1)
  }

  /** Once answered, no sequence of clicks changes the state or causes anything. */
  lemma {:induction false} LockedRun(s: AnswerState, clicks: seq<Click>)
    requires s.answered
    ensures RunClicks(s, clicks) == (s, [])
    decreases |clicks|
  {
    if clicks != [] {
      LockedRun(s, clicks[1..]);
      assert [] + RunClicks(s, clicks[1..]).1 == [];
    }
  }

  /** Over any sequence of clicks from a fresh station, only the first one
      counts: it alone decides the state and the effects, so `onCorrect` is
      called at most once, and exactly once when the first answer is right. */
  lemma {:induction false} FirstClickDecides(clicks: seq<Click>)
    requires |clicks| > 0
    ensures RunClicks(UNANSWERED, clicks) == Interact(UNANSWERED, clicks[0])
    ensures RunClicks(UNANSWERED, clicks).0 == AnswerState(true, Some(clicks[0].optionId))
    ensures CountReports(RunClicks(UNANSWERED, clicks).1) == (if clicks[0].isCorrect then 1 else 0)
  {
    var first := Interact(UNANSWERED, clicks[0]);
    LockedRun(first.0, clicks[1..]);
    assert first.1 + [] == first.1;
  }

  /** The sound-module calls that carry out a list of effects; `onCorrect`
      is the caller's and does not touch the sound module. */
  function Perform(s: Sound.AudioState, es: seq<Effect>, p: Sound.Platform): Sound.Step
    decreases |es|
  {
    if es == [] then Sound.Step(s, [], false)
    else
      var first := match es[0]
        case ChimePlayed => Sound.PlayCorrect(s, p)
        case Spoken(text) => Sound.Speak(s, text, p)
        case CorrectReported => Sound.Step(s, [], false);
      var rest := Perform(first.state, es[1..], p);
      Sound.Step(rest.state, first.calls + rest.calls, first.unlockCalled || rest.unlockCalled)
  }

  /** A right first answer plays the chime and then speaks "correct". */
  lemma PerformCorrect(s: Sound.AudioState, p: Sound.Platform)
    ensures var c1 := Sound.PlayCorrect(s, p);
      var c2 := Sound.Speak(c1.state, CORRECT_SPEECH, p);
      && Perform(s, Response(true), p).state == c2.state
      && Perform(s, Response(true), p).calls == c1.calls + c2.calls
  {
    var es := Response(true);
    var c1 := Sound.PlayCorrect(s, p);
    var c2 := Sound.Speak(c1.state, CORRECT_SPEECH, p);
    assert es[1..] == [Spoken(CORRECT_SPEECH), CorrectReported];
    assert es[1..][1..] == [CorrectReported];
    assert Perform(c2.state, [CorrectReported], p).calls == [];
    assert Perform(c2.state, [CorrectReported], p).state == c2.state;
    assert c2.calls + [] == c2.calls;
  }

  /** A wrong first answer only speaks "wrong". */
  lemma PerformWrong(s: Sound.AudioState, p: Sound.Platform)
    ensures Perform(s, Response(false), p).state == Sound.Speak(s, WRONG_SPEECH, p).state
    ensures Perform(s, Response(false), p).calls == Sound.Speak(s, WRONG_SPEECH, p).calls
  {
    assert Response(false)[1..] == [];
    assert Sound.Speak(s, WRONG_SPEECH, p).calls + [] == Sound.Speak(s, WRONG_SPEECH, p).calls;
  }

  /** The sound-module calls of a first answer, in the order `handleInteraction`
      makes them: the chime and then "correct", or only "wrong". */
  method Announce(isCorrect: bool, sound: Sound.AudioModule, p: Sound.Platform)
    requires sound.Valid()
    modifies sound
    ensures sound.Valid()
    ensures sound.State() == Perform(old(sound.State()), Response(isCorrect), p).state
    ensures sound.log == old(sound.log) + Perform(old(sound.State()), Response(isCorrect), p).calls
  {
    if isCorrect {
      AnnounceCorrect(sound, p);
    } else {
      ghost var s0 := sound.State();
      sound.SpeakMandarin(WRONG_SPEECH, p);
      PerformWrong(s0, p);
    }
  }

  /** The right-answer branch of `Announce`: `playCorrectSound()`, then
      `speakMandarin("正确")`, one after the other. The source does not await
      the first before starting the second; from a locked module that can
      put the speech request before the chime, or make a second unlock
      attempt. That interleaving is not modelled. */
  method AnnounceCorrect(sound: Sound.AudioModule, p: Sound.Platform)
    requires sound.Valid()
    modifies sound
    ensures sound.Valid()
    ensures sound.State() == Perform(old(sound.State()), Response(true), p).state
    ensures sound.log == old(sound.log) + Perform(old(sound.State()), Response(true), p).calls
  {
    ghost var s0 := sound.State();
    ghost var l0 := sound.log;
    ghost var c1 := Sound.PlayCorrect(s0, p);
    ghost var c2 := Sound.Speak(c1.state, CORRECT_SPEECH, p);
    sound.PlayCorrectSound(p);
    sound.SpeakMandarin(CORRECT_SPEECH, p);
    assert sound.log == l0 + (c1.calls + c2.calls);
    PerformCorrect(s0, p);
  }

  /** The A-Frame primitives a station can show, with their fixed geometry. */
  datatype Primitive =
    | Sphere(radius: real)
    | Box(width: real, height: real, depth: real)
    | Cone(radiusBottom: real, height: real)
    | Cylinder(radius: real, height: real)
    | Torus(radius: real, radiusTubular: real)

  const DEFAULT_BOX: Primitive := Box(0.6, 0.6, 0.6)

  /** The element name a primitive is rendered as. */
  function ElementName(prim: Primitive): string {
    match prim
    case Sphere(_) => "a-sphere"
    case Box(_, _, _) => "a-box"
    case Cone(_, _) => "a-cone"
    case Cylinder(_, _) => "a-cylinder"
    case Torus(_, _) => "a-torus"
  }

  /** The `switch (data.shape)` of `renderShape` (components/QuizStation.tsx:56-69):
      every shape tag is drawn as the primitive of that name; any other tag
      falls back to the same box that "box" gives. */
  function ShapePrimitive(tag: string): (prim: Primitive)
    ensures tag in SHAPE_TAGS ==> ElementName(prim) == "a-" + tag
    ensures tag == "box" ==> prim == DEFAULT_BOX
    ensures tag !in SHAPE_TAGS ==> prim == DEFAULT_BOX && ElementName(prim) == "a-box"
  {
    if tag == "sphere" then Sphere(0.4)
    else if tag == "box" then DEFAULT_BOX
    else if tag == "cone" then Cone(0.4, 0.8)
    else if tag == "cylinder" then Cylinder(0.3, 0.8)
    else if tag == "torus" then Torus(0.3, 0.08)
    else DEFAULT_BOX
  }

  /** What `renderShape` produces for one option: the primitive, its colour,
      its class and the click it reports. */
  datatype ShapeElement = ShapeElement(primitive: Primitive, color: string, className: string, onClick: Click)

  class QuizStation {
    const data: QuizData
    var answered: bool
    var selectedOptionId: Option<string>
    /** Every side effect this station has caused, in order. */
    ghost var effects: seq<Effect>

    ghost function Answer(): AnswerState
      reads this
    {
      AnswerState(answered, selectedOptionId)
    }

    /** An unanswered station has caused nothing; an answered one has caused
        exactly the effects of one right or one wrong answer. */
    ghost predicate Valid()
      reads this
    {
      if answered then
        selectedOptionId.Some?
        && (effects == Response(true) || effects == Response(false))
      else
        selectedOptionId == None && effects == []
    }

    constructor (data: QuizData)
      ensures Valid()
      ensures this.data == data && Answer() == UNANSWERED && effects == []
    {
      this.data := data;
      answered := false;
      selectedOptionId := None;
      effects := [];
    }

    /** `onCorrect` is called at most once in the station's life. */
    lemma ReportedAtMostOnce()
      requires Valid()
      ensures CountReports(effects) <= 1
      ensures CountReports(effects) == 1 ==> answered
    {
    }

    /** `handleInteraction`. The result says whether `onCorrect` is called. */
    method HandleInteraction(isCorrect: bool, optionId: string, sound: Sound.AudioModule, p: Sound.Platform)
      returns (reported: bool)
      requires Valid() && sound.Valid()
      modifies this, sound
      ensures Valid() && sound.Valid()
      ensures Answer() == Interact(old(Answer()), Click(isCorrect, optionId)).0
      ensures effects == old(effects) + Interact(old(Answer()), Click(isCorrect, optionId)).1
      ensures reported <==> !old(answered) && isCorrect
      ensures CountReports(effects) == CountReports(old(effects)) + (if reported then 1 else 0)
      ensures old(answered) ==> unchanged(this) && unchanged(sound)
      ensures sound.State() == Perform(old(sound.State()), Interact(old(Answer()), Click(isCorrect, optionId)).1, p).state
      ensures sound.log == old(sound.log) + Perform(old(sound.State()), Interact(old(Answer()), Click(isCorrect, optionId)).1, p).calls
    {
      ghost var r := Interact(Answer(), Click(isCorrect, optionId));
      CountReportsAppend(effects, r.1);
      if answered {
        return false;
      }
      assert r.1 == Response(isCorrect);
      Announce(isCorrect, sound, p);
      reported := isCorrect;
      answered := true;
      selectedOptionId := Some(optionId);
      assert effects + Response(isCorrect) == Response(isCorrect);
      effects := effects + Response(isCorrect);
    }

    /** `clickHandler` of an option's shape (components/QuizStation.tsx:49):
        `handleInteraction` with that option's flag and id. */
    method ClickOption(which: nat, sound: Sound.AudioModule, p: Sound.Platform) returns (reported: bool)
      requires which < 2 && Valid() && sound.Valid()
      modifies this, sound
      ensures Valid() && sound.Valid()
      ensures reported <==> !old(answered) && OptionAt(data, which).isCorrect
      ensures answered && (!old(answered) ==> selectedOptionId == Some(OptionAt(data, which).id))
      ensures old(answered) ==> unchanged(this)
      ensures CountReports(effects) == CountReports(old(effects)) + (if reported then 1 else 0)
    {
      var option := OptionAt(data, which);
      reported := HandleInteraction(option.isCorrect, option.id, sound, p);
    }

    /** `handleSpeakQuestion`: speaks the station's character, answer untouched. */
    method HandleSpeakQuestion(sound: Sound.AudioModule, p: Sound.Platform)
      requires sound.Valid()
      modifies sound
      ensures sound.Valid()
      ensures sound.State() == Sound.Speak(old(sound.State()), data.chineseChar, p).state
      ensures sound.log == old(sound.log) + Sound.Speak(old(sound.State()), data.chineseChar, p).calls
      ensures unchanged(this)
    {
      sound.SpeakMandarin(data.chineseChar, p);
    }

    /** `getColor` (components/QuizStation.tsx:36-42): green or red only for
        the option that was chosen, after the answer, as it is right or wrong;
        white for everything else. */
    function GetColor(optionId: string, isCorrect: bool): (colour: string)
      reads this
      ensures colour == GREEN <==> answered && selectedOptionId == Some(optionId) && isCorrect
      ensures colour == RED <==> answered && selectedOptionId == Some(optionId) && !isCorrect
      ensures colour == WHITE <==> !answered || selectedOptionId != Some(optionId)
    {
      if !answered then WHITE
      else if Some(optionId) == selectedOptionId then (if isCorrect then GREEN else RED)
      else WHITE
    }

    /** Before the answer both options are white; afterwards the chosen one is
        green or red as it is right or wrong, and the other one stays white. */
    lemma OptionColours()
      requires Valid()
      requires data.options.0.id != data.options.1.id
      ensures !answered ==>
        GetColor(data.options.0.id, data.options.0.isCorrect) == WHITE
        && GetColor(data.options.1.id, data.options.1.isCorrect) == WHITE
      ensures answered && selectedOptionId == Some(data.options.0.id) ==>
        GetColor(data.options.0.id, data.options.0.isCorrect) == (if data.options.0.isCorrect then GREEN else RED)
        && GetColor(data.options.1.id, data.options.1.isCorrect) == WHITE
      ensures answered && selectedOptionId == Some(data.options.1.id) ==>
        GetColor(data.options.1.id, data.options.1.isCorrect) == (if data.options.1.isCorrect then GREEN else RED)
        && GetColor(data.options.0.id, data.options.0.isCorrect) == WHITE
    {
    }

    /** `renderShape` (components/QuizStation.tsx:47-70) for one option: the
        station's primitive, with class "clickable", the option's colour, and a
        click that reports that option's id and correctness. */
    function RenderShape(option: QuizOption): (e: ShapeElement)
      reads this
      ensures e.className == "clickable"
      ensures data.shape in SHAPE_TAGS ==> ElementName(e.primitive) == "a-" + data.shape
      ensures data.shape !in SHAPE_TAGS ==> e.primitive == DEFAULT_BOX
      ensures e.color == GetColor(option.id, option.isCorrect)
      ensures e.onClick == Click(option.isCorrect, option.id)
    {
      ShapeElement(ShapePrimitive(data.shape), GetColor(option.id, option.isCorrect), "clickable",
                   Click(option.isCorrect, option.id))
    }
  }
}
