/**
  The data types of the quiz game (types.ts). JavaScript numbers are modelled
  as reals; the shape of a station is kept as the string tag it is at run time,
  so that the renderer's fall-back branch for an unknown tag can be modelled.
*/
module Types {

  datatype Option<+T> = None | Some(value: T)

  /** A point in the scene (types.ts `Vector3`). */
  datatype Vector3 = Vector3(x: real, y: real, z: real)

  /** One of the two answers of a station (types.ts `QuizOption`; its `label` is `labelText` here, `label` being a Dafny keyword). */
  datatype QuizOption = QuizOption(id: string, labelText: string, isCorrect: bool)

  /** One quiz station (types.ts `QuizData`); `options` is the two-element tuple. */
  datatype QuizData = QuizData(
    id: string,
    question: string,
    chineseChar: string,
    pinyin: string,
    shape: string,
    position: Vector3,
    options: (QuizOption, QuizOption))

  /** The tags of types.ts `ShapeType`, in declaration order. */
  const SHAPE_TAGS: seq<string> := ["sphere", "box", "cone", "cylinder", "torus"]

  /** `options[which]` for `which` 0 or 1. */
  function OptionAt(d: QuizData, which: nat): QuizOption
    requires which < 2
  {
    if which == 0 then d.options.0 else d.options.1
  }

  /** Exactly one of the two options is the right answer. */
  predicate OneCorrect(d: QuizData) {
    d.options.0.isCorrect != d.options.1.isCorrect
  }
}
