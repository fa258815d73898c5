/**
 * Quiz questions: their type enumeration, the schema defaults, and the
 * pre-save check that a choice question has a correct option.
 */
module QuizQuestions {
  import opened Base

  datatype QuestionType = MultipleChoice | TrueFalse | FillBlank | DragDrop

  /** The stored spelling of each question type. */
  function TypeName(t: QuestionType): string
  {
    match t
    case MultipleChoice => "multiple-choice"
    case TrueFalse => "true-false"
    case FillBlank => "fill-blank"
    case DragDrop => "drag-drop"
  }

  /**
   * Casting a stored `questionType`: absent means the default
   * "multiple-choice"; a value outside the enumeration fails validation.
   */
  function ParseQuestionType(s: Option<string>): (r: Option<QuestionType>)
    ensures s.None? ==> r == Some(MultipleChoice)
    ensures s.Some? ==> (r.Some? <==> s.value in {"multiple-choice", "true-false", "fill-blank", "drag-drop"})
    ensures s.Some? && r.Some? ==> TypeName(r.value) == s.value
  {
    match s
    case None => Some(MultipleChoice)
    case Some(name) =>
      if name == "multiple-choice" then Some(MultipleChoice)
      else if name == "true-false" then Some(TrueFalse)
      else if name == "fill-blank" then Some(FillBlank)
      else if name == "drag-drop" then Some(DragDrop)
      else None
  }

  lemma TypeNameRoundTrip(t: QuestionType)
    ensures ParseQuestionType(Some(TypeName(t))) == Some(t)
  {
  }

  datatype AnswerOption = AnswerOption(text: string, isCorrect: bool)

  datatype Question = Question(
    questionText: string,
    questionType: QuestionType,
    options: seq<AnswerOption>,
    correctAnswer: Option<string>,   // the canonical answer of a fill-blank question
    marks: int,
    moduleId: Id,
    order: int)

  const DefaultMarks := 1

  /** `required: true` on each option's `text`: no option has an empty text. */
  predicate OptionTextsGiven(options: seq<AnswerOption>)
  {
    forall i :: 0 <= i < |options| ==> options[i].text != ""
  }

  /**
   * A question as the schema builds it, applying the defaults for
   * `questionType` and `marks`; validation refuses an empty question text, an
   * empty option text and a type outside the enumeration.
   */
  function NewQuestion(text: string, typeName: Option<string>, options: seq<AnswerOption>,
                       correctAnswer: Option<string>, marks: Option<int>, moduleId: Id, order: int): (q: Option<Question>)
    ensures q.Some? <==> Present(Some(text)) && OptionTextsGiven(options) && ParseQuestionType(typeName).Some?
    ensures q.Some? ==> q.value.questionText == text && q.value.moduleId == moduleId && q.value.order == order
    ensures q.Some? ==> q.value.marks == (if marks.None? then DefaultMarks else marks.value)
    ensures q.Some? ==> q.value.questionType == ParseQuestionType(typeName).value
    ensures q.Some? ==> q.value.options == options && q.value.correctAnswer == correctAnswer
  {
    if !Present(Some(text)) || !OptionTextsGiven(options) then None
    else match ParseQuestionType(typeName)
    case None => None
    case Some(t) =>
      Some(Question(text, t, options, correctAnswer,
                    if marks.None? then DefaultMarks else marks.value, moduleId, order))
  }

  /**
   * Building a question from the fields of a valid stored one, with its type
   * spelled out and its marks given, gives that question back.
   */
  lemma NewQuestionRebuilds(q: Question)
    requires q.questionText != "" && OptionTextsGiven(q.options)
    ensures NewQuestion(q.questionText, Some(TypeName(q.questionType)), q.options, q.correctAnswer,
                        Some(q.marks), q.moduleId, q.order) == Some(q)
  {
    TypeNameRoundTrip(q.questionType);
  }

  /** The types graded by matching a flagged option. */
  predicate IsChoice(t: QuestionType)
  {
    t == MultipleChoice || t == TrueFalse
  }

  /** `options.some(option => option.isCorrect)` */
  function HasCorrectOption(options: seq<AnswerOption>): (r: bool)
    ensures r <==> exists i :: 0 <= i < |options| && options[i].isCorrect
  {
    if options == [] then false
    else options[0].isCorrect || HasCorrectOption(options[1..])
  }

  datatype SaveOutcome = Saved | Rejected(message: string)

  /** The pre-save hook: a choice question without a correct option is refused. */
  function ValidateForSave(q: Question): (r: SaveOutcome)
    ensures r.Saved? <==> (!IsChoice(q.questionType)
                           || exists i :: 0 <= i < |q.options| && q.options[i].isCorrect)
  {
    if IsChoice(q.questionType) && !HasCorrectOption(q.options) then
      Rejected("At least one option must be marked as correct")
    else
      Saved
  }

  /** Only "some" option must be correct: a question with two correct options is saved. */
  lemma SeveralCorrectOptionsAccepted(q: Question, i: nat, j: nat)
    requires i < j < |q.options|
    requires q.options[i].isCorrect && q.options[j].isCorrect
    ensures ValidateForSave(q) == Saved
  {
  }

  /** Fill-blank and drag-drop questions are saved whatever their options and canonical answer. */
  lemma NonChoiceAlwaysSaved(q: Question)
    requires q.questionType == FillBlank || q.questionType == DragDrop
    ensures ValidateForSave(q) == Saved
  {
  }

  /**
   * With no type and no marks given, a question defaults to a one-mark
   * multiple-choice question, so without a correct option it cannot be saved.
   */
  lemma DefaultQuestionNeedsCorrectOption(text: string, options: seq<AnswerOption>, moduleId: Id, order: int)
    requires text != "" && OptionTextsGiven(options)
    requires forall i :: 0 <= i < |options| ==> !options[i].isCorrect
    ensures NewQuestion(text, None, options, None, None, moduleId, order).Some?
    ensures var q := NewQuestion(text, None, options, None, None, moduleId, order).value;
            q.marks == 1 && q.questionType == MultipleChoice && ValidateForSave(q).Rejected?
  {
  }
}
