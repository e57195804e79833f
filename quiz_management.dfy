/**
 * The quiz editor of the admin area: the quiz form with its defaults and
 * input coercion, saving and activating a quiz, and the question form with
 * its validation, its four answer options and the order index a new
 * question receives.
 */
module QuizManagement {
  import opened Common

  /** A row of the `quizzes` table as the editor reads it (reward in cents). */
  datatype Quiz = Quiz(id: Id, title: string, description: string, reward: int, unlockDay: int, isActive: bool)

  // ------------------------------------------------------------ quiz form

  /** The reward a new quiz is offered, in cents. */
  const DEFAULT_REWARD: int := 715

  datatype QuizForm = QuizForm(title: string, description: string, reward: int, unlockDay: int, isActive: bool)

  /**
   * The form's first state. `reward` and `unlock_day` fall back with `||`,
   * so a stored 0 is replaced as well; `is_active` falls back with `??`,
   * so a stored `false` is kept.
   */
  function FormFor(quiz: Option<Quiz>): (f: QuizForm)
    ensures quiz.None? ==> f == QuizForm("", "", DEFAULT_REWARD, 1, true)
    ensures quiz.Some? ==> f.title == quiz.value.title && f.description == quiz.value.description
    ensures quiz.Some? ==> f.isActive == quiz.value.isActive
    ensures quiz.Some? && quiz.value.reward != 0 ==> f.reward == quiz.value.reward
    ensures quiz.Some? && quiz.value.unlockDay != 0 ==> f.unlockDay == quiz.value.unlockDay
    ensures f.reward != 0 && f.unlockDay != 0
  {
    match quiz
    case None => QuizForm("", "", DEFAULT_REWARD, 1, true)
    case Some(q) =>
      QuizForm(q.title, q.description,
               if q.reward == 0 then DEFAULT_REWARD else q.reward,
               if q.unlockDay == 0 then 1 else q.unlockDay,
               q.isActive)
  }

  /**
   * One edit of the quiz form. A number field stores what `parseFloat`
   * makes of the text (`None` for NaN, taken as 0), the checkbox its checked
   * state, a text field the text.
   */
  datatype QuizChange =
    | SetTitle(text: string)
    | SetDescription(text: string)
    | SetReward(parsed: Option<int>)
    | SetUnlockDay(parsed: Option<int>)
    | SetActive(checked: bool)

  function NumberOrZero(parsed: Option<int>): int {
    if parsed.Some? then parsed.value else 0
  }

  /** `handleInputChange`: the named field changes and every other field stays. */
  function ChangeQuizForm(f: QuizForm, c: QuizChange): (g: QuizForm)
    ensures c.SetTitle? ==> g == f.(title := c.text)
    ensures c.SetDescription? ==> g == f.(description := c.text)
    ensures c.SetReward? ==> g.(reward := f.reward) == f && (c.parsed.None? ==> g.reward == 0)
    ensures c.SetUnlockDay? ==> g.(unlockDay := f.unlockDay) == f && (c.parsed.None? ==> g.unlockDay == 0)
    ensures c.SetActive? ==> g == f.(isActive := c.checked)
  {
    match c
    case SetTitle(text) => f.(title := text)
    case SetDescription(text) => f.(description := text)
    case SetReward(parsed) => f.(reward := NumberOrZero(parsed))
    case SetUnlockDay(parsed) => f.(unlockDay := NumberOrZero(parsed))
    case SetActive(checked) => f.(isActive := checked)
  }

  /** The quiz row the form describes, under the id `id`. */
  function RowOf(id: Id, f: QuizForm): Quiz {
    Quiz(id, f.title, f.description, f.reward, f.unlockDay, f.isActive)
  }

  /**
   * `handleSubmit` of the quiz form: the quiz being edited is updated with
   * every form field (an id that is gone matches no row); a new quiz is
   * inserted under the id `newId` the database gives it.
   */
  function SaveQuiz(db: map<Id, Quiz>, editing: Option<Quiz>, f: QuizForm, newId: Id): (r: map<Id, Quiz>)
    requires editing.None? ==> newId !in db
    ensures editing.Some? ==> r.Keys == db.Keys
    ensures editing.Some? && editing.value.id in db ==> r[editing.value.id] == RowOf(editing.value.id, f)
    ensures editing.None? ==> r.Keys == db.Keys + {newId} && r[newId] == RowOf(newId, f)
    ensures forall k :: k in db && (editing.None? || k != editing.value.id) ==> r[k] == db[k]
  {
    if editing.Some? then
      if editing.value.id in db then db[editing.value.id := RowOf(editing.value.id, f)] else db
    else db[newId := RowOf(newId, f)]
  }

  /**
   * Opening a stored quiz and saving it untouched writes its row back
   * unchanged, except that a reward or unlock day of 0 is replaced by its
   * default; opening the written row once more shows the same form.
   */
  lemma {:induction false} SaveUntouchedQuiz(db: map<Id, Quiz>, id: Id)
    requires id in db && db[id].id == id
    ensures var q := db[id];
      var r := SaveQuiz(db, Some(q), FormFor(Some(q)), id);
      r.Keys == db.Keys
      && (q.reward != 0 && q.unlockDay != 0 ==> r == db)
      && r[id].reward == (if q.reward == 0 then DEFAULT_REWARD else q.reward)
      && r[id].unlockDay == (if q.unlockDay == 0 then 1 else q.unlockDay)
      && FormFor(Some(r[id])) == FormFor(Some(q))
  {
    var q := db[id];
    var f := FormFor(Some(q));
    var r := SaveQuiz(db, Some(q), f, id);
    assert r == db[id := RowOf(id, f)];
    assert FormFor(Some(RowOf(id, f))) == f;
    if q.reward != 0 && q.unlockDay != 0 {
      assert RowOf(id, f) == q;
      assert r == db[id := q];
    }
  }

  /**
   * `toggleQuizStatus(quizId, currentStatus)`: the row gets the negation of
   * the status the card showed, not of the stored one. An unknown id
   * matches no row.
   */
  function Toggle(db: map<Id, Quiz>, id: Id, current: bool): (r: map<Id, Quiz>)
    ensures r.Keys == db.Keys
    ensures id in db ==> r[id] == db[id].(isActive := !current)
    ensures forall k :: k in db && k != id ==> r[k] == db[k]
  {
    if id in db then db[id := db[id].(isActive := !current)] else db
  }

  /**
   * Toggling a quiz from the status it has flips it, and toggling it back
   * restores the table; a toggle from a stale status leaves the row as it is.
   */
  lemma ToggleLaws(db: map<Id, Quiz>, id: Id, current: bool)
    requires id in db
    ensures current == db[id].isActive ==> Toggle(db, id, current)[id].isActive != db[id].isActive
    ensures Toggle(Toggle(db, id, db[id].isActive), id, !db[id].isActive) == db
    ensures current != db[id].isActive ==> Toggle(db, id, current) == db
  {
  }

  // -------------------------------------------------------- question form

  /** What the question form holds: the text, the options and the chosen answer. */
  datatype QuestionForm = QuestionForm(question: string, options: seq<string>, correctAnswer: int)

  /** The number of answer options a question has. */
  const OPTION_COUNT: nat := 4

  const INITIAL_QUESTION_FORM: QuestionForm := QuestionForm("", ["", "", "", ""], 0)

  /** `options.some(option => !option.trim())`. */
  function SomeBlank(options: seq<string>): (b: bool)
    ensures b <==> exists i :: 0 <= i < |options| && Blank(options[i])
    decreases |options|
  {
    if |options| == 0 then false
    else if Blank(options[0]) then true
    else
      var rest := SomeBlank(options[1..]);
      assert rest ==> exists i :: 0 < i < |options| && Blank(options[i]) by {
        if rest {
          var j :| 0 <= j < |options[1..]| && Blank(options[1..][j]);
          assert Blank(options[j + 1]);
        }
      }
      assert (forall i :: 0 < i < |options| ==> !Blank(options[i])) ==> !rest by {
        if rest {
          var j :| 0 <= j < |options[1..]| && Blank(options[1..][j]);
          assert options[1..][j] == options[j + 1];
        }
      }
      rest
  }

  /** The outcome of the form's checks, in the order they run. */
  datatype Check = QuestionMissing | OptionMissing | Ready

  /** The two checks of `handleSubmit`: the question text first, then every option. */
  function Validate(f: QuestionForm): (c: Check)
    ensures c == QuestionMissing <==> Blank(f.question)
    ensures c == OptionMissing <==>
      !Blank(f.question) && exists i :: 0 <= i < |f.options| && Blank(f.options[i])
    ensures c == Ready <==>
      !Blank(f.question) && forall i :: 0 <= i < |f.options| ==> !Blank(f.options[i])
  {
    if Blank(f.question) then QuestionMissing
    else if SomeBlank(f.options) then OptionMissing
    else Ready
  }

  /** The row added to `quiz_questions`. */
  datatype NewQuestion = NewQuestion(quizId: Id, question: string, options: seq<string>, correctAnswer: int, orderIndex: int)

  datatype Submission = Alerted(message: string) | Inserted(row: NewQuestion)

  /**
   * The highest order index among the quiz's questions, as the query sorted
   * descending and limited to one row returns it.
   */
  function TopOrderIndex(indices: seq<int>): (r: seq<int>)
    ensures |indices| == 0 <==> |r| == 0
    ensures |r| <= 1
    ensures |r| == 1 ==> r[0] in indices && forall i :: 0 <= i < |indices| ==> indices[i] <= r[0]
  {
    if |indices| == 0 then [] else [MaxOf(indices)]
  }

  function MaxOf(xs: seq<int>): (m: int)
    requires |xs| > 0
    ensures m in xs && forall i :: 0 <= i < |xs| ==> xs[i] <= m
    decreases |xs|
  {
    if |xs| == 1 then xs[0]
    else
      var rest := MaxOf(xs[1..]);
      assert forall i :: 1 <= i < |xs| ==> xs[i] == xs[1..][i - 1];
      if xs[0] >= rest then xs[0] else rest
  }

  /**
   * The index taken from the query's answer (`None` when the query failed):
   * one past the top row, or 1.
   */
  function NextOrderIndex(top: Option<seq<int>>): int {
    if top.Some? && |top.value| > 0 then top.value[0] + 1 else 1
  }

  /**
   * A new question is placed one past the quiz's current highest index, or
   * at 1 when the quiz has no question yet or the query failed; in the first
   * two cases no existing question shares its index.
   */
  lemma NextOrderIndexAboveAll(indices: seq<int>)
    ensures var n := NextOrderIndex(Some(TopOrderIndex(indices)));
      (forall i :: 0 <= i < |indices| ==> indices[i] < n)
      && (|indices| == 0 ==> n == 1)
      && (|indices| > 0 ==> n - 1 in indices)
    ensures NextOrderIndex(None) == 1
  {
  }

  /**
   * `handleSubmit` of the question form for the quiz `quizId`, with the
   * answer `top` of the order-index query. The question and options are
   * stored as typed, untrimmed.
   */
  function Submit(f: QuestionForm, quizId: Id, top: Option<seq<int>>): (s: Submission)
    ensures s.Alerted? <==> Validate(f) != Ready
    ensures Validate(f) == QuestionMissing ==> s == Alerted("Please enter a question")
    ensures Validate(f) == OptionMissing ==> s == Alerted("Please fill in all answer options")
    ensures s.Inserted? ==>
      s.row == NewQuestion(quizId, f.question, f.options, f.correctAnswer, NextOrderIndex(top))
  {
    match Validate(f)
    case QuestionMissing => Alerted("Please enter a question")
    case OptionMissing => Alerted("Please fill in all answer options")
    case Ready => Inserted(NewQuestion(quizId, f.question, f.options, f.correctAnswer, NextOrderIndex(top)))
  }

  /**
   * Every stored question has non-blank text and options and an index above
   * those of the quiz's questions; the empty form is refused.
   */
  lemma StoredQuestionIsComplete(f: QuestionForm, quizId: Id, indices: seq<int>)
    ensures var s := Submit(f, quizId, Some(TopOrderIndex(indices)));
      s.Inserted? ==>
        !Blank(s.row.question)
        && (forall i :: 0 <= i < |s.row.options| ==> !Blank(s.row.options[i]))
        && (forall i :: 0 <= i < |indices| ==> indices[i] < s.row.orderIndex)
  {
    NextOrderIndexAboveAll(indices);
  }

  /** The form as it opens is refused for its empty question. */
  lemma EmptyFormRefused(quizId: Id, top: Option<seq<int>>)
    ensures Submit(INITIAL_QUESTION_FORM, quizId, top) == Alerted("Please enter a question")
  {
    assert Trim("") == "";
  }

  /** The question form while it is open. */
  class QuestionEditor {
    var question: string
    var options: seq<string>
    var correctAnswer: int

    /** Four options, and the chosen answer is one of them. */
    ghost predicate Valid()
      reads this
    {
      |options| == OPTION_COUNT && 0 <= correctAnswer < |options|
    }

    function Form(): (f: QuestionForm)
      reads this
    {
      QuestionForm(question, options, correctAnswer)
    }

    constructor ()
      ensures Valid()
      ensures Form() == INITIAL_QUESTION_FORM
    {
      question := "";
      options := ["", "", "", ""];
      correctAnswer := 0;
    }

    /** Typing in the question field. */
    method QuestionChange(text: string)
      requires Valid()
      modifies this
      ensures Valid()
      ensures Form() == old(Form()).(question := text)
    {
      question := text;
    }

    /**
     * `handleOptionChange(index, value)`: the options are copied into a
     * new array, slot `index` is assigned, and the copy replaces the list.
     */
    method OptionChange(index: int, value: string)
      requires Valid() && 0 <= index < |options|
      modifies this
      ensures Valid()
      ensures options == old(options)[index := value]
      ensures |options| == OPTION_COUNT && options[index] == value
      ensures forall j :: 0 <= j < |options| && j != index ==> options[j] == old(options)[j]
      ensures question == old(question) && correctAnswer == old(correctAnswer)
    {
      var copy := new string[|options|];
      var i := 0;
      while i < copy.Length
        modifies copy
        invariant 0 <= i <= copy.Length
        invariant copy[..i] == options[..i]
      {
        copy[i] := options[i];
        i := i + 1;
      }
      copy[index] := value;
      options := copy[..];
    }

    /** The radio button next to option `index`. */
    method SelectCorrect(index: int)
      requires Valid() && 0 <= index < |options|
      modifies this
      ensures Valid()
      ensures Form() == old(Form()).(correctAnswer := index)
    {
      correctAnswer := index;
    }
  }
}
