/** The in-memory quiz store: two append-only lists, themes and questions,
    with first-match lookups and a filter by theme id
    (app/store/quiz/accessor.py). */
module QuizStore {
  import opened Wrappers
  import opened Seqs

  datatype Theme = Theme(id: int, title: string)
  datatype Answer = Answer(title: string, isCorrect: bool)
  datatype Question = Question(id: int, themeId: int, title: string, answers: seq<Answer>)

  /** The two lists the store keeps, as one value. */
  datatype Database = Database(themes: seq<Theme>, questions: seq<Question>)

  /** Match predicates of the lookups: `theme.title == title`,
      `theme.id == id_`, `question.title == title`, `question.theme_id == theme_id`. */
  function TitleIs(title: string): Theme -> bool { (t: Theme) => t.title == title }
  function IdIs(id: int): Theme -> bool { (t: Theme) => t.id == id }
  function QuestionTitleIs(title: string): Question -> bool { (q: Question) => q.title == title }
  function ThemeIdIs(themeId: int): Question -> bool { (q: Question) => q.themeId == themeId }

  /** What `get_theme_by_title` returns. */
  function ThemeWithTitle(themes: seq<Theme>, title: string): Option<Theme>
  {
    First(themes, TitleIs(title))
  }

  /** What `get_theme_by_id` returns. */
  function ThemeWithId(themes: seq<Theme>, id: int): Option<Theme>
  {
    First(themes, IdIs(id))
  }

  /** What `get_question_by_title` returns. */
  function QuestionWithTitle(questions: seq<Question>, title: string): Option<Question>
  {
    First(questions, QuestionTitleIs(title))
  }

  /** What `list_questions` returns: everything for a negative theme id,
      otherwise the questions of that theme in store order. */
  function QuestionsFor(questions: seq<Question>, themeId: int): seq<Question>
  {
    if themeId < 0 then questions else Filter(questions, ThemeIdIs(themeId))
  }

  /** `get_theme_by_title` finds the first theme with that title, and finds
      nothing exactly when no theme has it. */
  lemma ThemeWithTitleSpec(themes: seq<Theme>, title: string)
    ensures ThemeWithTitle(themes, title).None? <==> forall i :: 0 <= i < |themes| ==> themes[i].title != title
    ensures ThemeWithTitle(themes, title).Some? ==>
              exists i :: 0 <= i < |themes| && themes[i] == ThemeWithTitle(themes, title).value
                          && themes[i].title == title
                          && forall j :: 0 <= j < i ==> themes[j].title != title
  {
    var r := ThemeWithTitle(themes, title);
    if r.Some? {
      var i :| 0 <= i < |themes| && themes[i] == r.value && TitleIs(title)(themes[i]) && IsFirst(themes, TitleIs(title), i);
      assert forall j :: 0 <= j < i ==> themes[j].title != title;
    }
  }

  /** `get_theme_by_id` finds the first theme with that id, and finds
      nothing exactly when no theme has it. */
  lemma ThemeWithIdSpec(themes: seq<Theme>, id: int)
    ensures ThemeWithId(themes, id).None? <==> forall i :: 0 <= i < |themes| ==> themes[i].id != id
    ensures ThemeWithId(themes, id).Some? ==>
              exists i :: 0 <= i < |themes| && themes[i] == ThemeWithId(themes, id).value
                          && themes[i].id == id
                          && forall j :: 0 <= j < i ==> themes[j].id != id
  {
    var r := ThemeWithId(themes, id);
    if r.Some? {
      var i :| 0 <= i < |themes| && themes[i] == r.value && IdIs(id)(themes[i]) && IsFirst(themes, IdIs(id), i);
      assert forall j :: 0 <= j < i ==> themes[j].id != id;
    }
  }

  /** `get_question_by_title` finds the first question with that title, and
      finds nothing exactly when no question has it. */
  lemma QuestionWithTitleSpec(questions: seq<Question>, title: string)
    ensures QuestionWithTitle(questions, title).None? <==> forall i :: 0 <= i < |questions| ==> questions[i].title != title
    ensures QuestionWithTitle(questions, title).Some? ==>
              exists i :: 0 <= i < |questions| && questions[i] == QuestionWithTitle(questions, title).value
                          && questions[i].title == title
                          && forall j :: 0 <= j < i ==> questions[j].title != title
  {
    var r := QuestionWithTitle(questions, title);
    if r.Some? {
      var i :| 0 <= i < |questions| && questions[i] == r.value && QuestionTitleIs(title)(questions[i])
               && IsFirst(questions, QuestionTitleIs(title), i);
      assert forall j :: 0 <= j < i ==> questions[j].title != title;
    }
  }

  /** `list_questions` with a negative theme id returns the whole list. */
  lemma QuestionsForNegative(questions: seq<Question>, themeId: int)
    requires themeId < 0
    ensures QuestionsFor(questions, themeId) == questions
  {
  }

  /** `list_questions` with a non-negative theme id returns exactly the
      questions of that theme, in store order: the subsequence of the store
      at precisely the indices whose question has that theme id. */
  lemma QuestionsForTheme(questions: seq<Question>, themeId: int)
    requires themeId >= 0
    ensures forall q :: q in QuestionsFor(questions, themeId) ==> q in questions && q.themeId == themeId
    ensures forall q :: q in questions && q.themeId == themeId ==> q in QuestionsFor(questions, themeId)
    ensures exists idx :: SelectedAt(QuestionsFor(questions, themeId), questions, idx)
                          && forall i :: 0 <= i < |questions| ==> (questions[i].themeId == themeId <==> i in idx)
  {
    var p := ThemeIdIs(themeId);
    FilterSelects(questions, p);
    var idx := MatchingIndices(questions, p);
    assert forall i :: 0 <= i < |questions| ==> (questions[i].themeId == themeId <==> p(questions[i]));
    assert forall q :: q in questions ==> (q.themeId == themeId <==> p(q));
    assert SelectedAt(QuestionsFor(questions, themeId), questions, idx);
  }

  /** The store (`QuizAccessor` over `app.database.themes` and
      `app.database.questions`). The next-id counters of the database are not
      part of it: each create method takes the id to use. */
  class QuizAccessor {
    var themes: seq<Theme>
    var questions: seq<Question>

    constructor ()
      ensures themes == [] && questions == []
    {
      themes := [];
      questions := [];
    }

    /** The store's contents as a value. */
    function Db(): Database
      reads this
    {
      Database(themes, questions)
    }

    /** `create_theme`: appends one theme with the given id and title and
        returns it; earlier themes and all questions are unchanged. */
    method CreateTheme(title: string, nextThemeId: int) returns (theme: Theme)
      modifies this
      ensures theme.id == nextThemeId && theme.title == title
      ensures themes == old(themes) + [theme]
      ensures questions == old(questions)
    {
      theme := Theme(nextThemeId, title);
      themes := themes + [theme];
    }

    /** `get_theme_by_title`: a loop with an early return. */
    method GetThemeByTitle(title: string) returns (r: Option<Theme>)
      ensures r == ThemeWithTitle(themes, title)
    {
      for i := 0 to |themes|
        invariant IsFirst(themes, TitleIs(title), i)
      {
        if themes[i].title == title {
          FirstAt(themes, TitleIs(title), i);
          return Some(themes[i]);
        }
      }
      return None;
    }

    /** `get_theme_by_id`: a loop with an early return. */
    method GetThemeById(id: int) returns (r: Option<Theme>)
      ensures r == ThemeWithId(themes, id)
    {
      for i := 0 to |themes|
        invariant IsFirst(themes, IdIs(id), i)
      {
        if themes[i].id == id {
          FirstAt(themes, IdIs(id), i);
          return Some(themes[i]);
        }
      }
      return None;
    }

    /** `list_themes`: the theme list itself. */
    method ListThemes() returns (r: seq<Theme>)
      ensures r == themes
    {
      r := themes;
    }

    /** `get_question_by_title`: a loop with an early return. */
    method GetQuestionByTitle(title: string) returns (r: Option<Question>)
      ensures r == QuestionWithTitle(questions, title)
    {
      for i := 0 to |questions|
        invariant IsFirst(questions, QuestionTitleIs(title), i)
      {
        if questions[i].title == title {
          FirstAt(questions, QuestionTitleIs(title), i);
          return Some(questions[i]);
        }
      }
      return None;
    }

    /** `create_question`: appends one question carrying the given id, title,
        theme id and answers and returns it; themes and earlier questions
        are unchanged. */
    method CreateQuestion(title: string, themeId: int, answers: seq<Answer>, nextQuestionId: int)
      returns (question: Question)
      modifies this
      ensures question == Question(nextQuestionId, themeId, title, answers)
      ensures questions == old(questions) + [question]
      ensures themes == old(themes)
    {
      question := Question(nextQuestionId, themeId, title, answers);
      questions := questions + [question];
    }

    /** `list_questions`: the whole list for a negative theme id, otherwise a
        loop that appends each question of that theme to the result. */
    method ListQuestions(themeId: int) returns (r: seq<Question>)
      ensures r == QuestionsFor(questions, themeId)
    {
      if themeId < 0 {
        return questions;
      }
      r := [];
      for i := 0 to |questions|
        invariant r == Filter(questions[..i], ThemeIdIs(themeId))
      {
        assert questions[..i + 1][..i] == questions[..i];
        if questions[i].themeId == themeId {
          r := r + [questions[i]];
        }
      }
      assert questions[..|questions|] == questions;
    }
  }
}
