/** The admission rules of the quiz admin handlers (app/quiz/views.py):
    `ThemeAddView.post`, `QuestionAddView.post` and `QuestionListView.get`.
    Each handler is first a decision over the store's contents that yields
    the reply and the new contents, and then a method that runs the same
    checks through the store's own methods. */
module QuizViews {
  import opened Wrappers
  import opened Seqs
  import opened QuizStore

  /** The HTTP errors a handler raises. */
  datatype HttpError = BadRequest | Conflict | NotFound

  /** An answer of the request body, `{"title": ..., "is_correct": ...}`. */
  datatype AnswerData = AnswerData(title: string, isCorrect: bool)

  /** The body of a question-add request. */
  datatype QuestionRequest = QuestionRequest(title: string, themeId: int, answers: seq<AnswerData>)

  /** A handler's reply (the created entity or the error raised) and the
      store contents after it. */
  datatype Handled<T> = Handled(reply: Result<T, HttpError>, db: Database)

  /** The list comprehension that turns the request's answers into `Answer`s,
      one per request answer, in request order. */
  function ToAnswers(data: seq<AnswerData>): (r: seq<Answer>)
    ensures |r| == |data|
    ensures forall i :: 0 <= i < |r| ==> r[i] == Answer(data[i].title, data[i].isCorrect)
  {
    seq(|data|, i requires 0 <= i < |data| => Answer(data[i].title, data[i].isCorrect))
  }

  const IsCorrect: Answer -> bool := (a: Answer) => a.isCorrect

  /** The validation of `QuestionAddView.post`: at least two answers, and
      the list of correct ones has length one. */
  predicate ValidAnswers(answers: seq<Answer>)
    ensures ValidAnswers(answers) ==>
              |answers| >= 2 && exists i :: 0 <= i < |answers| && answers[i].isCorrect
  {
    var correct := Filter(answers, IsCorrect);
    assert |correct| >= 1 ==> exists i :: 0 <= i < |answers| && answers[i].isCorrect by {
      if |correct| >= 1 {
        assert correct[0] in correct;
        var i :| 0 <= i < |answers| && answers[i] == correct[0];
        assert IsCorrect(answers[i]);
      }
    }
    |answers| >= 2 && |correct| == 1
  }

  /** Answers pass validation exactly when there are at least two of them
      and exactly one of them is correct. */
  lemma {:induction false} ValidAnswersSpec(answers: seq<Answer>)
    ensures ValidAnswers(answers) <==>
              |answers| >= 2
              && exists i :: 0 <= i < |answers| && answers[i].isCorrect
                             && forall j :: 0 <= j < |answers| && j != i ==> !answers[j].isCorrect
  {
    FilterSelects(answers, IsCorrect);
    var idx := MatchingIndices(answers, IsCorrect);
    assert |idx| == |Filter(answers, IsCorrect)|;
    if |idx| == 1 {
      var i := idx[0];
      assert answers[i].isCorrect;
      forall j | 0 <= j < |answers| && j != i ensures !answers[j].isCorrect {
        assert IsCorrect(answers[j]) <==> j in idx;
      }
    } else {
      forall i | 0 <= i < |answers| && answers[i].isCorrect
        ensures exists j :: 0 <= j < |answers| && j != i && answers[j].isCorrect
      {
        assert i in idx;
        assert |idx| >= 2;
        assert idx[0] < idx[1];
        var j := if idx[0] == i then idx[1] else idx[0];
        assert IsCorrect(answers[j]);
      }
    }
  }

  /** `ThemeAddView.post` over the store's contents. */
  function AddTheme(db: Database, title: string, nextThemeId: int): (h: Handled<Theme>)
    ensures h.db.questions == db.questions
    ensures h.reply.Failure? <==> exists i :: 0 <= i < |db.themes| && db.themes[i].title == title
    ensures h.reply.Failure? ==> h.reply.error == Conflict && h.db == db
    ensures h.reply.Success? ==> h.reply.value == Theme(nextThemeId, title)
                                 && h.db.themes == db.themes + [h.reply.value]
  {
    ThemeWithTitleSpec(db.themes, title);
    if ThemeWithTitle(db.themes, title).Some? then
      Handled(Failure(Conflict), db)
    else
      var theme := Theme(nextThemeId, title);
      Handled(Success(theme), Database(db.themes + [theme], db.questions))
  }

  /** `QuestionAddView.post` over the store's contents. */
  function AddQuestion(db: Database, req: QuestionRequest, nextQuestionId: int): (h: Handled<Question>)
    ensures h.db.themes == db.themes
    ensures h.reply == Failure(BadRequest) <==> !ValidAnswers(ToAnswers(req.answers))
    ensures h.reply == Failure(Conflict) <==>
              ValidAnswers(ToAnswers(req.answers))
              && exists i :: 0 <= i < |db.questions| && db.questions[i].title == req.title
    ensures h.reply == Failure(NotFound) <==>
              && ValidAnswers(ToAnswers(req.answers))
              && (forall i :: 0 <= i < |db.questions| ==> db.questions[i].title != req.title)
              && (forall i :: 0 <= i < |db.themes| ==> db.themes[i].id != req.themeId)
    ensures h.reply.Failure? ==> h.db == db
    ensures h.reply.Success? ==>
              && h.reply.value == Question(nextQuestionId, req.themeId, req.title, ToAnswers(req.answers))
              && h.db.questions == db.questions + [h.reply.value]
  {
    QuestionWithTitleSpec(db.questions, req.title);
    ThemeWithIdSpec(db.themes, req.themeId);
    var answers := ToAnswers(req.answers);
    if !ValidAnswers(answers) then
      Handled(Failure(BadRequest), db)
    else if QuestionWithTitle(db.questions, req.title).Some? then
      Handled(Failure(Conflict), db)
    else if ThemeWithId(db.themes, req.themeId).None? then
      Handled(Failure(NotFound), db)
    else
      var question := Question(nextQuestionId, req.themeId, req.title, answers);
      Handled(Success(question), Database(db.themes, db.questions + [question]))
  }

  /** `QuestionListView.get` over the store's contents: the `theme_id` query
      parameter defaults to -1. */
  function ListQuestionsReply(db: Database, themeIdQuery: Option<int>): (r: seq<Question>)
    ensures themeIdQuery.GetOr(-1) < 0 ==> r == db.questions
    ensures forall q :: q in r ==> q in db.questions
  {
    QuestionsFor(db.questions, themeIdQuery.GetOr(-1))
  }

  /** With a non-negative `theme_id` query the handler lists exactly the
      questions of that theme, in store order. */
  lemma ListQuestionsOfTheme(db: Database, themeId: int)
    requires themeId >= 0
    ensures forall q :: q in ListQuestionsReply(db, Some(themeId)) <==> q in db.questions && q.themeId == themeId
    ensures exists idx :: SelectedAt(ListQuestionsReply(db, Some(themeId)), db.questions, idx)
                          && forall i :: 0 <= i < |db.questions| ==> (db.questions[i].themeId == themeId <==> i in idx)
  {
    assert ListQuestionsReply(db, Some(themeId)) == QuestionsFor(db.questions, themeId);
    QuestionsForTheme(db.questions, themeId);
  }

  /** What the admission rules keep true of the store: theme titles and
      question titles are unique, every question passed validation, and
      every question belongs to a theme that exists. */
  ghost predicate Consistent(db: Database)
  {
    && (forall i, j :: 0 <= i < j < |db.themes| ==> db.themes[i].title != db.themes[j].title)
    && (forall i, j :: 0 <= i < j < |db.questions| ==> db.questions[i].title != db.questions[j].title)
    && (forall k :: 0 <= k < |db.questions| ==> ValidAnswers(db.questions[k].answers))
    && (forall k :: 0 <= k < |db.questions| ==> HasTheme(db.themes, db.questions[k].themeId))
  }

  ghost predicate HasTheme(themes: seq<Theme>, id: int)
  {
    exists i :: 0 <= i < |themes| && themes[i].id == id
  }

  /** Adding a theme keeps the store consistent. */
  lemma AddThemeKeepsConsistent(db: Database, title: string, nextThemeId: int)
    requires Consistent(db)
    ensures Consistent(AddTheme(db, title, nextThemeId).db)
  {
    var h := AddTheme(db, title, nextThemeId);
    forall k | 0 <= k < |h.db.questions| ensures HasTheme(h.db.themes, h.db.questions[k].themeId) {
      var i :| 0 <= i < |db.themes| && db.themes[i].id == db.questions[k].themeId;
      assert h.db.themes[i] == db.themes[i];
    }
  }

  /** Adding a question keeps the store consistent. */
  lemma AddQuestionKeepsConsistent(db: Database, req: QuestionRequest, nextQuestionId: int)
    requires Consistent(db)
    ensures Consistent(AddQuestion(db, req, nextQuestionId).db)
  {
    var h := AddQuestion(db, req, nextQuestionId);
    if h.reply.Success? {
      ThemeWithIdSpec(db.themes, req.themeId);
      var n := |db.questions|;
      assert h.db.questions[n] == h.reply.value;
      assert HasTheme(db.themes, req.themeId);
    }
  }

  /** Whatever the first add of a title did, adding the same title again is
      a conflict that changes nothing. */
  lemma AddThemeAgainConflicts(db: Database, title: string, id1: int, id2: int)
    ensures var db1 := AddTheme(db, title, id1).db;
            AddTheme(db1, title, id2) == Handled(Failure(Conflict), db1)
  {
    var h := AddTheme(db, title, id1);
    if h.reply.Success? {
      assert h.db.themes[|db.themes|].title == title;
    }
  }

  /** After a question is created, a request for the same title with valid
      answers is a conflict, whatever its theme. */
  lemma AddQuestionAgainConflicts(db: Database, req: QuestionRequest, req2: QuestionRequest, id1: int, id2: int)
    requires AddQuestion(db, req, id1).reply.Success?
    requires req2.title == req.title && ValidAnswers(ToAnswers(req2.answers))
    ensures var db1 := AddQuestion(db, req, id1).db;
            AddQuestion(db1, req2, id2) == Handled(Failure(Conflict), db1)
  {
    var h := AddQuestion(db, req, id1);
    assert h.db.questions[|db.questions|].title == req.title;
  }

  /** `ThemeAddView.post` run against the store. */
  method PostTheme(store: QuizAccessor, title: string, nextThemeId: int) returns (r: Result<Theme, HttpError>)
    modifies store
    ensures Handled(r, store.Db()) == AddTheme(old(store.Db()), title, nextThemeId)
  {
    var found := store.GetThemeByTitle(title);
    if found.Some? {
      return Failure(Conflict);
    }
    var theme := store.CreateTheme(title, nextThemeId);
    return Success(theme);
  }

  /** `QuestionAddView.post` run against the store: validation, then the
      duplicate-title check, then the theme check, then creation. */
  method PostQuestion(store: QuizAccessor, req: QuestionRequest, nextQuestionId: int)
    returns (r: Result<Question, HttpError>)
    modifies store
    ensures Handled(r, store.Db()) == AddQuestion(old(store.Db()), req, nextQuestionId)
  {
    var answers := ToAnswers(req.answers);
    if |answers| < 2 || |Filter(answers, IsCorrect)| != 1 {
      return Failure(BadRequest);
    }
    var sameTitle := store.GetQuestionByTitle(req.title);
    if sameTitle.Some? {
      return Failure(Conflict);
    }
    var theme := store.GetThemeById(req.themeId);
    if theme.None? {
      return Failure(NotFound);
    }
    var question := store.CreateQuestion(req.title, req.themeId, answers, nextQuestionId);
    return Success(question);
  }

  /** `QuestionListView.get` run against the store. */
  method GetQuestionList(store: QuizAccessor, themeIdQuery: Option<int>) returns (r: seq<Question>)
    ensures r == ListQuestionsReply(store.Db(), themeIdQuery)
  {
    var themeId := themeIdQuery.GetOr(-1);
    r := store.ListQuestions(themeId);
  }
}
