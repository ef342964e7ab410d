/** The web passport: the text shown for a stored answer, the details table
    that looks each question's answer up among the report's answer rows, and
    the scorecard bars. Layout and styling are not modelled. */
module PassportHtml {
  import opened Wrappers
  import opened JsRuntime
  import opened ScoringConfig
  import opened CreateReport

  /** The status text of a stored answer. */
  function AnswerText(q: Question, answerValue: string): string {
    if answerValue == "" then "N/A"
    else if q.qtype == Checkbox then (if answerValue == "yes" then "Yes" else "No")
    else if q.qtype == Select then
      (match FindChoice(q.options, answerValue)
       case Some(o) => o.caption
       case None => answerValue)
    else if q.qtype == DynamicLookup then (if answerValue != "" then "Verified" else "Not Verified")
    else answerValue
  }

  /** By question type: an empty answer reads "N/A"; a checkbox "Yes" exactly
      when the answer is "yes" and "No" otherwise; a select the caption of the
      option stored under that value, or the value itself when there is none;
      a dynamic lookup "Verified"; any other type its raw value. */
  lemma AnswerTextCases(q: Question, v: string)
    ensures v == "" ==> AnswerText(q, v) == "N/A"
    ensures v != "" && q.qtype == Checkbox ==>
              (AnswerText(q, v) == "Yes" <==> v == "yes") && (AnswerText(q, v) == "No" <==> v != "yes")
    ensures v != "" && q.qtype == Select ==>
              (forall o :: o in q.options && o.value == v ==> AnswerText(q, v) == FindChoice(q.options, v).value.caption)
              && ((forall o :: o in q.options ==> o.value != v) ==> AnswerText(q, v) == v)
    ensures v != "" && q.qtype == DynamicLookup ==> AnswerText(q, v) == "Verified"
    ensures v != "" && (q.qtype == ReadonlyScore || q.qtype.OtherType?) ==> AnswerText(q, v) == v
  {
  }

  /** "Not Verified" is never shown for a dynamic lookup: an empty answer has
      already read "N/A". */
  lemma NotVerifiedUnreachable(q: Question, v: string)
    requires q.qtype == DynamicLookup
    ensures AnswerText(q, v) != "Not Verified"
    ensures AnswerText(q, v) == "N/A" || AnswerText(q, v) == "Verified"
  {
  }

  /** A select answer stored under an option's value shows that option's
      caption, when the question's option values are distinct. */
  lemma SelectShowsCaption(q: Question, k: nat)
    requires q.qtype == Select && SelectShape(q) && ValuesShape(q)
    requires k < |q.options|
    ensures AnswerText(q, q.options[k].value) == q.options[k].caption
  {
    FindChoiceUnique(q.options, q.options[k]);
  }

  /** The number form of an answer never reads as the word "yes". */
  lemma NumberIsNotYes(n: int)
    ensures IntToString(n) != "yes"
  {
    var s := IntToString(n);
    assert "yes"[0] == 'y';
    if n >= 0 {
      assert s == NatToString(n);
      assert '0' <= s[0] <= '9';
    } else {
      assert s[0] == '-';
    }
  }

  /** The text of an answer as the report saved it (`String(value)` of a
      truthy value) is never empty, so the "N/A" case is not taken; a checkbox shows "Yes" exactly when the
      wizard stored "yes"; a lookup shows "Verified"; the transport sub-score
      shows its digits. */
  lemma SavedAnswerText(q: Question, v: Value)
    requires Truthy(v)
    ensures JsString(v) != ""
    ensures q.qtype == Checkbox || q.qtype == DynamicLookup ==> AnswerText(q, JsString(v)) != "N/A"
    ensures q.qtype == Checkbox ==> (AnswerText(q, JsString(v)) == "Yes" <==> v == Str("yes"))
    ensures q.qtype == DynamicLookup ==> AnswerText(q, JsString(v)) == "Verified"
    ensures q.qtype == ReadonlyScore && v.Num? ==> AnswerText(q, JsString(v)) == IntToString(v.n)
  {
    if v.Num? {
      NumberIsNotYes(v.n);
    }
  }

  // ---------------------------------------------------------------------------
  // The details table

  /** `answers.find(a => a.question_id === id)`: the first row for the id. */
  function FindAnswer(answers: seq<AnswerRow>, questionId: string): (r: Option<AnswerRow>)
    ensures r.Some? ==> r.value in answers && r.value.questionId == questionId
    ensures r.None? <==> forall a :: a in answers ==> a.questionId != questionId
    ensures r.Some? ==> exists k :: 0 <= k < |answers| && answers[k] == r.value
                                    && forall j :: 0 <= j < k ==> answers[j].questionId != questionId
  {
    if answers == [] then None
    else if answers[0].questionId == questionId then Some(answers[0])
    else
      var rest := FindAnswer(answers[1..], questionId);
      assert forall a :: a in answers ==> a == answers[0] || a in answers[1..];
      if rest.Some? then
        var k :| 0 <= k < |answers[1..]| && answers[1..][k] == rest.value
                 && forall j :: 0 <= j < k ==> answers[1..][j].questionId != questionId;
        assert answers[k + 1] == rest.value;
        assert forall j :: 1 <= j < k + 1 ==> answers[j] == answers[1..][j - 1];
        rest
      else rest
  }

  /** A row of the details table: criterion, status and points. */
  datatype DetailRow = DetailRow(criterion: string, status: string, points: int)

  /** One pillar's block of the details page. */
  datatype PillarDetails = PillarDetails(title: string, rows: seq<DetailRow>)

  /** The row of one question: "-" and 0 points without a saved answer,
      else the answer's text and its awarded points. */
  function DetailsRow(q: Question, answers: seq<AnswerRow>): (r: DetailRow)
    ensures r.criterion == q.caption
    ensures FindAnswer(answers, q.id).None? ==> r.status == "-" && r.points == 0
    ensures FindAnswer(answers, q.id).Some? ==>
              r.status == AnswerText(q, FindAnswer(answers, q.id).value.answerValue)
              && r.points == FindAnswer(answers, q.id).value.points
  {
    match FindAnswer(answers, q.id)
    case Some(a) => DetailRow(q.caption, AnswerText(q, a.answerValue), a.points)
    case None => DetailRow(q.caption, "-", 0)
  }

  /** The details page: absent when there are no answer rows, else one block
      per pillar with one row per question, in configuration order. */
  function DetailsPage(cfg: seq<Pillar>, answers: seq<AnswerRow>): (r: Option<seq<PillarDetails>>)
    ensures r.None? <==> |answers| == 0
    ensures r.Some? ==> |r.value| == |cfg|
    ensures r.Some? ==> forall i :: 0 <= i < |cfg| ==>
              r.value[i].title == cfg[i].title && |r.value[i].rows| == |cfg[i].questions|
              && forall j :: 0 <= j < |cfg[i].questions| ==> r.value[i].rows[j] == DetailsRow(cfg[i].questions[j], answers)
  {
    if |answers| == 0 then None
    else Some(seq(|cfg|, i requires 0 <= i < |cfg| =>
                PillarDetails(cfg[i].title,
                              seq(|cfg[i].questions|, j requires 0 <= j < |cfg[i].questions| =>
                                 DetailsRow(cfg[i].questions[j], answers)))))
  }

  /** Two questions of a list with distinct ids and the same id are one. */
  lemma SameIdSameQuestion(qs: seq<Question>, q: Question, q': Question)
    requires NoDuplicates(Ids(qs))
    requires q in qs && q' in qs && q.id == q'.id
    ensures q == q'
  {
    var ids := Ids(qs);
    var i :| 0 <= i < |qs| && qs[i] == q;
    var j :| 0 <= j < |qs| && qs[j] == q';
    assert ids[i] == ids[j];
    assert i == j;
  }

  /** The details table shows what the report saved: for a question of a
      configuration with distinct ids, the row for the report's own answer
      rows shows the text and points stored for its answer, or "-" and 0 when
      the form left it empty. */
  lemma DetailsShowSavedAnswer(reportId: string, cfg: seq<Pillar>, data: map<string, Value>, q: Question)
    requires NoDuplicates(Ids(AllQuestions(cfg)))
    requires q in AllQuestions(cfg)
    ensures Present(Get(data, q.id)) ==>
              DetailsRow(q, ReportRows(reportId, cfg, data))
              == DetailRow(q.caption, AnswerText(q, JsString(data[q.id])), PersistedPoints(q, data[q.id]))
    ensures !Present(Get(data, q.id)) ==>
              DetailsRow(q, ReportRows(reportId, cfg, data)) == DetailRow(q.caption, "-", 0)
  {
    var rows := ReportRows(reportId, cfg, data);
    forall r | r in rows && r.questionId == q.id
      ensures Present(Get(data, q.id))
      ensures r == AnswerRow(reportId, q.id, JsString(data[q.id]), PersistedPoints(q, data[q.id]))
    {
      ReportRowsMembers(reportId, cfg, data, r);
      var q' :| q' in AllQuestions(cfg) && Present(Get(data, q'.id))
                && r == AnswerRow(reportId, q'.id, JsString(data[q'.id]), PersistedPoints(q', data[q'.id]));
      SameIdSameQuestion(AllQuestions(cfg), q, q');
    }
    if Present(Get(data, q.id)) {
      ReportRowsMembers(reportId, cfg, data, AnswerRow(reportId, q.id, JsString(data[q.id]), PersistedPoints(q, data[q.id])));
    }
  }

  /** The same for the questionnaire: its question ids are distinct. */
  lemma ConfigDetailsShowSavedAnswer(reportId: string, data: map<string, Value>, q: Question)
    requires q in AllQuestions(SCORING_CONFIG)
    ensures Present(Get(data, q.id)) ==>
              DetailsRow(q, ReportRows(reportId, SCORING_CONFIG, data))
              == DetailRow(q.caption, AnswerText(q, JsString(data[q.id])), PersistedPoints(q, data[q.id]))
    ensures !Present(Get(data, q.id)) ==>
              DetailsRow(q, ReportRows(reportId, SCORING_CONFIG, data)) == DetailRow(q.caption, "-", 0)
  {
    DistinctQuestionIds();
    DetailsShowSavedAnswer(reportId, SCORING_CONFIG, data, q);
  }

  // ---------------------------------------------------------------------------
  // The scorecard

  /** The width of a pillar's bar, in percent of a 25-point scale. */
  function BarWidth(score: int): real {
    (score as real / 25.0) * 100.0
  }

  /** A pillar score within its cap fills its bar at most once, and the
      bar grows with the score. */
  lemma BarWidthBounds(score: int, other: int)
    ensures 0 <= score <= 25 ==> 0.0 <= BarWidth(score) <= 100.0
    ensures BarWidth(score) == 100.0 <==> score == 25
    ensures score <= other ==> BarWidth(score) <= BarWidth(other)
  {
  }
}
