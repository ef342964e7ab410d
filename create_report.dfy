/** The report route's action: it stores one report row with seventeen bound
    values and one answer row per answered question, whose points follow rules
    of their own that differ from the wizard's live scorer. The report id, the
    database and the order metafield update are outside the model: the id is a
    parameter and the writes are returned as values. */
module CreateReport {
  import opened Wrappers
  import opened JsRuntime
  import opened ScoringConfig
  import Wizard

  // ---------------------------------------------------------------------------
  // Answer rows

  /** A row of `report_answers`. */
  datatype AnswerRow = AnswerRow(reportId: string, questionId: string, answerValue: string, points: int)

  /** The points stored with a (non-empty) answer: checkbox and select answers
      earn the points of the option stored under exactly that value, dynamic
      lookups 5, every other type (the transport question included) nothing. */
  function PersistedPoints(q: Question, answer: Value): int {
    if q.qtype == Checkbox || q.qtype == Select then
      (match answer
       case Str(s) => (match FindChoice(q.options, s)
                       case Some(o) => o.points
                       case None => 0)
       case Num(_) => 0)
    else if q.qtype == DynamicLookup then 5
    else 0
  }

  /** The row of one question, when its answer is non-empty. */
  function RowOf(reportId: string, q: Question, data: map<string, Value>): seq<AnswerRow> {
    var a := Get(data, q.id);
    if Present(a) then [AnswerRow(reportId, q.id, JsString(a.value), PersistedPoints(q, a.value))] else []
  }

  /** The rows of a list of questions, in order. */
  function QuestionRows(reportId: string, qs: seq<Question>, data: map<string, Value>): seq<AnswerRow> {
    if qs == [] then [] else QuestionRows(reportId, qs[..|qs| - 1], data) + RowOf(reportId, qs[|qs| - 1], data)
  }

  /** The rows of the pillars of `cfg`, pillar after pillar. */
  function ReportRows(reportId: string, cfg: seq<Pillar>, data: map<string, Value>): seq<AnswerRow> {
    if cfg == [] then [] else ReportRows(reportId, cfg[..|cfg| - 1], data) + QuestionRows(reportId, cfg[|cfg| - 1].questions, data)
  }

  /** The answers loop: over each pillar and each of its questions, push a row
      for every non-empty answer. */
  method CollectAnswerRows(reportId: string, cfg: seq<Pillar>, data: map<string, Value>)
    returns (answersToInsert: seq<AnswerRow>)
    ensures answersToInsert == ReportRows(reportId, cfg, data)
  {
    answersToInsert := [];
    for i := 0 to |cfg|
      invariant answersToInsert == ReportRows(reportId, cfg[..i], data)
    {
      var questions := cfg[i].questions;
      ghost var before := answersToInsert;
      for j := 0 to |questions|
        invariant answersToInsert == before + QuestionRows(reportId, questions[..j], data)
      {
        var question := questions[j];
        var answerValue := Get(data, question.id);
        QuestionRowsStep(reportId, questions, j, data);
        if Present(answerValue) {
          var points := StoredPoints(question, answerValue.value);
          var row := AnswerRow(reportId, question.id, JsString(answerValue.value), points);
          assert [row] == RowOf(reportId, question, data);
          Associate(before, QuestionRows(reportId, questions[..j], data), [row]);
          answersToInsert := answersToInsert + [row];
        } else {
          assert RowOf(reportId, question, data) == [];
          assert QuestionRows(reportId, questions[..j + 1], data) == QuestionRows(reportId, questions[..j], data);
        }
      }
      assert questions[..|questions|] == questions;
      ReportRowsStep(reportId, cfg, i, data);
    }
    assert cfg[..|cfg|] == cfg;
  }

  /** The points computed for one non-empty answer inside the loop. */
  method StoredPoints(question: Question, answerValue: Value) returns (points: int)
    ensures points == PersistedPoints(question, answerValue)
  {
    points := 0;
    if question.qtype == Checkbox || question.qtype == Select {
      if answerValue.Str? {
        var option := FindChoice(question.options, answerValue.s);
        if option.Some? {
          points := option.value.points;
        }
      }
    } else if question.qtype == DynamicLookup {
      points := 5;
    }
  }

  lemma Associate<T>(a: seq<T>, b: seq<T>, c: seq<T>)
    ensures (a + b) + c == a + (b + c)
  {
  }

  /** One more question adds its own row, if any. */
  lemma QuestionRowsStep(reportId: string, qs: seq<Question>, j: nat, data: map<string, Value>)
    requires j < |qs|
    ensures QuestionRows(reportId, qs[..j + 1], data) == QuestionRows(reportId, qs[..j], data) + RowOf(reportId, qs[j], data)
  {
    assert qs[..j + 1][..j] == qs[..j];
  }

  /** One more pillar adds the rows of its questions. */
  lemma ReportRowsStep(reportId: string, cfg: seq<Pillar>, i: nat, data: map<string, Value>)
    requires i < |cfg|
    ensures ReportRows(reportId, cfg[..i + 1], data) == ReportRows(reportId, cfg[..i], data) + QuestionRows(reportId, cfg[i].questions, data)
  {
    assert cfg[..i + 1][..i] == cfg[..i];
  }

  /** The rows of a list of questions are exactly those of its answered
      questions: each row carries the report id, its question's id, the answer
      as text and the persisted points, and each answered question has one. */
  lemma {:induction false} QuestionRowsMembers(reportId: string, qs: seq<Question>, data: map<string, Value>, r: AnswerRow)
    ensures r in QuestionRows(reportId, qs, data) <==>
            exists q :: q in qs && Present(Get(data, q.id))
                        && r == AnswerRow(reportId, q.id, JsString(data[q.id]), PersistedPoints(q, data[q.id]))
  {
    if qs != [] {
      var init, last := qs[..|qs| - 1], qs[|qs| - 1];
      QuestionRowsMembers(reportId, init, data, r);
      InitOrLast(qs);
      if r in QuestionRows(reportId, qs, data) && r !in QuestionRows(reportId, init, data) {
        assert r in RowOf(reportId, last, data);
      }
    }
  }

  /** A member of a non-empty list is in its initial part or is its last element. */
  lemma InitOrLast<T>(s: seq<T>)
    requires s != []
    ensures forall x :: x in s <==> x in s[..|s| - 1] || x == s[|s| - 1]
  {
    assert s == s[..|s| - 1] + [s[|s| - 1]];
  }

  /** The rows of a run of questions followed by another are the first run's
      rows followed by the second's. */
  lemma {:induction false} QuestionRowsConcat(reportId: string, a: seq<Question>, b: seq<Question>, data: map<string, Value>)
    ensures QuestionRows(reportId, a + b, data) == QuestionRows(reportId, a, data) + QuestionRows(reportId, b, data)
  {
    if b != [] {
      var b0 := b[..|b| - 1];
      assert (a + b)[..|a + b| - 1] == a + b0;
      assert (a + b)[|a + b| - 1] == b[|b| - 1];
      QuestionRowsConcat(reportId, a, b0, data);
    } else {
      assert a + b == a;
    }
  }

  /** The rows follow the questions in pillar-then-question order: those of
      the configuration's questions laid end to end. */
  lemma {:induction false} ReportRowsInOrder(reportId: string, cfg: seq<Pillar>, data: map<string, Value>)
    ensures ReportRows(reportId, cfg, data) == QuestionRows(reportId, AllQuestions(cfg), data)
  {
    if cfg != [] {
      var init := cfg[..|cfg| - 1];
      ReportRowsInOrder(reportId, init, data);
      QuestionRowsConcat(reportId, AllQuestions(init), cfg[|cfg| - 1].questions, data);
    }
  }

  /** No row for a question whose answer is empty or absent, one for every
      answered question, all under the same report id. */
  lemma ReportRowsMembers(reportId: string, cfg: seq<Pillar>, data: map<string, Value>, r: AnswerRow)
    ensures r in ReportRows(reportId, cfg, data) <==>
            exists q :: q in AllQuestions(cfg) && Present(Get(data, q.id))
                        && r == AnswerRow(reportId, q.id, JsString(data[q.id]), PersistedPoints(q, data[q.id]))
    ensures r in ReportRows(reportId, cfg, data) ==> r.reportId == reportId
  {
    ReportRowsInOrder(reportId, cfg, data);
    QuestionRowsMembers(reportId, AllQuestions(cfg), data, r);
  }

  // ---------------------------------------------------------------------------
  // Persisted points against the live scorer

  /** A checkbox answered other than "yes" is worth its points live but 0 once
      stored; the transport sub-score is worth its value live and 0 once
      stored. */
  lemma PersistedDiffersFromLive()
    ensures Wizard.QuestionScore(PILLAR_1.questions[3], Some(Str("no"))) == 5
    ensures PersistedPoints(PILLAR_1.questions[3], Str("no")) == 0
    ensures Wizard.QuestionScore(PILLAR_4.questions[1], Some(Num(5))) == 5
    ensures PersistedPoints(PILLAR_4.questions[1], Num(5)) == 0
  {
    var rsl := PILLAR_1.questions[3];
    assert rsl.qtype == Checkbox && rsl.options == [rsl.options[0]];
    CheckboxPersistsOnlyItsValue(rsl, rsl.options[0], Str("no"));
  }

  /** A single-option checkbox holding any truthy value other than its
      option's is worth the option's points live but 0 once stored. */
  lemma CheckboxPersistsOnlyItsValue(q: Question, o: Choice, v: Value)
    requires q.qtype == Checkbox && q.options == [o]
    requires Truthy(v) && v != Str(o.value)
    ensures PersistedPoints(q, v) == 0
    ensures Wizard.QuestionScore(q, Some(v)) == o.points
  {
    if v.Str? {
      assert FindChoice(q.options, v.s) == None;
    }
  }

  /** A stored transport row is worth 0 whatever the sub-score. */
  lemma ReadonlyPersistsZero(q: Question, v: Value)
    requires q.qtype == ReadonlyScore
    ensures PersistedPoints(q, v) == 0
  {
  }

  /** Where the two rules agree: every non-empty select and dynamic lookup
      answer, and a checkbox answered with its own option's value. */
  lemma PersistedAgreesWithLive(q: Question, v: Value)
    requires Truthy(v)
    requires q.qtype == Select || q.qtype == DynamicLookup
             || (q.qtype == Checkbox && |q.options| > 0 && v == Str(q.options[0].value))
    ensures PersistedPoints(q, v) == Wizard.QuestionScore(q, Some(v))
  {
  }

  /** With options worth 0 to 5, a stored row is worth 0 to 5. */
  lemma PersistedPointsRange(q: Question, v: Value)
    requires PointsShape(q)
    ensures 0 <= PersistedPoints(q, v) <= 5
  {
    if (q.qtype == Checkbox || q.qtype == Select) && v.Str? {
      var o := FindChoice(q.options, v.s);
      if o.Some? {
        var k :| 0 <= k < |q.options| && q.options[k] == o.value;
      }
    }
  }

  // ---------------------------------------------------------------------------
  // The report row

  /** A value bound to an SQL parameter. */
  datatype Bind = Text(s: string) | Int(n: int) | Null

  /** The scorecard as it arrives in the request; a missing score is `None`. */
  datatype SubmittedScores = SubmittedScores(pillar1: Option<int>, pillar2: Option<int>, pillar3: Option<int>,
                                             pillar4: Option<int>, total: Option<int>)

  /** The submitted form: its fields, and the route summary already as JSON
      text (`None` when the wizard had none). */
  datatype Request = Request(intent: Option<string>, data: map<string, Value>, emissionsJson: Option<string>,
                             scores: SubmittedScores)

  const REPORT_COLUMNS := ["id", "shopify_order_id", "shopify_line_item_id", "suit_id", "mill_id",
                           "collection_id", "article_code", "composition", "item_name",
                           "score_fibre", "score_traceability", "score_labour", "score_climate",
                           "total_score", "emissions", "pdf_r2_key", "pdf_public_url"]

  function ValueBind(v: Value): Bind {
    match v
    case Str(s) => Text(s)
    case Num(n) => Int(n)
  }

  /** `data[key] || fallback`. */
  function FieldOr(data: map<string, Value>, key: string, fallback: Bind): (r: Bind)
    ensures Present(Get(data, key)) ==> r == ValueBind(data[key])
    ensures !Present(Get(data, key)) ==> r == fallback
  {
    var a := Get(data, key);
    if Present(a) then ValueBind(a.value) else fallback
  }

  /** `score ?? 0`. */
  function ScoreOr0(s: Option<int>): Bind {
    Int(s.GetOr(0))
  }

  function PassportUrl(reportId: string): string {
    "/app/passport/" + reportId
  }

  /** The seventeen values bound to the report row, in column order. */
  function BindValues(reportId: string, req: Request): seq<Bind> {
    var d := req.data;
    [Text(reportId),
     FieldOr(d, "shopify_order_id", Text("UNKNOWN")),
     FieldOr(d, "shopify_line_item_id", Null),
     FieldOr(d, "suit_id", Text("KAD-UNKNOWN")),
     FieldOr(d, "mill_id", Null),
     FieldOr(d, "collection_id", Null),
     FieldOr(d, "article_code", Null),
     FieldOr(d, "composition", Null),
     FieldOr(d, "item_name", Null),
     ScoreOr0(req.scores.pillar1),
     ScoreOr0(req.scores.pillar2),
     ScoreOr0(req.scores.pillar3),
     ScoreOr0(req.scores.pillar4),
     ScoreOr0(req.scores.total),
     if req.emissionsJson.Some? then Text(req.emissionsJson.value) else Null,
     Text("N/A"),
     Text(PassportUrl(reportId))]
  }

  /** One value per column. Non-empty text fields are bound as given; an empty
      or missing one falls back to "UNKNOWN" for the order, "KAD-UNKNOWN" for
      the suit and NULL for the rest; a missing score is 0; the emissions are
      their JSON text or NULL; the PDF key is "N/A" and the URL is the
      passport page of the report id. */
  lemma BindValuesShape(reportId: string, req: Request)
    ensures |BindValues(reportId, req)| == |REPORT_COLUMNS| == 17
    ensures BindValues(reportId, req)[0] == Text(reportId)
    ensures !Present(Get(req.data, "shopify_order_id")) ==> BindValues(reportId, req)[1] == Text("UNKNOWN")
    ensures Present(Get(req.data, "shopify_order_id")) ==>
              BindValues(reportId, req)[1] == ValueBind(req.data["shopify_order_id"])
    ensures !Present(Get(req.data, "suit_id")) ==> BindValues(reportId, req)[3] == Text("KAD-UNKNOWN")
    ensures Present(Get(req.data, "suit_id")) ==> BindValues(reportId, req)[3] == ValueBind(req.data["suit_id"])
    ensures forall k :: k in {2, 4, 5, 6, 7, 8} ==>
              (!Present(Get(req.data, REPORT_COLUMNS[k])) ==> BindValues(reportId, req)[k] == Null)
              && (Present(Get(req.data, REPORT_COLUMNS[k])) ==> BindValues(reportId, req)[k] == ValueBind(req.data[REPORT_COLUMNS[k]]))
    ensures BindValues(reportId, req)[9..14]
            == [Int(req.scores.pillar1.GetOr(0)), Int(req.scores.pillar2.GetOr(0)), Int(req.scores.pillar3.GetOr(0)),
                Int(req.scores.pillar4.GetOr(0)), Int(req.scores.total.GetOr(0))]
    ensures BindValues(reportId, req)[14] == Null <==> req.emissionsJson.None?
    ensures req.emissionsJson.Some? ==> BindValues(reportId, req)[14] == Text(req.emissionsJson.value)
    ensures BindValues(reportId, req)[15] == Text("N/A")
    ensures BindValues(reportId, req)[16] == Text(PassportUrl(reportId))
  {
    var b := BindValues(reportId, req);
    var scores := [ScoreOr0(req.scores.pillar1), ScoreOr0(req.scores.pillar2), ScoreOr0(req.scores.pillar3),
                   ScoreOr0(req.scores.pillar4), ScoreOr0(req.scores.total)];
    assert forall k :: 0 <= k < 5 ==> b[9..14][k] == b[9 + k];
    assert b[9..14] == scores;
  }

  // ---------------------------------------------------------------------------
  // The action

  /** What the action stores and returns: the report row, the answer rows and
      whether the batch insert runs, and the passport URL; or an error. */
  datatype ActionResult =
    | Saved(report: seq<Bind>, answers: seq<AnswerRow>, batchInsert: bool, reportUrl: string)
    | Failed(status: int, message: string)

  /** The action for a submitted form, `reportId` being the fresh UUID. */
  method Action(req: Request, reportId: string) returns (r: ActionResult)
    ensures req.intent != Some("submit_report") ==> r == Failed(400, "Invalid intent")
    ensures req.intent == Some("submit_report") ==>
              && r.Saved?
              && r.report == BindValues(reportId, req)
              && r.answers == ReportRows(reportId, SCORING_CONFIG, req.data)
              && (r.batchInsert <==> |r.answers| > 0)
              && r.reportUrl == PassportUrl(reportId)
  {
    if req.intent == Some("submit_report") {
      var bindValues := BindValues(reportId, req);
      var answersToInsert := CollectAnswerRows(reportId, SCORING_CONFIG, req.data);
      var batch := false;
      if |answersToInsert| > 0 {
        batch := true;
      }
      return Saved(bindValues, answersToInsert, batch, PassportUrl(reportId));
    }
    return Failed(400, "Invalid intent");
  }

  /** The batch insert runs exactly when some question of the configuration
      has a non-empty answer. */
  lemma BatchWhenAnswered(reportId: string, data: map<string, Value>)
    ensures |ReportRows(reportId, SCORING_CONFIG, data)| > 0 <==>
            exists q :: q in AllQuestions(SCORING_CONFIG) && Present(Get(data, q.id))
  {
    var rows := ReportRows(reportId, SCORING_CONFIG, data);
    if |rows| > 0 {
      ReportRowsMembers(reportId, SCORING_CONFIG, data, rows[0]);
    }
    forall q | q in AllQuestions(SCORING_CONFIG) && Present(Get(data, q.id)) ensures |rows| > 0 {
      ReportRowsMembers(reportId, SCORING_CONFIG, data,
                        AnswerRow(reportId, q.id, JsString(data[q.id]), PersistedPoints(q, data[q.id])));
    }
  }
}
