/** The printable passport. It carries its own copy of the answer text and
    of the details table; this module states that both agree with the web
    passport's for every input. */
module PassportPdf {
  import opened Wrappers
  import opened JsRuntime
  import opened ScoringConfig
  import opened CreateReport
  import PassportHtml

  /** The status text of a stored answer, as the printable passport has it. */
  function AnswerText(q: Question, answerValue: string): string {
    if answerValue == "" then "N/A"
    else
      match q.qtype
      case Checkbox => if answerValue == "yes" then "Yes" else "No"
      case Select =>
        (match FindChoice(q.options, answerValue)
         case Some(o) => o.caption
         case None => answerValue)
      case DynamicLookup => if answerValue != "" then "Verified" else "Not Verified"
      case _ => answerValue
  }

  /** The printable passport reads every answer as the web passport does. */
  lemma AnswerTextAgrees(q: Question, v: string)
    ensures AnswerText(q, v) == PassportHtml.AnswerText(q, v)
  {
  }

  /** The row of one question in the printable details table. */
  function DetailsRow(q: Question, answers: seq<AnswerRow>): (r: PassportHtml.DetailRow)
    ensures r.criterion == q.caption
    ensures PassportHtml.FindAnswer(answers, q.id).None? ==> r.status == "-" && r.points == 0
    ensures PassportHtml.FindAnswer(answers, q.id).Some? ==>
              r.status == AnswerText(q, PassportHtml.FindAnswer(answers, q.id).value.answerValue)
              && r.points == PassportHtml.FindAnswer(answers, q.id).value.points
  {
    var ans := PassportHtml.FindAnswer(answers, q.id);
    PassportHtml.DetailRow(q.caption, if ans.Some? then AnswerText(q, ans.value.answerValue) else "-",
                           if ans.Some? then ans.value.points else 0)
  }

  /** The printable details page: only when there are answer rows, one block
      per pillar with a row per question. */
  function DetailsPage(cfg: seq<Pillar>, answers: seq<AnswerRow>): (r: Option<seq<PassportHtml.PillarDetails>>)
    ensures r.None? <==> answers == []
    ensures r.Some? ==> |r.value| == |cfg|
    ensures r.Some? ==> forall i :: 0 <= i < |cfg| ==>
              r.value[i].title == cfg[i].title && |r.value[i].rows| == |cfg[i].questions|
              && forall j :: 0 <= j < |cfg[i].questions| ==> r.value[i].rows[j] == DetailsRow(cfg[i].questions[j], answers)
  {
    if answers == [] then None
    else Some(seq(|cfg|, i requires 0 <= i < |cfg| =>
                PassportHtml.PillarDetails(cfg[i].title,
                  seq(|cfg[i].questions|, j requires 0 <= j < |cfg[i].questions| =>
                    DetailsRow(cfg[i].questions[j], answers)))))
  }

  /** Both passports show the same row for every question and answer set. */
  lemma DetailsRowAgrees(q: Question, answers: seq<AnswerRow>)
    ensures DetailsRow(q, answers) == PassportHtml.DetailsRow(q, answers)
  {
    var ans := PassportHtml.FindAnswer(answers, q.id);
    if ans.Some? {
      AnswerTextAgrees(q, ans.value.answerValue);
    }
  }

  /** Both passports show the same details page, or both none. */
  lemma DetailsPageAgrees(cfg: seq<Pillar>, answers: seq<AnswerRow>)
    ensures DetailsPage(cfg, answers) == PassportHtml.DetailsPage(cfg, answers)
  {
    var pdf, html := DetailsPage(cfg, answers), PassportHtml.DetailsPage(cfg, answers);
    if answers != [] {
      forall i | 0 <= i < |cfg| ensures pdf.value[i] == html.value[i] {
        forall j | 0 <= j < |cfg[i].questions| ensures pdf.value[i].rows[j] == html.value[i].rows[j] {
          DetailsRowAgrees(cfg[i].questions[j], answers);
        }
        assert pdf.value[i].rows == html.value[i].rows;
      }
      assert pdf.value == html.value;
    }
  }
}
