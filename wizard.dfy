/** The transparency wizard: it scores the questionnaire live as answers
    change, builds the three-leg transport summary from the chosen locations,
    turns its total distance into the transport sub-score, and pre-fills
    answers from the chosen mill. The React component's state is the class
    `WizardState`; each handler runs, after its own updates, the effects that
    its changes trigger. */
module Wizard {
  import opened Wrappers
  import opened JsRuntime
  import opened ScoringConfig
  import opened Emissions

  // ---------------------------------------------------------------------------
  // Question scores

  /** `parseInt(answer, 10)` of a stored transport sub-score: a number is
      itself, a string of decimal digits its value, any other string 0. */
  function ReadonlyValue(v: Value): (r: int)
    ensures v.Str? ==> r >= 0
  {
    match v
    case Num(n) => n
    case Str(s) => if s != [] && AllDigits(s) then DigitsValue(s) else 0
  }

  /** The points one answer earns for its question (`calculateQuestionScore`).
      `answer` is `formData[q.id]`, `None` when the key is absent. */
  function QuestionScore(q: Question, answer: Option<Value>): int {
    if q.qtype == ReadonlyScore then
      (if Present(answer) then ReadonlyValue(answer.value) else 0)
    else if !Present(answer) then 0
    else match q.qtype
      case Checkbox => if |q.options| > 0 then q.options[0].points else 0
      case Select =>
        (match answer.value
         case Str(s) => (match FindChoice(q.options, s)
                         case Some(o) => o.points
                         case None => 0)
         case Num(_) => 0)
      case DynamicLookup => 5
      case _ => 0
  }

  /** An absent or empty answer earns nothing, whatever the question type. */
  lemma AbsentAnswerScoresZero(q: Question, answer: Option<Value>)
    requires !Present(answer)
    ensures QuestionScore(q, answer) == 0
  {
  }

  /** A question of a type the scorer does not know earns nothing. */
  lemma UnknownTypeScoresZero(q: Question, answer: Option<Value>)
    requires q.qtype.OtherType?
    ensures QuestionScore(q, answer) == 0
  {
  }

  /** A checkbox earns its option's points for ANY non-empty answer, not only
      for the stored "yes". */
  lemma CheckboxScoresAnyAnswer(q: Question, answer: Option<Value>)
    requires q.qtype == Checkbox && Present(answer)
    ensures QuestionScore(q, answer) == (if |q.options| > 0 then q.options[0].points else 0)
  {
  }

  /** A select answer earns the points of the option stored under exactly that
      value, and nothing when no option is (a number never matches). */
  lemma SelectScoresMatchingOption(q: Question, answer: Option<Value>)
    requires q.qtype == Select && Present(answer)
    ensures answer.value.Num? ==> QuestionScore(q, answer) == 0
    ensures answer.value.Str? && (forall o :: o in q.options ==> o.value != answer.value.s) ==>
              QuestionScore(q, answer) == 0
    ensures forall k :: (0 <= k < |q.options| && answer == Some(Str(q.options[k].value))
                         && forall j :: 0 <= j < k ==> q.options[j].value != q.options[k].value) ==>
              QuestionScore(q, answer) == q.options[k].points
  {
    if answer.value.Str? {
      var r := FindChoice(q.options, answer.value.s);
      if r.Some? {
        var m :| 0 <= m < |q.options| && q.options[m] == r.value
                 && forall j :: 0 <= j < m ==> q.options[j].value != answer.value.s;
        forall k | 0 <= k < |q.options| && answer == Some(Str(q.options[k].value))
                   && (forall j :: 0 <= j < k ==> q.options[j].value != q.options[k].value)
          ensures QuestionScore(q, answer) == q.options[k].points
        {
          assert !(m < k) && !(k < m);
        }
      }
    }
  }

  /** A dynamic lookup earns 5 for any non-empty answer. */
  lemma DynamicLookupScoresFive(q: Question, answer: Option<Value>)
    requires q.qtype == DynamicLookup && Present(answer)
    ensures QuestionScore(q, answer) == 5
  {
  }

  /** The transport question earns the number stored for it. */
  lemma ReadonlyScoresValue(q: Question, n: int)
    requires q.qtype == ReadonlyScore
    ensures QuestionScore(q, Some(Num(n))) == n
  {
  }

  /** The stored transport sub-score is not negative (or is not a number). */
  predicate TransportAnswerNonNegative(answer: Option<Value>) {
    answer.Some? && answer.value.Num? ==> answer.value.n >= 0
  }

  /** With options worth 0 to 5 points, a question earns 0 to 5 points; the
      transport question is bounded by its stored value instead. */
  lemma QuestionScoreRange(q: Question, answer: Option<Value>)
    requires PointsShape(q)
    requires q.qtype != ReadonlyScore
    ensures 0 <= QuestionScore(q, answer) <= 5
  {
    if q.qtype == Select && Present(answer) && answer.value.Str? {
      var r := FindChoice(q.options, answer.value.s);
      if r.Some? {
        assert r.value in q.options;
      }
    }
    if q.qtype == Checkbox && |q.options| > 0 {
      assert q.options[0] in q.options;
    }
  }

  // ---------------------------------------------------------------------------
  // Pillar scores

  /** The sum of the question scores of `qs`, each looked up under its id. */
  function RawScore(qs: seq<Question>, answers: map<string, Value>): int {
    if qs == [] then 0
    else RawScore(qs[..|qs| - 1], answers) + QuestionScore(qs[|qs| - 1], Get(answers, qs[|qs| - 1].id))
  }

  /** The raw sum of two question lists laid end to end is the sum of their
      raw sums. */
  lemma {:induction false} RawScoreConcat(xs: seq<Question>, ys: seq<Question>, answers: map<string, Value>)
    ensures RawScore(xs + ys, answers) == RawScore(xs, answers) + RawScore(ys, answers)
    decreases |ys|
  {
    if ys == [] {
      assert xs + ys == xs;
    } else {
      var ys0 := ys[..|ys| - 1];
      assert (xs + ys)[..|xs + ys| - 1] == xs + ys0;
      assert (xs + ys)[|xs + ys| - 1] == ys[|ys| - 1];
      RawScoreConcat(xs, ys0, answers);
    }
  }

  /** Swapping two blocks of questions leaves the raw sum unchanged. */
  lemma RawScoreSwap(xs: seq<Question>, ys: seq<Question>, answers: map<string, Value>)
    ensures RawScore(xs + ys, answers) == RawScore(ys + xs, answers)
  {
    RawScoreConcat(xs, ys, answers);
    RawScoreConcat(ys, xs, answers);
  }

  /** The raw sum does not depend on the order of the questions: any two
      lists holding the same questions have the same raw sum. */
  lemma {:induction false} RawScoreOrderFree(qs: seq<Question>, qs': seq<Question>, answers: map<string, Value>)
    requires multiset(qs) == multiset(qs')
    ensures RawScore(qs, answers) == RawScore(qs', answers)
    decreases |qs|
  {
    if qs != [] {
      var init, x := qs[..|qs| - 1], qs[|qs| - 1];
      assert qs == init + [x];
      assert x in multiset(qs');
      var k :| 0 <= k < |qs'| && qs'[k] == x;
      var a, b := qs'[..k], qs'[k + 1..];
      assert qs' == a + [x] + b;
      RemoveFromMultiset(init, x, a, b);
      RawScoreOrderFree(init, a + b, answers);
      RawScoreOfPick(a, x, b, answers);
    } else {
      assert |qs'| == |multiset(qs')| == 0;
    }
  }

  /** Taking the same element out of two lists with equal multisets leaves
      lists with equal multisets. */
  lemma RemoveFromMultiset<T>(init: seq<T>, x: T, a: seq<T>, b: seq<T>)
    requires multiset(init + [x]) == multiset(a + [x] + b)
    ensures multiset(init) == multiset(a + b)
  {
    assert multiset(init + [x]) == multiset(init) + multiset{x};
    assert multiset(a + [x] + b) == multiset(a + b) + multiset{x} by {
      assert multiset(a + [x] + b) == multiset(a) + multiset{x} + multiset(b);
    }
    forall y ensures multiset(init)[y] == multiset(a + b)[y] {
      assert (multiset(init) + multiset{x})[y] == (multiset(a + b) + multiset{x})[y];
    }
  }

  /** The raw sum of a list with one question picked out of its middle. */
  lemma RawScoreOfPick(a: seq<Question>, x: Question, b: seq<Question>, answers: map<string, Value>)
    ensures RawScore(a + [x] + b, answers) == RawScore(a + b, answers) + QuestionScore(x, Get(answers, x.id))
  {
    RawScoreConcat(a, b, answers);
    RawScoreConcat(a + [x], b, answers);
    RawScoreConcat(a, [x], answers);
    assert RawScore([x], answers) == QuestionScore(x, Get(answers, x.id)) by {
      assert [x][..0] == [];
    }
  }

  /** A pillar's score: its raw sum, capped at its maximum. */
  function PillarScore(p: Pillar, answers: map<string, Value>): int {
    Min(RawScore(p.questions, answers), p.maxScore)
  }

  /** The cap is the least of the raw sum and the maximum. */
  lemma PillarScoreCapped(p: Pillar, answers: map<string, Value>)
    ensures PillarScore(p, answers) <= p.maxScore
    ensures PillarScore(p, answers) <= RawScore(p.questions, answers)
    ensures RawScore(p.questions, answers) <= p.maxScore ==> PillarScore(p, answers) == RawScore(p.questions, answers)
    ensures RawScore(p.questions, answers) >= p.maxScore ==> PillarScore(p, answers) == p.maxScore
  {
  }

  /** The live scorecard: one score per pillar and their total. */
  datatype Scores = Scores(pillar1: int, pillar2: int, pillar3: int, pillar4: int, total: int)

  const ZERO_SCORES := Scores(0, 0, 0, 0, 0)

  /** `newScores[id] = v` for the four pillar keys. Any other pillar id is
      ignored here, whereas JavaScript would add a fifth key that the total's
      `Object.values` sum then counts; so RecomputeScores and LiveScores agree
      with the source only for configurations whose pillar ids are
      `pillar_1` to `pillar_4`, as the questionnaire's are. */
  function SetPillar(s: Scores, id: string, v: int): Scores {
    if id == "pillar_1" then s.(pillar1 := v)
    else if id == "pillar_2" then s.(pillar2 := v)
    else if id == "pillar_3" then s.(pillar3 := v)
    else if id == "pillar_4" then s.(pillar4 := v)
    else s
  }

  /** The scorecard once each pillar of `cfg` has written its score, in order. */
  function PillarScores(cfg: seq<Pillar>, answers: map<string, Value>): Scores {
    if cfg == [] then ZERO_SCORES
    else SetPillar(PillarScores(cfg[..|cfg| - 1], answers), cfg[|cfg| - 1].id,
                   PillarScore(cfg[|cfg| - 1], answers))
  }

  /** `Object.values(s).reduce((a, b) => a + b, 0)`, in key order. */
  function ValuesSum(s: Scores): int {
    s.pillar1 + s.pillar2 + s.pillar3 + s.pillar4 + s.total
  }

  /** The scorecard the recompute effect stores: pillar scores, then the sum of
      all values minus the placeholder total. */
  function LiveScores(cfg: seq<Pillar>, answers: map<string, Value>): Scores {
    var s := PillarScores(cfg, answers);
    s.(total := ValuesSum(s) - s.total)
  }

  /** The recompute effect: a pass over the pillars, and within each over its
      questions, summing, capping, and finally totalling. */
  method RecomputeScores(cfg: seq<Pillar>, answers: map<string, Value>) returns (s: Scores)
    ensures s == LiveScores(cfg, answers)
  {
    var newScores := ZERO_SCORES;
    for i := 0 to |cfg|
      invariant newScores == PillarScores(cfg[..i], answers)
    {
      var pillar := cfg[i];
      var pillarScore := 0;
      for j := 0 to |pillar.questions|
        invariant pillarScore == RawScore(pillar.questions[..j], answers)
      {
        var q := pillar.questions[j];
        var answer := Get(answers, q.id);
        PrefixStep(pillar.questions, j);
        pillarScore := pillarScore + QuestionScore(q, answer);
      }
      assert pillar.questions[..|pillar.questions|] == pillar.questions;
      PrefixStep(cfg, i);
      newScores := SetPillar(newScores, pillar.id, Min(pillarScore, pillar.maxScore));
    }
    assert cfg[..|cfg|] == cfg;
    s := newScores.(total := ValuesSum(newScores) - newScores.total);
  }

  /** For the configuration, pillar k's score lands in the k-th field and the
      total is the sum of the four pillar scores: the placeholder total is 0
      when it is subtracted. */
  lemma {:induction false} ConfigScores(answers: map<string, Value>)
    ensures LiveScores(SCORING_CONFIG, answers) ==
            Scores(PillarScore(PILLAR_1, answers), PillarScore(PILLAR_2, answers),
                   PillarScore(PILLAR_3, answers), PillarScore(PILLAR_4, answers),
                   PillarScore(PILLAR_1, answers) + PillarScore(PILLAR_2, answers)
                   + PillarScore(PILLAR_3, answers) + PillarScore(PILLAR_4, answers))
  {
    var cfg := SCORING_CONFIG;
    PrefixStep(cfg, 0);
    PrefixStep(cfg, 1);
    PrefixStep(cfg, 2);
    PrefixStep(cfg, 3);
    assert PillarScores(cfg[..1], answers) == ZERO_SCORES.(pillar1 := PillarScore(PILLAR_1, answers));
    assert PillarScores(cfg[..2], answers) == PillarScores(cfg[..1], answers).(pillar2 := PillarScore(PILLAR_2, answers));
    assert PillarScores(cfg[..3], answers) == PillarScores(cfg[..2], answers).(pillar3 := PillarScore(PILLAR_3, answers));
    assert cfg[..4] == cfg;
  }

  // ---------------------------------------------------------------------------
  // Bounds of the scorecard

  /** Every question of `qs` has options worth 0 to 5, and the transport
      question's stored value is not a negative number. */
  predicate ScorableQuestions(qs: seq<Question>, answers: map<string, Value>) {
    forall q :: q in qs ==> PointsShape(q) && (q.qtype == ReadonlyScore ==> TransportAnswerNonNegative(Get(answers, q.id)))
  }

  lemma {:induction false} RawScoreNonNegative(qs: seq<Question>, answers: map<string, Value>)
    requires ScorableQuestions(qs, answers)
    ensures RawScore(qs, answers) >= 0
  {
    if qs != [] {
      var q := qs[|qs| - 1];
      assert q in qs;
      assert forall x :: x in qs[..|qs| - 1] ==> x in qs;
      RawScoreNonNegative(qs[..|qs| - 1], answers);
      if q.qtype != ReadonlyScore {
        QuestionScoreRange(q, Get(answers, q.id));
      }
    }
  }

  /** A sum of scores of questions none of which has a non-empty answer is 0. */
  lemma {:induction false} RawScoreOfBlankAnswers(qs: seq<Question>, answers: map<string, Value>)
    requires forall q :: q in qs ==> !Present(Get(answers, q.id))
    ensures RawScore(qs, answers) == 0
  {
    if qs != [] {
      assert qs[|qs| - 1] in qs;
      assert forall x :: x in qs[..|qs| - 1] ==> x in qs;
      RawScoreOfBlankAnswers(qs[..|qs| - 1], answers);
    }
  }

  /** The configuration's pillars are each capped at 25, so the total is at
      most 100. */
  lemma ScoresAtMost(answers: map<string, Value>)
    ensures LiveScores(SCORING_CONFIG, answers).pillar1 <= 25
    ensures LiveScores(SCORING_CONFIG, answers).pillar2 <= 25
    ensures LiveScores(SCORING_CONFIG, answers).pillar3 <= 25
    ensures LiveScores(SCORING_CONFIG, answers).pillar4 <= 25
    ensures LiveScores(SCORING_CONFIG, answers).total <= 100
  {
    ConfigScores(answers);
  }

  /** With a non-negative transport sub-score stored, no pillar score and no
      total is negative. */
  lemma ScoresAtLeastZero(answers: map<string, Value>)
    requires TransportAnswerNonNegative(Get(answers, CO2_QUESTION_ID))
    ensures LiveScores(SCORING_CONFIG, answers).pillar1 >= 0
    ensures LiveScores(SCORING_CONFIG, answers).pillar2 >= 0
    ensures LiveScores(SCORING_CONFIG, answers).pillar3 >= 0
    ensures LiveScores(SCORING_CONFIG, answers).pillar4 >= 0
    ensures LiveScores(SCORING_CONFIG, answers).total >= 0
  {
    ConfigScores(answers);
    ShapePillar1();
    ShapePillar2();
    ShapePillar3();
    ShapePillar4();
    ReadonlyOnlyTransport();
    RawScoreNonNegative(PILLAR_1.questions, answers);
    RawScoreNonNegative(PILLAR_2.questions, answers);
    RawScoreNonNegative(PILLAR_3.questions, answers);
    RawScoreNonNegative(PILLAR_4.questions, answers);
  }

  /** Within each pillar, only the transport question is read-only. */
  lemma ReadonlyOnlyTransport()
    ensures forall q :: q in PILLAR_1.questions ==> q.qtype != ReadonlyScore
    ensures forall q :: q in PILLAR_2.questions ==> q.qtype != ReadonlyScore
    ensures forall q :: q in PILLAR_3.questions ==> q.qtype != ReadonlyScore
    ensures forall q :: q in PILLAR_4.questions && q.qtype == ReadonlyScore ==> q.id == CO2_QUESTION_ID
  {
    KindsPillar1();
    KindsPillar2();
    KindsPillar3();
    KindsPillar4();
  }

  /** An empty form, and the wizard's initial form whose fields are all empty
      strings, score 0 everywhere. */
  lemma BlankFormScoresZero(answers: map<string, Value>)
    requires forall k :: k in answers ==> !Truthy(answers[k])
    ensures LiveScores(SCORING_CONFIG, answers) == ZERO_SCORES
  {
    ConfigScores(answers);
    RawScoreOfBlankAnswers(PILLAR_1.questions, answers);
    RawScoreOfBlankAnswers(PILLAR_2.questions, answers);
    RawScoreOfBlankAnswers(PILLAR_3.questions, answers);
    RawScoreOfBlankAnswers(PILLAR_4.questions, answers);
  }

  // ---------------------------------------------------------------------------
  // Keys outside the questionnaire

  lemma {:induction false} RawScoreIgnoresKey(qs: seq<Question>, answers: map<string, Value>, k: string, v: Value)
    requires forall q :: q in qs ==> q.id != k
    ensures RawScore(qs, answers[k := v]) == RawScore(qs, answers)
  {
    if qs != [] {
      assert qs[|qs| - 1] in qs;
      assert forall x :: x in qs[..|qs| - 1] ==> x in qs;
      RawScoreIgnoresKey(qs[..|qs| - 1], answers, k, v);
    }
  }

  lemma PillarIgnoresKey(p: Pillar, answers: map<string, Value>, k: string, v: Value)
    requires k !in Ids(p.questions)
    ensures PillarScore(p, answers[k := v]) == PillarScore(p, answers)
  {
    IdsMembers(p.questions);
    RawScoreIgnoresKey(p.questions, answers, k, v);
  }

  lemma {:induction false} PillarScoresIgnoreKey(cfg: seq<Pillar>, answers: map<string, Value>, k: string, v: Value)
    requires forall p :: p in cfg ==> k !in Ids(p.questions)
    ensures PillarScores(cfg, answers[k := v]) == PillarScores(cfg, answers)
  {
    if cfg != [] {
      assert cfg[|cfg| - 1] in cfg;
      assert forall x :: x in cfg[..|cfg| - 1] ==> x in cfg;
      PillarScoresIgnoreKey(cfg[..|cfg| - 1], answers, k, v);
      PillarIgnoresKey(cfg[|cfg| - 1], answers, k, v);
    }
  }

  /** A key missing from the list of all question ids is missing from each
      pillar's ids. */
  lemma KeyOutsidePillar1(k: string)
    requires k !in CONFIG_IDS
    ensures k !in Ids(PILLAR_1.questions)
  {
    PillarIds1();
    NotInSlice(CONFIG_IDS, 0, 5, k);
  }

  lemma KeyOutsidePillar2(k: string)
    requires k !in CONFIG_IDS
    ensures k !in Ids(PILLAR_2.questions)
  {
    PillarIds2();
    NotInSlice(CONFIG_IDS, 5, 10, k);
  }

  lemma KeyOutsidePillar3(k: string)
    requires k !in CONFIG_IDS
    ensures k !in Ids(PILLAR_3.questions)
  {
    PillarIds3();
    NotInSlice(CONFIG_IDS, 10, 14, k);
  }

  lemma KeyOutsidePillar4(k: string)
    requires k !in CONFIG_IDS
    ensures k !in Ids(PILLAR_4.questions)
  {
    PillarIds4();
    NotInSlice(CONFIG_IDS, 14, |CONFIG_IDS|, k);
    assert CONFIG_IDS[14..] == CONFIG_IDS[14..|CONFIG_IDS|];
  }

  lemma KeyOutsideConfig(k: string)
    requires k !in CONFIG_IDS
    ensures forall p :: p in SCORING_CONFIG ==> k !in Ids(p.questions)
  {
    KeyOutsidePillar1(k);
    KeyOutsidePillar2(k);
    KeyOutsidePillar3(k);
    KeyOutsidePillar4(k);
    InFour(SCORING_CONFIG, PILLAR_1, PILLAR_2, PILLAR_3, PILLAR_4);
  }

  lemma InFour<T>(s: seq<T>, a: T, b: T, c: T, d: T)
    requires s == [a, b, c, d]
    ensures forall x :: x in s ==> x == a || x == b || x == c || x == d
  {
  }

  lemma NotInSlice<T>(s: seq<T>, a: nat, b: nat, k: T)
    requires a <= b <= |s| && k !in s
    ensures k !in s[a..b]
  {
  }

  /** Storing a value under a key that is no question id (the order, mill,
      collection or item fields) leaves the scorecard as it was. */
  lemma ScoresIgnoreOtherKeys(answers: map<string, Value>, k: string, v: Value)
    requires k !in CONFIG_IDS
    ensures LiveScores(SCORING_CONFIG, answers[k := v]) == LiveScores(SCORING_CONFIG, answers)
  {
    KeyOutsideConfig(k);
    LiveScoresIgnoreKey(SCORING_CONFIG, answers, k, v);
  }

  lemma LiveScoresIgnoreKey(cfg: seq<Pillar>, answers: map<string, Value>, k: string, v: Value)
    requires forall p :: p in cfg ==> k !in Ids(p.questions)
    ensures LiveScores(cfg, answers[k := v]) == LiveScores(cfg, answers)
  {
    PillarScoresIgnoreKey(cfg, answers, k, v);
  }

  lemma IdsMembers(qs: seq<Question>)
    ensures forall q :: q in qs ==> q.id in Ids(qs)
  {
    forall q | q in qs ensures q.id in Ids(qs) {
      var i :| 0 <= i < |qs| && qs[i] == q;
      assert Ids(qs)[i] == q.id;
    }
  }

  // ---------------------------------------------------------------------------
  // Maximum obtainable points

  /** The option worth the most points (the first such). */
  function BestChoice(options: seq<Choice>): (r: Choice)
    requires options != []
    ensures r in options
    ensures forall i :: 0 <= i < |options| ==> options[i].points <= r.points
  {
    if |options| == 1 then options[0]
    else
      var rest := BestChoice(options[1..]);
      assert forall i :: 1 <= i < |options| ==> options[i] == options[1..][i - 1];
      if options[0].points >= rest.points then options[0] else rest
  }

  /** The most points a question can earn; `transport` is the stored transport
      sub-score. */
  function Attainable(q: Question, transport: int): int {
    match q.qtype
    case ReadonlyScore => transport
    case Checkbox => if |q.options| > 0 then q.options[0].points else 0
    case Select => if q.options == [] then 0 else BestChoice(q.options).points
    case DynamicLookup => 5
    case OtherType(_) => 0
  }

  /** An answer that earns a question's most points. */
  function BestAnswer(q: Question, transport: int): Value {
    match q.qtype
    case ReadonlyScore => Num(transport)
    case Checkbox => Str("yes")
    case Select => if q.options == [] then Str("") else Str(BestChoice(q.options).value)
    case DynamicLookup => Str("yes")
    case OtherType(_) => Str("")
  }

  /** No answer earns a question more than its attainable points (the
      transport question's answer being bounded by `transport`)... */
  lemma QuestionScoreAtMost(q: Question, answer: Option<Value>, transport: int)
    requires PointsShape(q)
    requires q.qtype == ReadonlyScore ==> QuestionScore(q, answer) <= transport
    ensures QuestionScore(q, answer) <= Attainable(q, transport)
  {
    if q.qtype == Select && Present(answer) && answer.value.Str? {
      var r := FindChoice(q.options, answer.value.s);
      if r.Some? {
        var k :| 0 <= k < |q.options| && q.options[k] == r.value;
      }
    }
  }

  /** ...and the best answer earns exactly that, when option values are
      distinct and non-empty. */
  lemma BestAnswerAttains(q: Question, transport: int)
    requires SelectShape(q) && ValuesShape(q)
    ensures QuestionScore(q, Some(BestAnswer(q, transport))) == Attainable(q, transport)
  {
    if q.qtype == Select && q.options != [] {
      var b := BestChoice(q.options);
      var m :| 0 <= m < |q.options| && q.options[m] == b;
      FindChoiceUnique(q.options, b);
    }
  }

  /** The attainable points of a list of questions. */
  function RawMax(qs: seq<Question>, transport: int): int {
    if qs == [] then 0
    else RawMax(qs[..|qs| - 1], transport) + Attainable(qs[|qs| - 1], transport)
  }

  /** The transport sub-score as the scorer reads it from the answers. */
  function TransportPoints(answers: map<string, Value>): int {
    QuestionScore(PILLAR_4.questions[1], Get(answers, CO2_QUESTION_ID))
  }

  lemma {:induction false} RawScoreAtMost(qs: seq<Question>, answers: map<string, Value>, transport: int)
    requires forall q :: q in qs ==> PointsShape(q)
    requires forall q :: q in qs && q.qtype == ReadonlyScore ==> QuestionScore(q, Get(answers, q.id)) <= transport
    ensures RawScore(qs, answers) <= RawMax(qs, transport)
  {
    if qs != [] {
      var q := qs[|qs| - 1];
      assert q in qs;
      assert forall x :: x in qs[..|qs| - 1] ==> x in qs;
      RawScoreAtMost(qs[..|qs| - 1], answers, transport);
      QuestionScoreAtMost(q, Get(answers, q.id), transport);
    }
  }

  /** Answers that give each question of `qs` its best answer earn the
      attainable sum, whatever else they hold. */
  lemma {:induction false} RawScoreOfBest(qs: seq<Question>, answers: map<string, Value>, transport: int)
    requires forall q :: q in qs ==> SelectShape(q) && ValuesShape(q)
    requires forall q :: q in qs ==> Get(answers, q.id) == Some(BestAnswer(q, transport))
    ensures RawScore(qs, answers) == RawMax(qs, transport)
  {
    if qs != [] {
      var q := qs[|qs| - 1];
      assert q in qs;
      assert forall x :: x in qs[..|qs| - 1] ==> x in qs;
      RawScoreOfBest(qs[..|qs| - 1], answers, transport);
      BestAnswerAttains(q, transport);
    }
  }

  /** The answers that give every question of `qs` its best answer. */
  function BestAnswers(qs: seq<Question>, transport: int): map<string, Value> {
    if qs == [] then map[]
    else BestAnswers(qs[..|qs| - 1], transport)[qs[|qs| - 1].id := BestAnswer(qs[|qs| - 1], transport)]
  }

  /** With distinct ids, each question finds its best answer in BestAnswers. */
  lemma {:induction false} BestAnswersAt(qs: seq<Question>, transport: int, k: nat)
    requires NoDuplicates(Ids(qs))
    requires k < |qs|
    ensures Get(BestAnswers(qs, transport), qs[k].id) == Some(BestAnswer(qs[k], transport))
  {
    var n := |qs| - 1;
    if k < n {
      assert Ids(qs[..n]) == Ids(qs)[..n];
      assert Ids(qs)[k] != Ids(qs)[n];
      BestAnswersAt(qs[..n], transport, k);
    }
  }

  /** A pillar whose questions all belong to `all` earns its raw maximum from
      the best answers to `all`. */
  lemma PillarOfBest(p: Pillar, all: seq<Question>, transport: int)
    requires NoDuplicates(Ids(all))
    requires forall q :: q in p.questions ==> q in all && SelectShape(q) && ValuesShape(q)
    ensures RawScore(p.questions, BestAnswers(all, transport)) == RawMax(p.questions, transport)
  {
    forall q | q in p.questions
      ensures Get(BestAnswers(all, transport), q.id) == Some(BestAnswer(q, transport))
    {
      var k :| 0 <= k < |all| && all[k] == q;
      BestAnswersAt(all, transport, k);
    }
    RawScoreOfBest(p.questions, BestAnswers(all, transport), transport);
  }

  /** Raw maxima of the configuration's pillars: 21, 25 and 20 points, and 20
      plus the transport sub-score. */
  lemma MaxPillar1(transport: int)
    ensures RawMax(PILLAR_1.questions, transport) == 21
  {
    var qs := PILLAR_1.questions;
    RawMaxSteps(qs, transport);
    SelectMax3(qs[2].options);
    SelectMax3(qs[4].options);
  }

  lemma MaxPillar2(transport: int)
    ensures RawMax(PILLAR_2.questions, transport) == 25
  {
    RawMaxSteps(PILLAR_2.questions, transport);
  }

  lemma MaxPillar3(transport: int)
    ensures RawMax(PILLAR_3.questions, transport) == 20
  {
    var qs := PILLAR_3.questions;
    RawMaxSteps(qs, transport);
    SelectMax3(qs[0].options);
    SelectMax4(qs[1].options);
    SelectMax2(qs[3].options);
  }

  lemma MaxPillar4(transport: int)
    ensures RawMax(PILLAR_4.questions, transport) == 20 + transport
  {
    var qs := PILLAR_4.questions;
    RawMaxSteps(qs, transport);
    SelectMax3(qs[0].options);
    SelectMax2(qs[3].options);
  }

  /** RawMax of four or five questions, written out. */
  lemma RawMaxSteps(qs: seq<Question>, t: int)
    requires 4 <= |qs| <= 5
    ensures |qs| == 4 ==> RawMax(qs, t) == Attainable(qs[0], t) + Attainable(qs[1], t)
                                          + Attainable(qs[2], t) + Attainable(qs[3], t)
    ensures |qs| == 5 ==> RawMax(qs, t) == Attainable(qs[0], t) + Attainable(qs[1], t)
                                          + Attainable(qs[2], t) + Attainable(qs[3], t) + Attainable(qs[4], t)
  {
    PrefixStep(qs, 0);
    PrefixStep(qs, 1);
    PrefixStep(qs, 2);
    PrefixStep(qs, 3);
    assert qs[..1][..0] == [];
    assert RawMax(qs[..1], t) == Attainable(qs[0], t);
    assert RawMax(qs[..2], t) == RawMax(qs[..1], t) + Attainable(qs[1], t);
    assert RawMax(qs[..3], t) == RawMax(qs[..2], t) + Attainable(qs[2], t);
    assert RawMax(qs[..4], t) == RawMax(qs[..3], t) + Attainable(qs[3], t);
    if |qs| == 5 {
      PrefixStep(qs, 4);
      assert qs[..5] == qs;
    } else {
      assert qs[..4] == qs;
    }
  }

  /** The best of two, three or four options is the first worth the most. */
  lemma SelectMax2(o: seq<Choice>)
    requires |o| == 2
    ensures BestChoice(o).points == if o[0].points >= o[1].points then o[0].points else o[1].points
  {
    assert o[1..][1..] == [];
    assert BestChoice(o[1..]) == o[1];
  }

  lemma SelectMax3(o: seq<Choice>)
    requires |o| == 3
    ensures BestChoice(o).points >= o[0].points && BestChoice(o).points >= o[1].points
    ensures BestChoice(o).points >= o[2].points
    ensures BestChoice(o) == o[0] || BestChoice(o) == o[1] || BestChoice(o) == o[2]
  {
  }

  lemma SelectMax4(o: seq<Choice>)
    requires |o| == 4
    ensures forall i :: 0 <= i < 4 ==> BestChoice(o).points >= o[i].points
    ensures BestChoice(o) == o[0] || BestChoice(o) == o[1] || BestChoice(o) == o[2] || BestChoice(o) == o[3]
  {
  }

  /** While the transport sub-score is at most 5, no pillar's raw maximum
      exceeds its cap of 25. */
  lemma CapNeverBites(transport: int)
    requires transport <= 5
    ensures forall p :: p in SCORING_CONFIG ==> RawMax(p.questions, transport) <= p.maxScore
  {
    MaxPillar1(transport);
    MaxPillar2(transport);
    MaxPillar3(transport);
    MaxPillar4(transport);
    InFour(SCORING_CONFIG, PILLAR_1, PILLAR_2, PILLAR_3, PILLAR_4);
  }

  /** The scorecard never exceeds the raw maxima: 21, 25, 20, and 20 plus the
      stored transport sub-score for pillar 4; with that sub-score at most 5
      the total is at most 91. */
  lemma ScoresAtMostMaxima(answers: map<string, Value>)
    ensures LiveScores(SCORING_CONFIG, answers).pillar1 <= 21
    ensures LiveScores(SCORING_CONFIG, answers).pillar2 <= 25
    ensures LiveScores(SCORING_CONFIG, answers).pillar3 <= 20
    ensures LiveScores(SCORING_CONFIG, answers).pillar4 <= 20 + TransportPoints(answers)
    ensures TransportPoints(answers) <= 5 ==> LiveScores(SCORING_CONFIG, answers).total <= 91
  {
    var t := TransportPoints(answers);
    ConfigScores(answers);
    ShapePillar1();
    ShapePillar2();
    ShapePillar3();
    ShapePillar4();
    ReadonlyOnlyTransport();
    RawScoreAtMost(PILLAR_1.questions, answers, t);
    RawScoreAtMost(PILLAR_2.questions, answers, t);
    RawScoreAtMost(PILLAR_3.questions, answers, t);
    RawScoreAtMost(PILLAR_4.questions, answers, t);
    MaxPillar1(t);
    MaxPillar2(t);
    MaxPillar3(t);
    MaxPillar4(t);
  }

  /** The best answer to every question, with the best transport sub-score of
      5, earns 21, 25, 20 and 25 points: 91 in all, not 100. */
  lemma FullMarks()
    ensures LiveScores(SCORING_CONFIG, BestAnswers(AllQuestions(SCORING_CONFIG), 5))
            == Scores(21, 25, 20, 25, 91)
  {
    var all := AllQuestions(SCORING_CONFIG);
    var best := BestAnswers(all, 5);
    AllConfigQuestions();
    DistinctQuestionIds();
    ShapePillar1();
    ShapePillar2();
    ShapePillar3();
    ShapePillar4();
    PillarOfBest(PILLAR_1, all, 5);
    PillarOfBest(PILLAR_2, all, 5);
    PillarOfBest(PILLAR_3, all, 5);
    PillarOfBest(PILLAR_4, all, 5);
    MaxPillar1(5);
    MaxPillar2(5);
    MaxPillar3(5);
    MaxPillar4(5);
    ConfigScores(best);
  }

  // ---------------------------------------------------------------------------
  // Origin by material

  const KNOWN_MATERIALS := ["Wool", "Silk", "Linen", "Cotton", "Cashmere", "Mohair", "Vicuna"]
  const UNKNOWN_ORIGIN := Location(41.9028, 12.4964, "Unknown Origin", "Unknown")

  /** `getPrimaryLocation`: the origin of a single material, matched exactly
      (letter case included); any other material has the unknown origin. */
  function PrimaryLocation(material: string): (r: Location)
    ensures r == UNKNOWN_ORIGIN <==> material !in KNOWN_MATERIALS
    ensures r.name == "Unknown Origin" <==> material !in KNOWN_MATERIALS
  {
    if material == "Wool" then Location(-33.8688, 151.2093, "New South Wales, Australia", "Australia")
    else if material == "Silk" then Location(30.2672, 120.1532, "Hangzhou, China", "China")
    else if material == "Linen" then Location(49.6116, 0.7234, "Normandy, France", "France")
    else if material == "Cotton" then Location(33.5731, -101.8552, "Texas, USA", "USA")
    else if material == "Cashmere" then Location(43.8256, 87.6168, "Xinjiang, China", "China")
    else if material == "Mohair" then Location(-33.9249, 18.4241, "Western Cape, South Africa", "South Africa")
    else if material == "Vicuna" then Location(-12.0464, -77.0428, "Andes, Peru", "Peru")
    else UNKNOWN_ORIGIN
  }

  /** The table is case-sensitive, and the wizard's own "Blend" choice has no
      entry; it also disagrees with the route builder's defaults, which put
      silk in Italy. */
  lemma PrimaryLocationExamples()
    ensures PrimaryLocation("wool") == UNKNOWN_ORIGIN
    ensures PrimaryLocation("Blend") == UNKNOWN_ORIGIN
    ensures PrimaryLocation("Silk").country == "China" && SILK_IT.country == "Italy"
  {
  }

  // ---------------------------------------------------------------------------
  // The wizard's route summary

  /** The origin as listed in the summary, tagged with its material. */
  datatype TaggedOrigin = TaggedOrigin(origin: Location, material: string)

  datatype WizardLocations = WizardLocations(primary: seq<TaggedOrigin>, mill: Location,
                                             production: Location, warehouse: Location)

  datatype WizardEmissions = WizardEmissions(locations: WizardLocations, legs: seq<Leg>,
                                             totalDistance: int, emissionsKg: real)

  /** A leg with a fixed mode: its emissions are the unrounded distance times
      the mode's factor. */
  function FixedModeLeg(title: string, from: Location, to: Location, mode: Mode, d: real): Leg {
    Leg(title, from.name, to.name, MathRound(d), mode, d * EmissionFactor(d, ModeName(mode)))
  }

  /** The summary `calculateEmissions` stores: origin to mill by sea, mill to
      production by road, production to warehouse by air, whatever the
      countries; the total distance is the rounded sum of the unrounded leg
      distances, the emissions the sum of the legs' emissions. */
  function WizardRoute(material: string, mill: Location, production: Location, warehouse: Location,
                       dist: DistanceFn): WizardEmissions
  {
    var origin := PrimaryLocation(material);
    var d1, d2, d3 := dist(origin, mill), dist(mill, production), dist(production, warehouse);
    var legs := [FixedModeLeg(LABEL_TO_MILL, origin, mill, Sea, d1),
                 FixedModeLeg(LABEL_TO_CONSTRUCTION, mill, production, Road, d2),
                 FixedModeLeg(LABEL_TO_CLIENT, production, warehouse, Air, d3)];
    WizardEmissions(WizardLocations([TaggedOrigin(origin, material)], mill, production, warehouse),
                    legs, MathRound(d1 + d2 + d3), legs[0].emissions + legs[1].emissions + legs[2].emissions)
  }

  /** The leg assembly of `calculateEmissions`: three pushes, each adding the
      leg's distance and emissions to the running totals. */
  method BuildEmissions(material: string, mill: Location, production: Location, warehouse: Location,
                        dist: DistanceFn) returns (e: WizardEmissions)
    ensures e == WizardRoute(material, mill, production, warehouse, dist)
  {
    var legs: seq<Leg> := [];
    var totalDistance := 0.0;
    var totalEmissions := 0.0;

    var origin := PrimaryLocation(material);
    var dist1 := dist(origin, mill);
    var emis1 := dist1 * EmissionFactor(dist1, "Sea");
    legs := legs + [Leg(LABEL_TO_MILL, origin.name, mill.name, MathRound(dist1), Sea, emis1)];
    totalDistance := totalDistance + dist1;
    totalEmissions := totalEmissions + emis1;

    var dist2 := dist(mill, production);
    var emis2 := dist2 * EmissionFactor(dist2, "Road");
    legs := legs + [Leg(LABEL_TO_CONSTRUCTION, mill.name, production.name, MathRound(dist2), Road, emis2)];
    totalDistance := totalDistance + dist2;
    totalEmissions := totalEmissions + emis2;

    var dist3 := dist(production, warehouse);
    var emis3 := dist3 * EmissionFactor(dist3, "Air");
    legs := legs + [Leg(LABEL_TO_CLIENT, production.name, warehouse.name, MathRound(dist3), Air, emis3)];
    totalDistance := totalDistance + dist3;
    totalEmissions := totalEmissions + emis3;

    e := WizardEmissions(WizardLocations([TaggedOrigin(origin, material)], mill, production, warehouse),
                         legs, MathRound(totalDistance), totalEmissions);
  }

  /** The wizard's route: three legs by sea, road and air in that order,
      chained end to end from the material's origin to the warehouse, each
      emitting 0.000075, 0.00015 and 0.0009 kg CO2e per km respectively, and
      nothing negative. */
  lemma WizardRouteShape(material: string, mill: Location, production: Location, warehouse: Location,
                         dist: DistanceFn)
    ensures var e := WizardRoute(material, mill, production, warehouse, dist);
      && |e.legs| == 3
      && e.legs[0].mode == Sea && e.legs[1].mode == Road && e.legs[2].mode == Air
      && e.legs[0].from == PrimaryLocation(material).name && e.legs[2].to == warehouse.name
      && e.legs[0].to == e.legs[1].from && e.legs[1].to == e.legs[2].from
      && e.legs[0].emissions == dist(PrimaryLocation(material), mill) * 0.000075
      && e.legs[1].emissions == dist(mill, production) * 0.00015
      && e.legs[2].emissions == dist(production, warehouse) * 0.0009
      && e.emissionsKg >= 0.0 && e.totalDistance >= 0
      && e.locations.primary == [TaggedOrigin(PrimaryLocation(material), material)]
  {
    var origin := PrimaryLocation(material);
    ModeFactors(dist(origin, mill));
    ModeFactors(dist(mill, production));
    ModeFactors(dist(production, warehouse));
  }

  /** Where the two route policies part: a domestic last leg goes by road in
      the route builder but by air in the wizard, and the route builder never
      ships by sea while the wizard's first leg always does. */
  lemma ModePoliciesDiffer(material: string, l: RouteLocations, dist: DistanceFn)
    requires !IsInternational(l.production, l.warehouse)
    ensures RouteLegs(Plan(l), dist)[2].mode == Road
    ensures WizardRoute(material, l.mill, l.production, l.warehouse, dist).legs[2].mode == Air
    ensures RouteLegs(Plan(l), dist)[0].mode != Sea
    ensures WizardRoute(material, l.mill, l.production, l.warehouse, dist).legs[0].mode == Sea
  {
    RouteLegsChain(l, dist);
  }

  /** The summary the wizard holds for its material and chosen locations: none
      while the mill, production site or warehouse is missing. */
  function EmissionsFor(material: string, custom: CustomLocations, dist: DistanceFn): (r: Option<WizardEmissions>)
    ensures r.None? <==> custom.mill.None? || custom.production.None? || custom.warehouse.None?
  {
    if custom.mill.None? || custom.production.None? || custom.warehouse.None? then None
    else Some(WizardRoute(material, custom.mill.value, custom.production.value, custom.warehouse.value, dist))
  }

  /** A custom origin has no effect on the wizard's summary. */
  lemma EmissionsIgnoreCustomPrimary(material: string, custom: CustomLocations, p: Option<Location>, dist: DistanceFn)
    ensures EmissionsFor(material, custom.(primary := p), dist) == EmissionsFor(material, custom, dist)
  {
  }

  /** The transport sub-score of a rounded total distance: 5 below 15000 km, 2
      below 20000 km, 0 from there on. */
  function TransportScore(totalDistance: int): (r: int)
    ensures r == 5 <==> totalDistance < 15000
    ensures r == 2 <==> 15000 <= totalDistance < 20000
    ensures r == 0 <==> totalDistance >= 20000
  {
    if totalDistance < 15000 then 5 else if totalDistance < 20000 then 2 else 0
  }

  /** A longer route never scores more, and the thresholds themselves fall in
      the lower band; because the distance is rounded first, 14999.5 km
      already scores 2. */
  lemma TransportScoreBands(d1: int, d2: int)
    requires d1 <= d2
    ensures TransportScore(d1) >= TransportScore(d2)
    ensures TransportScore(14999) == 5 && TransportScore(15000) == 2
    ensures TransportScore(19999) == 2 && TransportScore(20000) == 0
    ensures TransportScore(MathRound(14999.5)) == 2
  {
  }

  /** The answers after a summary is stored: its transport sub-score as a number. */
  function WithTransport(form: map<string, Value>, e: Option<WizardEmissions>): map<string, Value> {
    if e.Some? then form[CO2_QUESTION_ID := Num(TransportScore(e.value.totalDistance))] else form
  }

  /** The stored sub-score is what pillar 4's transport question earns, and it
      lies between 0 and 5. */
  lemma TransportScoreStored(form: map<string, Value>, e: WizardEmissions)
    ensures TransportPoints(WithTransport(form, Some(e))) == TransportScore(e.totalDistance)
    ensures 0 <= TransportPoints(WithTransport(form, Some(e))) <= 5
    ensures TransportAnswerNonNegative(Get(WithTransport(form, Some(e)), CO2_QUESTION_ID))
  {
  }

  // ---------------------------------------------------------------------------
  // Select option lists

  datatype SelectOption = SelectOption(caption: string, value: string)

  /** The options for the suppliers of one kind, in supplier order. */
  function SupplierOptions(suppliers: seq<Supplier>, kind: string): (r: seq<SelectOption>)
    ensures |r| <= |suppliers|
  {
    if suppliers == [] then []
    else (if suppliers[0].kind == kind then [SelectOption(suppliers[0].name, suppliers[0].id)] else [])
         + SupplierOptions(suppliers[1..], kind)
  }

  /** An option lists a supplier exactly when that supplier is of the kind. */
  lemma {:induction false} SupplierOptionsMembers(suppliers: seq<Supplier>, kind: string, o: SelectOption)
    ensures o in SupplierOptions(suppliers, kind) <==>
            exists s :: s in suppliers && s.kind == kind && o == SelectOption(s.name, s.id)
  {
    if suppliers != [] {
      SupplierOptionsMembers(suppliers[1..], kind, o);
      if o in SupplierOptions(suppliers[1..], kind) {
        var s :| s in suppliers[1..] && s.kind == kind && o == SelectOption(s.name, s.id);
        assert s in suppliers;
      }
      forall s | s in suppliers && s.kind == kind && o == SelectOption(s.name, s.id)
        ensures o in SupplierOptions(suppliers, kind)
      {
        if s != suppliers[0] {
          var i :| 0 <= i < |suppliers| && suppliers[i] == s;
          assert suppliers[1..][i - 1] == s;
        }
      }
    }
  }

  const MILL_PLACEHOLDER := SelectOption("Select a Mill", "")
  const ATELIER_PLACEHOLDER := SelectOption("Select an Atelier", "")
  const COLLECTION_PLACEHOLDER := SelectOption("Select a Collection", "")
  const SELECT_PLACEHOLDER := SelectOption("Select...", "")

  /** `millOptions`: a placeholder, then the mills. */
  function MillOptions(suppliers: seq<Supplier>): seq<SelectOption> {
    [MILL_PLACEHOLDER] + SupplierOptions(suppliers, "Mill")
  }

  /** `atelierOptions`: a placeholder, then the ateliers. */
  function AtelierOptions(suppliers: seq<Supplier>): seq<SelectOption> {
    [ATELIER_PLACEHOLDER] + SupplierOptions(suppliers, "Atelier")
  }

  /** The mill list opens with its placeholder, whose value is empty, and past
      it lists exactly the mills; the atelier list likewise. */
  lemma SupplierListsShape(suppliers: seq<Supplier>, o: SelectOption)
    ensures MillOptions(suppliers)[0].value == "" && AtelierOptions(suppliers)[0].value == ""
    ensures o in MillOptions(suppliers)[1..] <==>
            exists s :: s in suppliers && s.kind == "Mill" && o == SelectOption(s.name, s.id)
    ensures o in AtelierOptions(suppliers)[1..] <==>
            exists s :: s in suppliers && s.kind == "Atelier" && o == SelectOption(s.name, s.id)
  {
    assert MillOptions(suppliers)[1..] == SupplierOptions(suppliers, "Mill");
    assert AtelierOptions(suppliers)[1..] == SupplierOptions(suppliers, "Atelier");
    SupplierOptionsMembers(suppliers, "Mill", o);
    SupplierOptionsMembers(suppliers, "Atelier", o);
  }

  /** A collection of a mill, `id` already as a string. */
  datatype Collection = Collection(id: string, bunchName: string)

  function CollectionList(cs: seq<Collection>): (r: seq<SelectOption>)
    ensures |r| == |cs|
    ensures forall k :: 0 <= k < |cs| ==> r[k] == SelectOption(cs[k].bunchName, cs[k].id)
  {
    if cs == [] then [] else [SelectOption(cs[0].bunchName, cs[0].id)] + CollectionList(cs[1..])
  }

  /** `collectionOptions`: a placeholder, then one option per collection in order. */
  function CollectionOptions(cs: seq<Collection>): (r: seq<SelectOption>)
    ensures |r| == |cs| + 1 && r[0] == COLLECTION_PLACEHOLDER
    ensures forall k :: 0 <= k < |cs| ==> r[k + 1] == SelectOption(cs[k].bunchName, cs[k].id)
  {
    [COLLECTION_PLACEHOLDER] + CollectionList(cs)
  }

  /** The options a question offers: a dynamic lookup offers the mills when it
      looks up mills and the ateliers otherwise; a select offers a placeholder
      and its own options. */
  function QuestionOptions(q: Question, suppliers: seq<Supplier>): seq<SelectOption> {
    if q.qtype == DynamicLookup then
      (if q.lookupType == "Mill" then MillOptions(suppliers) else AtelierOptions(suppliers))
    else if q.qtype == Select then [SELECT_PLACEHOLDER] + ChoiceOptions(q.options)
    else []
  }

  function ChoiceOptions(options: seq<Choice>): (r: seq<SelectOption>)
    ensures |r| == |options|
    ensures forall k :: 0 <= k < |options| ==> r[k] == SelectOption(options[k].caption, options[k].value)
  {
    if options == [] then [] else [SelectOption(options[0].caption, options[0].value)] + ChoiceOptions(options[1..])
  }

  /** Tier 1 offers the ateliers and tier 2 the mills. */
  lemma TierOptions(suppliers: seq<Supplier>)
    ensures QuestionOptions(PILLAR_2.questions[0], suppliers) == AtelierOptions(suppliers)
    ensures QuestionOptions(PILLAR_2.questions[1], suppliers) == MillOptions(suppliers)
  {
  }

  // ---------------------------------------------------------------------------
  // Checkboxes

  /** The value a checkbox stores when ticked or cleared. */
  function CheckboxValue(q: Question, checked: bool): string
    requires |q.options| > 0
  {
    if checked then q.options[0].value else ""
  }

  /** A checkbox shows as ticked when its answer is its option's value. */
  predicate IsChecked(q: Question, answer: Option<Value>)
    requires |q.options| > 0
  {
    answer == Some(Str(q.options[0].value))
  }

  /** Ticking or clearing a checkbox is shown back as such, and earns the
      option's points exactly when ticked. */
  lemma ToggleCheckbox(q: Question, checked: bool)
    requires q.qtype == Checkbox && |q.options| > 0 && q.options[0].value != ""
    ensures IsChecked(q, Some(Str(CheckboxValue(q, checked)))) == checked
    ensures QuestionScore(q, Some(Str(CheckboxValue(q, checked)))) == if checked then q.options[0].points else 0
  {
  }

  /** A checkbox answer other than its value shows as cleared yet earns the
      points all the same. */
  lemma UncheckedButScored(q: Question, v: string)
    requires q.qtype == Checkbox && |q.options| > 0 && v != "" && v != q.options[0].value
    ensures !IsChecked(q, Some(Str(v)))
    ensures QuestionScore(q, Some(Str(v))) == q.options[0].points
  {
  }

  // ---------------------------------------------------------------------------
  // Mill prefill

  const MILL_ID := "mill_id"
  const COLLECTION_ID := "collection_id"
  const WOOLMARK_ID := "p1_woolmark"
  const RWS_ID := "p1_rws"

  /** `suppliers.find(s => String(s.id) === value)`. */
  function FindSupplier(suppliers: seq<Supplier>, id: string): (r: Option<Supplier>)
    ensures r.Some? ==> r.value in suppliers && r.value.id == id
    ensures r.None? <==> forall s :: s in suppliers ==> s.id != id
  {
    if suppliers == [] then None
    else if suppliers[0].id == id then Some(suppliers[0])
    else FindSupplier(suppliers[1..], id)
  }

  function CertAnswer(certified: bool): Value {
    Str(if certified then "yes" else "")
  }

  /** The supplier a mill choice pre-fills from: none for the empty choice. */
  function ChosenMill(value: string, suppliers: seq<Supplier>): Option<Supplier> {
    if value == "" then None else FindSupplier(suppliers, value)
  }

  /** The answers after a mill is chosen: the mill recorded, the collection
      cleared, and, for a known supplier, its two wool certificates and then
      its sustainability data, which wins over everything before it. */
  function MillPrefill(form: map<string, Value>, value: string, suppliers: seq<Supplier>): map<string, Value> {
    var cleared := form[MILL_ID := Str(value)][COLLECTION_ID := Str("")];
    match ChosenMill(value, suppliers)
    case None => cleared
    case Some(s) => cleared[WOOLMARK_ID := CertAnswer(s.woolmark)][RWS_ID := CertAnswer(s.rws)] + s.sustainability
  }

  /** What a mill choice leaves under each key. */
  lemma MillPrefillAt(form: map<string, Value>, value: string, suppliers: seq<Supplier>, k: string)
    ensures ChosenMill(value, suppliers).None? ==>
              Get(MillPrefill(form, value, suppliers), k)
              == (if k == COLLECTION_ID then Some(Str("")) else if k == MILL_ID then Some(Str(value)) else Get(form, k))
    ensures ChosenMill(value, suppliers).Some? && k in ChosenMill(value, suppliers).value.sustainability ==>
              Get(MillPrefill(form, value, suppliers), k) == Some(ChosenMill(value, suppliers).value.sustainability[k])
    ensures (ChosenMill(value, suppliers).Some? && k !in ChosenMill(value, suppliers).value.sustainability
             && k != WOOLMARK_ID && k != RWS_ID && k != MILL_ID && k != COLLECTION_ID) ==>
              Get(MillPrefill(form, value, suppliers), k) == Get(form, k)
  {
  }

  /** A chosen mill's certificates score on pillar 1 unless its sustainability
      data overrides them: 3 points each when certified, none otherwise. */
  lemma PrefilledCertificatesScore(form: map<string, Value>, value: string, suppliers: seq<Supplier>)
    requires ChosenMill(value, suppliers).Some?
    requires WOOLMARK_ID !in ChosenMill(value, suppliers).value.sustainability
    requires RWS_ID !in ChosenMill(value, suppliers).value.sustainability
    ensures QuestionScore(PILLAR_1.questions[0], Get(MillPrefill(form, value, suppliers), WOOLMARK_ID))
            == if ChosenMill(value, suppliers).value.woolmark then 3 else 0
    ensures QuestionScore(PILLAR_1.questions[1], Get(MillPrefill(form, value, suppliers), RWS_ID))
            == if ChosenMill(value, suppliers).value.rws then 3 else 0
  {
  }

  /** Clearing the mill changes only the mill and collection fields, which are
      no questions, so the scorecard stays as it was. */
  lemma ClearingMillKeepsScores(form: map<string, Value>, suppliers: seq<Supplier>)
    ensures LiveScores(SCORING_CONFIG, MillPrefill(form, "", suppliers)) == LiveScores(SCORING_CONFIG, form)
  {
    NotAQuestion(MILL_ID);
    NotAQuestion(COLLECTION_ID);
    ScoresIgnoreOtherKeys(form, MILL_ID, Str(""));
    ScoresIgnoreOtherKeys(form[MILL_ID := Str("")], COLLECTION_ID, Str(""));
  }

  /** The wizard's own fields are not question ids. */
  lemma NotAQuestion(k: string)
    requires k in INITIAL_FORM
    ensures k !in CONFIG_IDS
  {
  }

  /** The form the wizard starts with: its eight own fields, all empty. */
  const INITIAL_FORM: map<string, Value> :=
    map["shopify_order_id" := Str(""), "shopify_line_item_id" := Str(""), "suit_id" := Str(""),
        MILL_ID := Str(""), COLLECTION_ID := Str(""), "article_code" := Str(""),
        "composition" := Str(""), "item_name" := Str("")]

  // ---------------------------------------------------------------------------
  // The wizard's state

  /** Which of the chosen locations a successful search replaces. */
  datatype LocationKey = PrimaryKey | MillKey | ProductionKey | WarehouseKey

  function WithLocation(c: CustomLocations, key: LocationKey, loc: Location): CustomLocations {
    match key
    case PrimaryKey => c.(primary := Some(loc))
    case MillKey => c.(mill := Some(loc))
    case ProductionKey => c.(production := Some(loc))
    case WarehouseKey => c.(warehouse := Some(loc))
  }

  /** The locations the wizard starts with: production in Czechia and the
      warehouse in Sydney; no mill and no custom origin. */
  const INITIAL_LOCATIONS := CustomLocations(None, None, Some(PRODUCTION_CZ), Some(SYDNEY_WAREHOUSE))

  /** What the wizard hands to its submit callback. */
  datatype Submission = Submission(data: map<string, Value>, emissions: Option<WizardEmissions>, scores: Scores)

  /** The wizard component's state. Each handler makes its own updates and then
      runs the effects they trigger: the summary is recomputed when the
      material or the locations change, the scorecard whenever the answers do. */
  class WizardState {
    var formData: map<string, Value>
    var scores: Scores
    var material: string
    var customLocations: CustomLocations
    var emissionsData: Option<WizardEmissions>
    var collections: seq<Collection>
    const suppliers: seq<Supplier>
    const dist: DistanceFn

    /** The effects have caught up: the scorecard is that of the answers, and
        the summary that of the material and locations. */
    predicate Valid()
      reads this
    {
      && scores == LiveScores(SCORING_CONFIG, formData)
      && emissionsData == EmissionsFor(material, customLocations, dist)
    }

    /** The first render: empty fields, wool, the default locations; the mount
        effects find no mill, so there is no summary, and score every pillar 0. */
    constructor (suppliers: seq<Supplier>, dist: DistanceFn)
      ensures Valid()
      ensures this.suppliers == suppliers && this.dist == dist
      ensures formData == INITIAL_FORM && scores == ZERO_SCORES && material == "Wool"
      ensures customLocations == INITIAL_LOCATIONS && emissionsData == None && collections == []
    {
      this.suppliers := suppliers;
      this.dist := dist;
      formData := INITIAL_FORM;
      material := "Wool";
      customLocations := INITIAL_LOCATIONS;
      emissionsData := None;
      collections := [];
      new;
      BlankFormScoresZero(INITIAL_FORM);
      scores := RecomputeScores(SCORING_CONFIG, formData);
    }

    /** The score effect. */
    method Rescore()
      modifies this`scores
      ensures scores == LiveScores(SCORING_CONFIG, formData)
    {
      scores := RecomputeScores(SCORING_CONFIG, formData);
    }

    /** `calculateEmissions`: without a mill, production site or warehouse the
        summary is cleared and the answers are left alone; otherwise the
        summary is stored and its transport sub-score written to the answers. */
    method CalculateEmissions()
      modifies this`emissionsData, this`formData
      ensures emissionsData == EmissionsFor(material, customLocations, dist)
      ensures formData == WithTransport(old(formData), emissionsData)
    {
      if customLocations.mill.None? || customLocations.production.None? || customLocations.warehouse.None? {
        emissionsData := None;
        return;
      }
      var e := BuildEmissions(material, customLocations.mill.value, customLocations.production.value,
                              customLocations.warehouse.value, dist);
      emissionsData := Some(e);
      var score := 0;
      if e.totalDistance < 15000 {
        score := 5;
      } else if e.totalDistance < 20000 {
        score := 2;
      }
      formData := formData[CO2_QUESTION_ID := Num(score)];
    }

    /** `handleInputChange`: one answer replaced. */
    method HandleInputChange(key: string, value: Value)
      requires Valid()
      modifies this`formData, this`scores
      ensures Valid()
      ensures formData == old(formData)[key := value]
    {
      formData := formData[key := value];
      Rescore();
    }

    /** A checkbox ticked or cleared. */
    method SetChecked(q: Question, checked: bool)
      requires Valid() && |q.options| > 0
      modifies this`formData, this`scores
      ensures Valid()
      ensures formData == old(formData)[q.id := Str(CheckboxValue(q, checked))]
    {
      HandleInputChange(q.id, Str(CheckboxValue(q, checked)));
    }

    /** A material chosen; choosing the current one again changes nothing. */
    method SetMaterial(m: string)
      requires Valid()
      modifies this`material, this`emissionsData, this`formData, this`scores
      ensures Valid() && material == m
      ensures m == old(material) ==> formData == old(formData) && emissionsData == old(emissionsData)
      ensures m != old(material) ==> formData == WithTransport(old(formData), emissionsData)
    {
      if m != material {
        material := m;
        CalculateEmissions();
        Rescore();
      }
    }

    /** A location search that found `loc`: it replaces the chosen location and
        the summary is recomputed. */
    method SetLocation(key: LocationKey, loc: Location)
      requires Valid()
      modifies this`customLocations, this`emissionsData, this`formData, this`scores
      ensures Valid()
      ensures customLocations == WithLocation(old(customLocations), key, loc)
      ensures formData == WithTransport(old(formData), emissionsData)
    {
      customLocations := WithLocation(customLocations, key, loc);
      CalculateEmissions();
      Rescore();
    }

    /** `handleMillChange`: record the mill and clear the collection; for a
        known supplier pre-fill its answers and move the mill to its location,
        which recomputes the summary; then take the mill's collections
        (`fetched`, `None` when fetching failed), or none for the empty choice. */
    method HandleMillChange(value: string, fetched: Option<seq<Collection>>)
      requires Valid()
      modifies this`formData, this`customLocations, this`emissionsData, this`collections, this`scores
      ensures Valid()
      ensures ChosenMill(value, suppliers).None? ==>
                formData == MillPrefill(old(formData), value, suppliers)
                && customLocations == old(customLocations)
      ensures ChosenMill(value, suppliers).Some? ==>
                formData == WithTransport(MillPrefill(old(formData), value, suppliers), emissionsData)
                && customLocations == old(customLocations).(mill := Some(MillFromSupplier(ChosenMill(value, suppliers).value)))
      ensures collections == if value == "" then [] else if fetched.Some? then fetched.value else old(collections)
    {
      PrefillFromMill(value);
      if value != "" {
        if fetched.Some? {
          collections := fetched.value;
        }
      } else {
        collections := [];
      }
      Rescore();
    }

    /** The answer and location updates of a mill choice. */
    method PrefillFromMill(value: string)
      requires emissionsData == EmissionsFor(material, customLocations, dist)
      modifies this`formData, this`customLocations, this`emissionsData
      ensures emissionsData == EmissionsFor(material, customLocations, dist)
      ensures ChosenMill(value, suppliers).None? ==>
                formData == MillPrefill(old(formData), value, suppliers)
                && customLocations == old(customLocations)
      ensures ChosenMill(value, suppliers).Some? ==>
                formData == WithTransport(MillPrefill(old(formData), value, suppliers), emissionsData)
                && customLocations == old(customLocations).(mill := Some(MillFromSupplier(ChosenMill(value, suppliers).value)))
    {
      formData := formData[MILL_ID := Str(value)][COLLECTION_ID := Str("")];
      if value != "" {
        var supplier := FindSupplier(suppliers, value);
        if supplier.Some? {
          var s := supplier.value;
          formData := formData[WOOLMARK_ID := CertAnswer(s.woolmark)][RWS_ID := CertAnswer(s.rws)] + s.sustainability;
          customLocations := customLocations.(mill := Some(MillFromSupplier(s)));
          CalculateEmissions();
        }
      }
    }

    /** `handleSubmit`: the answers with the material as composition, the
        summary and the scorecard. */
    function Submit(): (r: Submission)
      reads this
      ensures forall k :: k in CONFIG_IDS ==> Get(r.data, k) == Get(formData, k)
      ensures Get(r.data, "composition") == Some(Str(material))
    {
      ConfigIdsAreNotComposition();
      Submission(formData["composition" := Str(material)], emissionsData, scores)
    }
  }

  lemma ConfigIdsAreNotComposition()
    ensures "composition" !in CONFIG_IDS
  {
  }
}
