/** The static questionnaire: four pillars of typed questions whose options carry
    points, and the certifications offered per material. Nothing here changes
    at run time. */
module ScoringConfig {
  import opened Wrappers

  /** How a question is answered and scored. `OtherType` stands for any type
      name the scorer does not recognise. */
  datatype QuestionType = Checkbox | Select | DynamicLookup | ReadonlyScore | OtherType(name: string)

  /** One answer option: what is shown, what is stored, what it is worth. */
  datatype Choice = Choice(caption: string, value: string, points: int)

  /** A question; `lookupType` names the supplier kind of a dynamic lookup and
      is empty for every other question. */
  datatype Question = Question(id: string, caption: string, qtype: QuestionType,
                               options: seq<Choice>, lookupType: string)

  datatype Pillar = Pillar(id: string, title: string, maxScore: int, questions: seq<Question>)

  datatype Certification = Certification(id: string, caption: string, points: int)

  datatype MaterialCertifications = MaterialCertifications(material: string, certifications: seq<Certification>)

  const MATERIAL_CERTIFICATIONS: seq<MaterialCertifications> := [
    MaterialCertifications("Wool", [
      Certification("woolmark", "Woolmark Certified?", 3),
      Certification("rws", "Responsible Wool Standard (RWS)?", 3)]),
    MaterialCertifications("Silk", [
      Certification("gots_silk", "GOTS Certified (Organic Silk)?", 3),
      Certification("oeko_silk", "OEKO-TEX Certified?", 3)]),
    MaterialCertifications("Cotton", [
      Certification("gots_cotton", "GOTS Certified?", 3),
      Certification("bci", "Better Cotton Initiative (BCI)?", 3)]),
    MaterialCertifications("Linen", [
      Certification("european_flax", "European Flax Certified?", 3),
      Certification("oeko_linen", "OEKO-TEX Certified?", 3)]),
    MaterialCertifications("Cashmere", [
      Certification("sfa", "Sustainable Fibre Alliance (SFA)?", 3),
      Certification("oeko_cashmere", "OEKO-TEX Certified?", 3)]),
    MaterialCertifications("Mohair", [
      Certification("rms", "Responsible Mohair Standard (RMS)?", 3),
      Certification("oeko_mohair", "OEKO-TEX Certified?", 3)]),
    MaterialCertifications("Vicuna", [
      Certification("vicuna_permit", "CITES Permit/Sustainable Sourcing?", 3),
      Certification("oeko_vicuna", "OEKO-TEX Certified?", 3)])
  ]

  const PILLAR_1: Pillar := Pillar("pillar_1", "Pillar 1: Fibre & Material Health", 25, [
    Question("p1_woolmark", "Woolmark Certified?", Checkbox,
      [Choice("Yes", "yes", 3)], ""),
    Question("p1_rws", "Responsible Wool Standard (RWS)?", Checkbox,
      [Choice("Yes", "yes", 3)], ""),
    Question("p1_chemistry", "Chemistry Management (Mill/Dye House)", Select,
      [Choice("Yes (Compliant OEKO-TEX/ZDHC)", "yes", 5),
       Choice("Partial", "partial", 2),
       Choice("Unknown", "no", 0)], ""),
    Question("p1_rsl", "Restricted Substances Evidence", Checkbox,
      [Choice("Documents held on file", "yes", 5)], ""),
    Question("p1_trims", "Lining & Trims", Select,
      [Choice("Natural/Preferred Materials (Cupro/Metal/Horn/Silk)", "yes", 5),
       Choice("Mixed", "partial", 2),
       Choice("Synthetic/Plastic", "no", 0)], "")
  ])

  const PILLAR_2: Pillar := Pillar("pillar_2", "Pillar 2: Traceability", 25, [
    Question("p2_tier1", "Tier 1: Tailoring Facility", DynamicLookup, [], "Atelier"),
    Question("p2_tier2", "Tier 2: Fabric Mill", DynamicLookup, [], "Mill"),
    Question("p2_tier3", "Tier 3: Raw Material Source Known?", Checkbox,
      [Choice("Yes (Region/Farm)", "yes", 5)], ""),
    Question("p2_batch", "Batch/Roll Tracking Available?", Checkbox,
      [Choice("Yes", "yes", 5)], ""),
    Question("p2_transparency", "Supplier Transparency Agreement Signed?", Checkbox,
      [Choice("Yes", "yes", 5)], "")
  ])

  const PILLAR_3: Pillar := Pillar("pillar_3", "Pillar 3: Social Responsibility & Labour", 25, [
    Question("p3_audit", "Social Audit (SMETA/BSCI/SA8000)", Select,
      [Choice("Valid Audit (<2 years)", "valid", 5),
       Choice("Partial/Expired", "partial", 2),
       Choice("No", "no", 0)], ""),
    Question("p3_risk", "Country Risk Level (Modern Slavery)", Select,
      [Choice("Low Risk", "low", 5),
       Choice("Medium Risk (Mitigated)", "med_mitigated", 5),
       Choice("Medium Risk (No Mitigation)", "med", 2),
       Choice("High Risk", "high", 0)], ""),
    Question("p3_modern_slavery", "Modern Slavery Due Diligence Logged?", Checkbox,
      [Choice("Yes", "yes", 5)], ""),
    Question("p3_remedy", "Grievance/Remediation Process?", Select,
      [Choice("Yes", "yes", 5),
       Choice("No", "no", 0)], "")
  ])

  /** The transport-emissions question of pillar 4; its answer is computed, not chosen. */
  const CO2_QUESTION_ID := "p4_co2_score"

  const PILLAR_4: Pillar := Pillar("pillar_4", "Pillar 4: Climate & Circularity", 25, [
    Question("p4_fibre_impact", "Fibre Impact Class", Select,
      [Choice("Class A/B (Best)", "A", 5),
       Choice("Class C", "C", 2),
       Choice("Class D/E", "E", 0)], ""),
    Question(CO2_QUESTION_ID, "Transport Emissions (GHG Protocol Methodology)", ReadonlyScore, [], ""),
    Question("p4_longevity", "Longevity Design (Full Canvas/Spare Cloth)", Checkbox,
      [Choice("Meets Standard", "yes", 5)], ""),
    Question("p4_circular", "Circular Offers (Repair/Take-back)", Select,
      [Choice("Yes", "yes", 5),
       Choice("No", "no", 0)], ""),
    Question("p4_eol", "End of Life Guidance Included?", Checkbox,
      [Choice("Yes", "yes", 5)], "")
  ])

  const SCORING_CONFIG: seq<Pillar> := [PILLAR_1, PILLAR_2, PILLAR_3, PILLAR_4]

  /** The questions of all pillars, pillar after pillar, in declaration order. */
  function AllQuestions(ps: seq<Pillar>): seq<Question>
  {
    if ps == [] then [] else AllQuestions(ps[..|ps| - 1]) + ps[|ps| - 1].questions
  }

  /** `options.find(o => o.value === v)`: the first option stored as `v`. */
  function FindChoice(options: seq<Choice>, v: string): (r: Option<Choice>)
    ensures r.Some? ==> r.value in options && r.value.value == v
    ensures r.None? <==> forall o :: o in options ==> o.value != v
    ensures r.Some? ==> exists k :: 0 <= k < |options| && options[k] == r.value
                                    && forall j :: 0 <= j < k ==> options[j].value != v
  {
    if options == [] then None
    else if options[0].value == v then Some(options[0])
    else match FindChoice(options[1..], v)
      case None => None
      case Some(o) =>
        assert forall j :: 1 <= j < |options| ==> options[j] == options[1..][j - 1];
        Some(o)
  }

  // ---------------------------------------------------------------------------
  // Facts about the configuration data

  /** Identifiers of a list of questions, in order. */
  function Ids(qs: seq<Question>): (r: seq<string>)
    ensures |r| == |qs| && forall k :: 0 <= k < |qs| ==> r[k] == qs[k].id
  {
    if qs == [] then [] else [qs[0].id] + Ids(qs[1..])
  }

  predicate NoDuplicates<T(==)>(s: seq<T>) {
    forall i, j :: 0 <= i < j < |s| ==> s[i] != s[j]
  }

  lemma FourPillars()
    ensures |SCORING_CONFIG| == 4
    ensures SCORING_CONFIG[0].id == "pillar_1" && SCORING_CONFIG[1].id == "pillar_2"
    ensures SCORING_CONFIG[2].id == "pillar_3" && SCORING_CONFIG[3].id == "pillar_4"
    ensures forall p :: p in SCORING_CONFIG ==> p.maxScore == 25
  {
  }

  /** The flattened question list of the configuration, pillar by pillar. */
  lemma AllConfigQuestions()
    ensures AllQuestions(SCORING_CONFIG)
            == PILLAR_1.questions + PILLAR_2.questions + PILLAR_3.questions + PILLAR_4.questions
  {
    var c := SCORING_CONFIG;
    assert [PILLAR_1][..0] == [];
    assert AllQuestions([PILLAR_1]) == PILLAR_1.questions;
    assert [PILLAR_1, PILLAR_2][..1] == [PILLAR_1];
    assert AllQuestions([PILLAR_1, PILLAR_2]) == PILLAR_1.questions + PILLAR_2.questions;
    assert c[..3][..2] == [PILLAR_1, PILLAR_2];
    assert c[..3] == [PILLAR_1, PILLAR_2, PILLAR_3];
    assert AllQuestions(c[..3]) == PILLAR_1.questions + PILLAR_2.questions + PILLAR_3.questions;
  }

  lemma QuestionCount()
    ensures |AllQuestions(SCORING_CONFIG)| == 19
  {
    AllConfigQuestions();
  }

  /** Where a question of the configuration comes from. */
  lemma InConfig(q: Question)
    requires q in AllQuestions(SCORING_CONFIG)
    ensures q in PILLAR_1.questions || q in PILLAR_2.questions
         || q in PILLAR_3.questions || q in PILLAR_4.questions
  {
    AllConfigQuestions();
  }

  /** A checkbox question has a single option, stored as "yes". */
  predicate CheckboxShape(q: Question) {
    q.qtype == Checkbox ==> |q.options| == 1 && q.options[0].value == "yes"
  }

  /** The options of a select question are stored under distinct values. */
  predicate SelectShape(q: Question) {
    q.qtype == Select ==>
      forall i, j :: 0 <= i < j < |q.options| ==> q.options[i].value != q.options[j].value
  }

  /** Every option is worth between 0 and 5 points. */
  predicate PointsShape(q: Question) {
    forall i :: 0 <= i < |q.options| ==> 0 <= q.options[i].points <= 5
  }

  /** No option is stored as the empty string, which would read as no answer. */
  predicate ValuesShape(q: Question) {
    forall i :: 0 <= i < |q.options| ==> q.options[i].value != ""
  }

  /** Only the transport question is read-only, and it has no options. */
  predicate ReadonlyShape(q: Question) {
    && (q.qtype == ReadonlyScore <==> q.id == CO2_QUESTION_ID)
    && (q.qtype == ReadonlyScore ==> q.options == [])
  }

  /** Only the two tier questions are dynamic lookups, without options, one
      naming ateliers and one naming mills. */
  predicate LookupShape(q: Question) {
    && (q.qtype == DynamicLookup <==> q.id == "p2_tier1" || q.id == "p2_tier2")
    && (q.qtype == DynamicLookup ==> q.options == [])
    && (q.id == "p2_tier1" ==> q.lookupType == "Atelier")
    && (q.id == "p2_tier2" ==> q.lookupType == "Mill")
  }

  predicate KnownType(q: Question) {
    !q.qtype.OtherType?
  }

  /** What the options of a question look like. */
  predicate OptionsShape(q: Question) {
    CheckboxShape(q) && SelectShape(q) && PointsShape(q) && ValuesShape(q)
  }

  /** Which questions have which type. */
  predicate KindShape(q: Question) {
    ReadonlyShape(q) && LookupShape(q) && KnownType(q)
  }

  predicate Shape(q: Question) {
    OptionsShape(q) && KindShape(q)
  }

  lemma OptionsPillar1()
    ensures forall q :: q in PILLAR_1.questions ==> OptionsShape(q)
  {
    var qs := PILLAR_1.questions;
    forall k | 0 <= k < |qs| ensures OptionsShape(qs[k]) {}
  }

  lemma KindsPillar1()
    ensures forall q :: q in PILLAR_1.questions ==> KindShape(q)
  {
    var qs := PILLAR_1.questions;
    forall k | 0 <= k < |qs| ensures KindShape(qs[k]) {}
  }

  lemma ShapePillar1()
    ensures forall q :: q in PILLAR_1.questions ==> Shape(q)
  {
    OptionsPillar1();
    KindsPillar1();
  }

  lemma OptionsPillar2()
    ensures forall q :: q in PILLAR_2.questions ==> OptionsShape(q)
  {
    var qs := PILLAR_2.questions;
    forall k | 0 <= k < |qs| ensures OptionsShape(qs[k]) {}
  }

  lemma KindsPillar2()
    ensures forall q :: q in PILLAR_2.questions ==> KindShape(q)
  {
    var qs := PILLAR_2.questions;
    forall k | 0 <= k < |qs| ensures KindShape(qs[k]) {}
  }

  lemma ShapePillar2()
    ensures forall q :: q in PILLAR_2.questions ==> Shape(q)
  {
    OptionsPillar2();
    KindsPillar2();
  }

  lemma OptionsPillar3()
    ensures forall q :: q in PILLAR_3.questions ==> OptionsShape(q)
  {
    var qs := PILLAR_3.questions;
    forall k | 0 <= k < |qs| ensures OptionsShape(qs[k]) {}
  }

  lemma KindsPillar3()
    ensures forall q :: q in PILLAR_3.questions ==> KindShape(q)
  {
    var qs := PILLAR_3.questions;
    forall k | 0 <= k < |qs| ensures KindShape(qs[k]) {}
  }

  lemma ShapePillar3()
    ensures forall q :: q in PILLAR_3.questions ==> Shape(q)
  {
    OptionsPillar3();
    KindsPillar3();
  }

  lemma OptionsPillar4()
    ensures forall q :: q in PILLAR_4.questions ==> OptionsShape(q)
  {
    var qs := PILLAR_4.questions;
    forall k | 0 <= k < |qs| ensures OptionsShape(qs[k]) {}
  }

  lemma KindsPillar4()
    ensures forall q :: q in PILLAR_4.questions ==> KindShape(q)
  {
    var qs := PILLAR_4.questions;
    forall k | 0 <= k < |qs| ensures KindShape(qs[k]) {}
  }

  lemma ShapePillar4()
    ensures forall q :: q in PILLAR_4.questions ==> Shape(q)
  {
    OptionsPillar4();
    KindsPillar4();
  }

  lemma ConfigShape()
    ensures forall q :: q in AllQuestions(SCORING_CONFIG) ==> Shape(q)
  {
    forall q | q in AllQuestions(SCORING_CONFIG) ensures Shape(q) {
      InConfig(q);
      ShapePillar1();
      ShapePillar2();
      ShapePillar3();
      ShapePillar4();
    }
  }

  /** Every checkbox of the configuration has exactly one option, valued "yes". */
  lemma CheckboxesHaveOneYesOption()
    ensures forall q :: q in AllQuestions(SCORING_CONFIG) && q.qtype == Checkbox ==>
              |q.options| == 1 && q.options[0].value == "yes"
  {
    ConfigShape();
  }

  /** Within a select question no two options share a value. */
  lemma SelectValuesDistinct()
    ensures forall q :: q in AllQuestions(SCORING_CONFIG) && q.qtype == Select ==>
              forall i, j :: 0 <= i < j < |q.options| ==> q.options[i].value != q.options[j].value
  {
    ConfigShape();
  }

  /** With distinct values, the option found for a value is the only one stored
      under it. */
  lemma FindChoiceUnique(options: seq<Choice>, o: Choice)
    requires forall i, j :: 0 <= i < j < |options| ==> options[i].value != options[j].value
    requires o in options
    ensures FindChoice(options, o.value) == Some(o)
  {
    var r := FindChoice(options, o.value);
    var k :| 0 <= k < |options| && options[k] == r.value
             && forall j :: 0 <= j < k ==> options[j].value != o.value;
    var m :| 0 <= m < |options| && options[m] == o;
    assert m == k;
  }

  /** Every option of the configuration is worth between 0 and 5 points. */
  lemma PointsInRange()
    ensures forall q, o :: q in AllQuestions(SCORING_CONFIG) && o in q.options ==> 0 <= o.points <= 5
  {
    ConfigShape();
  }

  /** The transport question is the only read-only question; it belongs to
      pillar 4 and has no options. */
  lemma OnlyReadonlyIsTransport()
    ensures forall q :: q in AllQuestions(SCORING_CONFIG) ==>
              (q.qtype == ReadonlyScore <==> q.id == CO2_QUESTION_ID)
    ensures PILLAR_4.questions[1].id == CO2_QUESTION_ID
    ensures PILLAR_4.questions[1].qtype == ReadonlyScore && PILLAR_4.questions[1].options == []
  {
    ConfigShape();
  }

  /** The two dynamic lookups are the tier questions, without options. */
  lemma DynamicLookupsAreTiers()
    ensures forall q :: q in AllQuestions(SCORING_CONFIG) ==>
              (q.qtype == DynamicLookup <==> q.id == "p2_tier1" || q.id == "p2_tier2")
    ensures forall q :: q in AllQuestions(SCORING_CONFIG) && q.qtype == DynamicLookup ==> q.options == []
    ensures PILLAR_2.questions[0].id == "p2_tier1" && PILLAR_2.questions[0].lookupType == "Atelier"
    ensures PILLAR_2.questions[1].id == "p2_tier2" && PILLAR_2.questions[1].lookupType == "Mill"
  {
    ConfigShape();
  }

  /** The configuration uses only the four known question types. */
  lemma OnlyKnownTypes()
    ensures forall q :: q in AllQuestions(SCORING_CONFIG) ==> !q.qtype.OtherType?
  {
    ConfigShape();
  }

  /** Seven materials, each with two certifications worth 3 points. */
  lemma MaterialCertificationsShape()
    ensures |MATERIAL_CERTIFICATIONS| == 7
    ensures forall m :: m in MATERIAL_CERTIFICATIONS ==>
              |m.certifications| == 2 && forall c :: c in m.certifications ==> c.points == 3
  {
  }

  lemma IdsConcat(a: seq<Question>, b: seq<Question>)
    ensures Ids(a + b) == Ids(a) + Ids(b)
  {
    var l, r := Ids(a + b), Ids(a) + Ids(b);
    forall k | 0 <= k < |l| ensures l[k] == r[k] {
      if k < |a| {
        assert (a + b)[k] == a[k];
      } else {
        assert (a + b)[k] == b[k - |a|];
      }
    }
  }

  /** The identifiers of the configuration's questions, in declaration order. */
  const CONFIG_IDS: seq<string> :=
    ["p1_woolmark", "p1_rws", "p1_chemistry", "p1_rsl", "p1_trims",
     "p2_tier1", "p2_tier2", "p2_tier3", "p2_batch", "p2_transparency",
     "p3_audit", "p3_risk", "p3_modern_slavery", "p3_remedy",
     "p4_fibre_impact", "p4_co2_score", "p4_longevity", "p4_circular", "p4_eol"]

  lemma PillarIds()
    ensures Ids(PILLAR_1.questions) == CONFIG_IDS[..5]
    ensures Ids(PILLAR_2.questions) == CONFIG_IDS[5..10]
    ensures Ids(PILLAR_3.questions) == CONFIG_IDS[10..14]
    ensures Ids(PILLAR_4.questions) == CONFIG_IDS[14..]
  {
    PillarIds1();
    PillarIds2();
    PillarIds3();
    PillarIds4();
  }

  lemma PillarIds1() ensures Ids(PILLAR_1.questions) == CONFIG_IDS[..5] {}
  lemma PillarIds2() ensures Ids(PILLAR_2.questions) == CONFIG_IDS[5..10] {}
  lemma PillarIds3() ensures Ids(PILLAR_3.questions) == CONFIG_IDS[10..14] {}
  lemma PillarIds4() ensures Ids(PILLAR_4.questions) == CONFIG_IDS[14..] {}

  lemma ConfigIds()
    ensures Ids(AllQuestions(SCORING_CONFIG)) == CONFIG_IDS
  {
    AllConfigQuestions();
    PillarIds();
    var q1, q2, q3, q4 := PILLAR_1.questions, PILLAR_2.questions, PILLAR_3.questions, PILLAR_4.questions;
    IdsConcat(q1, q2);
    IdsConcat(q1 + q2, q3);
    IdsConcat(q1 + q2 + q3, q4);
    SliceConcat(CONFIG_IDS, 5, 10, 14);
  }

  lemma SliceConcat<T>(s: seq<T>, a: nat, b: nat, c: nat)
    requires a <= b <= c <= |s|
    ensures s == s[..a] + s[a..b] + s[b..c] + s[c..]
  {
  }

  /** Which pillar (1 to 4) the identifier at position `i` of CONFIG_IDS belongs to. */
  function PillarOfPosition(i: int): char {
    if i < 5 then '1' else if i < 10 then '2' else if i < 14 then '3' else '4'
  }

  lemma ConfigIdsNamePillar()
    ensures forall i :: 0 <= i < |CONFIG_IDS| ==>
              |CONFIG_IDS[i]| >= 2 && CONFIG_IDS[i][1] == PillarOfPosition(i)
  {
  }

  lemma ConfigIdsDistinctWithinPillars()
    ensures forall i, j :: 0 <= i < j < 5 ==> CONFIG_IDS[i] != CONFIG_IDS[j]
    ensures forall i, j :: 5 <= i < j < 10 ==> CONFIG_IDS[i] != CONFIG_IDS[j]
    ensures forall i, j :: 10 <= i < j < 14 ==> CONFIG_IDS[i] != CONFIG_IDS[j]
    ensures forall i, j :: 14 <= i < j < 19 ==> CONFIG_IDS[i] != CONFIG_IDS[j]
  {
  }

  lemma ConfigIdsDistinct()
    ensures NoDuplicates(CONFIG_IDS)
  {
    ConfigIdsNamePillar();
    ConfigIdsDistinctWithinPillars();
    forall i, j | 0 <= i < j < |CONFIG_IDS| ensures CONFIG_IDS[i] != CONFIG_IDS[j] {
      if PillarOfPosition(i) != PillarOfPosition(j) {
        assert CONFIG_IDS[i][1] != CONFIG_IDS[j][1];
      }
    }
  }

  /** Question identifiers are unique across the whole configuration. */
  lemma DistinctQuestionIds()
    ensures NoDuplicates(Ids(AllQuestions(SCORING_CONFIG)))
  {
    ConfigIds();
    ConfigIdsDistinct();
  }
}
