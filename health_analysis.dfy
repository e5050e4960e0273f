/**
 * The decision logic of src/components/HealthAnalysis.tsx: the overall risk
 * level that combines the blood pressure and blood sugar statuses, the
 * medical-attention alert, and the recommendation list built step by step.
 * Both statuses reach this logic as the label strings the classifiers return.
 */
module HealthAnalysis {
  import opened HealthUtils

  datatype RiskLevel = VeryHigh | High | Moderate | Low
  {
    function Level(): string {
      match this
      case VeryHigh => "very_high"
      case High => "high"
      case Moderate => "moderate"
      case Low => "low"
    }

    function Label(): string {
      match this
      case VeryHigh => "Sangat Tinggi"
      case High => "Tinggi"
      case Moderate => "Sedang"
      case Low => "Rendah"
    }

    function Color(): string {
      match this
      case VeryHigh => "text-red-700 bg-red-100"
      case High => "text-red-600 bg-red-50"
      case Moderate => "text-yellow-600 bg-yellow-50"
      case Low => "text-green-600 bg-green-50"
    }

    /** Severity order: low < moderate < high < very high. */
    function Severity(): nat {
      match this
      case Low => 0
      case Moderate => 1
      case High => 2
      case VeryHigh => 3
    }
  }

  /**
   * getRiskLevel. The second test repeats the 'Diabetes' check of the first,
   * so that disjunct never decides anything: 'high' means stage 1
   * hypertension without diabetes.
   */
  function GetRiskLevel(bpStatus: string, sugarStatus: string): (r: RiskLevel)
    ensures r == VeryHigh <==> bpStatus == LabelHipertensi2 || sugarStatus == LabelDiabetes
    ensures r == High <==> bpStatus == LabelHipertensi1 && sugarStatus != LabelDiabetes
    ensures r == Moderate <==>
      bpStatus != LabelHipertensi2 && bpStatus != LabelHipertensi1 && sugarStatus != LabelDiabetes
      && (bpStatus == LabelNormalTinggi || sugarStatus == LabelPradiabetes)
    ensures r == Low <==>
      bpStatus != LabelHipertensi2 && bpStatus != LabelHipertensi1 && bpStatus != LabelNormalTinggi
      && sugarStatus != LabelDiabetes && sugarStatus != LabelPradiabetes
  {
    if bpStatus == LabelHipertensi2 || sugarStatus == LabelDiabetes then VeryHigh
    else if bpStatus == LabelHipertensi1 || sugarStatus == LabelDiabetes then High
    else if bpStatus == LabelNormalTinggi || sugarStatus == LabelPradiabetes then Moderate
    else Low
  }

  /** The red "Perhatian Medis Diperlukan" box is rendered for the levels 'high' and 'very_high'. */
  predicate ShowsMedicalAlert(r: RiskLevel): (b: bool)
    ensures b <==> r == High || r == VeryHigh
  {
    assert Moderate.Level()[0] != "high"[0] && Moderate.Level()[0] != "very_high"[0];
    assert Low.Level()[0] != "high"[0] && Low.Level()[0] != "very_high"[0];
    r.Level() == "high" || r.Level() == "very_high"
  }

  /** The alert appears exactly for stage 1 or stage 2 hypertension or diabetes. */
  lemma MedicalAlertIff(bpStatus: string, sugarStatus: string)
    ensures ShowsMedicalAlert(GetRiskLevel(bpStatus, sugarStatus))
        <==> bpStatus == LabelHipertensi1 || bpStatus == LabelHipertensi2 || sugarStatus == LabelDiabetes
  {
  }

  // ---------------------------------------------------------------------
  // Risk level against the classifiers

  /** The risk a blood pressure category contributes on its own. */
  function BpRisk(c: BpCategory): RiskLevel {
    match c
    case BpNormalTinggi => Moderate
    case BpHipertensi1 => High
    case BpHipertensi2 => VeryHigh
    case _ => Low
  }

  /** The risk a blood sugar category contributes on its own. */
  function SugarRisk(s: SugarCategory): RiskLevel {
    match s
    case SugarPradiabetes => Moderate
    case SugarDiabetes => VeryHigh
    case _ => Low
  }

  function MoreSevere(a: RiskLevel, b: RiskLevel): RiskLevel {
    if a.Severity() >= b.Severity() then a else b
  }

  lemma BpLabels(c: BpCategory)
    ensures c.Label() == LabelHipertensi2 <==> c == BpHipertensi2
    ensures c.Label() == LabelHipertensi1 <==> c == BpHipertensi1
    ensures c.Label() == LabelNormalTinggi <==> c == BpNormalTinggi
    ensures c.Label() != LabelDiabetes && c.Label() != LabelPradiabetes
  {
    assert LabelHipertensi1[19] != LabelHipertensi2[19];
    assert LabelTidakValid[0] != LabelPradiabetes[0];
  }

  lemma SugarLabels(s: SugarCategory)
    ensures s.Label() == LabelDiabetes <==> s == SugarDiabetes
    ensures s.Label() == LabelPradiabetes <==> s == SugarPradiabetes
    ensures s.Label() != LabelHipertensi1 && s.Label() != LabelHipertensi2
    ensures s.Label() != LabelNormalTinggi
  {
  }

  /**
   * On the labels the two classifiers produce, the risk level is the more
   * severe of what each reading contributes on its own.
   */
  lemma RiskIsMoreSevere(c: BpCategory, s: SugarCategory)
    ensures GetRiskLevel(c.Label(), s.Label()) == MoreSevere(BpRisk(c), SugarRisk(s))
  {
    BpLabels(c);
    SugarLabels(s);
  }

  /** The risk level of a blood pressure text and a blood sugar number as the component shows it. */
  function AnalyseRisk(tekananDarah: string, gulaDarah: JsNumber): RiskLevel {
    GetRiskLevel(GetBloodPressureStatus(tekananDarah).status, GetBloodSugarStatus(gulaDarah).status)
  }

  /** Readings the classifiers reject count as no risk: an invalid pair with a normal or invalid sugar is 'low'. */
  lemma InvalidReadingsAreLow(tekananDarah: string, gulaDarah: JsNumber)
    requires !ClassifyBloodPressure(tekananDarah).IsBand()
    requires !(gulaDarah.Finite? && 100.0 <= gulaDarah.value <= 1000.0)
    ensures AnalyseRisk(tekananDarah, gulaDarah) == Low
  {
    RiskIsMoreSevere(ClassifyBloodPressure(tekananDarah), ClassifyBloodSugar(gulaDarah));
  }

  // ---------------------------------------------------------------------
  // Recommendations

  const NormalTinggiAdvice: seq<string> := [
    "Kurangi konsumsi garam dan makanan berlemak",
    "Lakukan olahraga ringan secara teratur",
    "Pantau tekanan darah secara berkala" ]

  const Hipertensi1Advice: seq<string> := [
    "Konsultasi dengan dokter untuk evaluasi lebih lanjut",
    "Kurangi konsumsi garam dan makanan berlemak",
    "Lakukan olahraga ringan secara teratur",
    "Pantau tekanan darah secara rutin" ]

  const Hipertensi2Advice: seq<string> := [
    "SEGERA konsultasi dengan dokter",
    "Pantau tekanan darah setiap hari",
    "Ikuti anjuran pengobatan dari dokter",
    "Hindari aktivitas berat tanpa pengawasan medis" ]

  const PradiabetesAdvice: seq<string> := [
    "Kurangi konsumsi gula dan karbohidrat sederhana",
    "Tingkatkan aktivitas fisik",
    "Pantau berat badan",
    "Periksa gula darah secara berkala" ]

  const DiabetesAdvice: seq<string> := [
    "Konsultasi dengan dokter untuk penanganan diabetes",
    "Kontrol diet sesuai anjuran dokter",
    "Pantau gula darah secara rutin",
    "Minum obat sesuai resep dokter" ]

  /** The four general tips used when no specific block fired. */
  const GeneralAdvice: seq<string> := [
    "Pertahankan pola hidup sehat",
    "Lakukan pemeriksaan rutin",
    "Konsumsi makanan bergizi seimbang",
    "Olahraga ringan secara teratur" ]

  /** The block pushed for a blood pressure status: at most one of the three tests can match. */
  function BpAdvice(bpStatus: string): seq<string> {
    if bpStatus == LabelNormalTinggi then NormalTinggiAdvice
    else if bpStatus == LabelHipertensi1 then Hipertensi1Advice
    else if bpStatus == LabelHipertensi2 then Hipertensi2Advice
    else []
  }

  /** The block pushed for a blood sugar status. */
  function SugarAdvice(sugarStatus: string): seq<string> {
    if sugarStatus == LabelPradiabetes then PradiabetesAdvice
    else if sugarStatus == LabelDiabetes then DiabetesAdvice
    else []
  }

  /** How many items the blood pressure tests push. */
  function BpAdviceCount(bpStatus: string): nat {
    if bpStatus == LabelNormalTinggi then 3
    else if bpStatus == LabelHipertensi1 || bpStatus == LabelHipertensi2 then 4
    else 0
  }

  /** How many items the blood sugar tests push. */
  function SugarAdviceCount(sugarStatus: string): nat {
    if sugarStatus == LabelPradiabetes || sugarStatus == LabelDiabetes then 4 else 0
  }

  /** The three blood pressure tests of getRecommendations, pushing onto an empty list. */
  method PushBpAdvice(bpStatus: string) returns (recs: seq<string>)
    ensures recs == BpAdvice(bpStatus)
  {
    recs := [];
    if bpStatus == LabelNormalTinggi {
      recs := recs + [NormalTinggiAdvice[0]];
      recs := recs + [NormalTinggiAdvice[1]];
      recs := recs + [NormalTinggiAdvice[2]];
    }
    assert recs == (if bpStatus == LabelNormalTinggi then NormalTinggiAdvice else []);
    var before := recs;
    if bpStatus == LabelHipertensi1 {
      recs := recs + [Hipertensi1Advice[0]];
      recs := recs + [Hipertensi1Advice[1]];
      recs := recs + [Hipertensi1Advice[2]];
      recs := recs + [Hipertensi1Advice[3]];
      assert recs == before + Hipertensi1Advice;
    }
    before := recs;
    if bpStatus == LabelHipertensi2 {
      recs := recs + [Hipertensi2Advice[0]];
      recs := recs + [Hipertensi2Advice[1]];
      recs := recs + [Hipertensi2Advice[2]];
      recs := recs + [Hipertensi2Advice[3]];
      assert recs == before + Hipertensi2Advice;
    }
    assert LabelHipertensi1[19] != LabelHipertensi2[19];
  }

  /** The two blood sugar tests of getRecommendations, pushing onto the list so far. */
  method PushSugarAdvice(recs0: seq<string>, sugarStatus: string) returns (recs: seq<string>)
    ensures recs == recs0 + SugarAdvice(sugarStatus)
  {
    recs := recs0;
    if sugarStatus == LabelPradiabetes {
      recs := recs + [PradiabetesAdvice[0]];
      recs := recs + [PradiabetesAdvice[1]];
      recs := recs + [PradiabetesAdvice[2]];
      recs := recs + [PradiabetesAdvice[3]];
      assert recs == recs0 + PradiabetesAdvice;
    }
    var before := recs;
    if sugarStatus == LabelDiabetes {
      recs := recs + [DiabetesAdvice[0]];
      recs := recs + [DiabetesAdvice[1]];
      recs := recs + [DiabetesAdvice[2]];
      recs := recs + [DiabetesAdvice[3]];
      assert recs == before + DiabetesAdvice;
    }
    assert LabelPradiabetes[0] != LabelDiabetes[0];
  }

  /**
   * getRecommendations: five independent tests push their blocks in order,
   * then the general tips are pushed if nothing was.
   */
  method GetRecommendations(bpStatus: string, sugarStatus: string) returns (recs: seq<string>)
    ensures |recs| > 0
    ensures |recs| == (if BpAdviceCount(bpStatus) + SugarAdviceCount(sugarStatus) == 0 then 4
                       else BpAdviceCount(bpStatus) + SugarAdviceCount(sugarStatus))
    ensures BpAdviceCount(bpStatus) + SugarAdviceCount(sugarStatus) == 0 ==> recs == GeneralAdvice
    ensures BpAdviceCount(bpStatus) + SugarAdviceCount(sugarStatus) > 0 ==>
      recs == BpAdvice(bpStatus) + SugarAdvice(sugarStatus)
    ensures recs == GeneralAdvice <==> GetRiskLevel(bpStatus, sugarStatus) == Low
  {
    recs := PushBpAdvice(bpStatus);
    recs := PushSugarAdvice(recs, sugarStatus);
    AdviceBlocks(bpStatus, sugarStatus);
    assert |recs| == BpAdviceCount(bpStatus) + SugarAdviceCount(sugarStatus);
    if |recs| == 0 {
      recs := recs + [GeneralAdvice[0]];
      recs := recs + [GeneralAdvice[1]];
      recs := recs + [GeneralAdvice[2]];
      recs := recs + [GeneralAdvice[3]];
      assert recs == GeneralAdvice;
    }
  }

  /**
   * The pushed blocks have the counted lengths, are empty exactly at the
   * low risk level, and never coincide with the general tips.
   */
  lemma AdviceBlocks(bpStatus: string, sugarStatus: string)
    ensures |BpAdvice(bpStatus)| == BpAdviceCount(bpStatus)
    ensures |SugarAdvice(sugarStatus)| == SugarAdviceCount(sugarStatus)
    ensures BpAdvice(bpStatus) + SugarAdvice(sugarStatus) == [] <==> GetRiskLevel(bpStatus, sugarStatus) == Low
    ensures BpAdvice(bpStatus) + SugarAdvice(sugarStatus) != GeneralAdvice
  {
    var blocks := BpAdvice(bpStatus) + SugarAdvice(sugarStatus);
    if blocks != [] {
      assert blocks[0] == if BpAdvice(bpStatus) != [] then BpAdvice(bpStatus)[0] else SugarAdvice(sugarStatus)[0];
      assert GeneralAdvice[0] != NormalTinggiAdvice[0] && GeneralAdvice[0] != Hipertensi1Advice[0];
      assert GeneralAdvice[0] != Hipertensi2Advice[0] && GeneralAdvice[0] != PradiabetesAdvice[0];
      assert GeneralAdvice[0] != DiabetesAdvice[0];
    }
  }
}
