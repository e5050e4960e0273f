/**
 * Blood pressure and blood sugar readings of src/utils/healthUtils.ts:
 * the defensive classifier getBloodPressureStatus, the classifier
 * getBloodSugarStatus, the ordered validator validateBloodPressureFormat and
 * parseBloodPressure, which parses only what the validator accepts.
 */
module HealthUtils {
  import opened Wrappers
  import opened JsText

  /** The record every classifier returns: a label, a badge style and a description. */
  datatype HealthStatus = HealthStatus(status: string, color: string, description: string)

  const LabelTidakValid := "Tidak Valid"
  const LabelNormal := "Normal"
  const LabelNormalTinggi := "Normal Tinggi"
  const LabelHipertensi1 := "Hipertensi Tingkat 1"
  const LabelHipertensi2 := "Hipertensi Tingkat 2"
  const LabelPerluEvaluasi := "Perlu Evaluasi"
  const LabelPradiabetes := "Pradiabetes"
  const LabelDiabetes := "Diabetes"

  const GrayBadge := "text-gray-600 bg-gray-100"
  const GreenBadge := "text-green-600 bg-green-100"
  const YellowBadge := "text-yellow-600 bg-yellow-100"
  const OrangeBadge := "text-orange-600 bg-orange-100"
  const RedBadge := "text-red-600 bg-red-100"

  /** Plausibility bounds shared by the classifier and the validator (mmHg). */
  const MinSystolic := 50
  const MaxSystolic := 300
  const MinDiastolic := 30
  const MaxDiastolic := 200

  /** The outcomes of getBloodPressureStatus; the two 'Tidak Valid' returns differ in description. */
  datatype BpCategory =
    | BpTidakValidFormat
    | BpTidakValidRentang
    | BpNormal
    | BpNormalTinggi
    | BpHipertensi1
    | BpHipertensi2
    | BpPerluEvaluasi
  {
    /** One of the four threshold bands. */
    predicate IsBand() {
      BpNormal? || BpNormalTinggi? || BpHipertensi1? || BpHipertensi2?
    }

    /** The status label shown on the badge. */
    function Label(): string {
      match this
      case BpTidakValidFormat => LabelTidakValid
      case BpTidakValidRentang => LabelTidakValid
      case BpNormal => LabelNormal
      case BpNormalTinggi => LabelNormalTinggi
      case BpHipertensi1 => LabelHipertensi1
      case BpHipertensi2 => LabelHipertensi2
      case BpPerluEvaluasi => LabelPerluEvaluasi
    }

    function Color(): string {
      match this
      case BpTidakValidFormat => GrayBadge
      case BpTidakValidRentang => GrayBadge
      case BpNormal => GreenBadge
      case BpNormalTinggi => YellowBadge
      case BpHipertensi1 => OrangeBadge
      case BpHipertensi2 => RedBadge
      case BpPerluEvaluasi => GrayBadge
    }

    function Description(): string {
      match this
      case BpTidakValidFormat => "Format tekanan darah tidak valid (gunakan format: 120/80)"
      case BpTidakValidRentang => "Nilai tekanan darah di luar rentang normal"
      case BpNormal => "Tekanan darah dalam batas normal untuk lansia"
      case BpNormalTinggi => "Tekanan darah sedikit tinggi, perlu pemantauan rutin"
      case BpHipertensi1 => "Hipertensi ringan, perlu konsultasi dokter dan perubahan gaya hidup"
      case BpHipertensi2 => "Hipertensi berat, segera konsultasi dokter untuk penanganan medis"
      case BpPerluEvaluasi => "Nilai tekanan darah perlu evaluasi lebih lanjut"
    }

    function ToStatus(): HealthStatus {
      HealthStatus(Label(), Color(), Description())
    }

    /** Severity rank of a band, for comparing readings. */
    function Rank(): nat
      requires IsBand()
    {
      match this
      case BpNormal => 0
      case BpNormalTinggi => 1
      case BpHipertensi1 => 2
      case BpHipertensi2 => 3
    }
  }

  predicate InPlausibleRange(systolic: int, diastolic: int) {
    MinSystolic <= systolic <= MaxSystolic && MinDiastolic <= diastolic <= MaxDiastolic
  }

  /**
   * The threshold rules, tried in order with the first match winning. The
   * bands overlap, so each later band is stated with the earlier ones
   * excluded; the final 'Perlu Evaluasi' return is never reached.
   */
  function BandOf(systolic: int, diastolic: int): (c: BpCategory)
    ensures c.IsBand()
    ensures c == BpNormal <==> systolic < 130 && diastolic < 80
    ensures c == BpNormalTinggi <==> 130 <= systolic <= 139 || 80 <= diastolic <= 89
    ensures c == BpHipertensi1 <==>
      (140 <= systolic <= 159 || 90 <= diastolic <= 99) && !(130 <= systolic <= 139) && !(80 <= diastolic <= 89)
    ensures c == BpHipertensi2 <==>
      (systolic >= 160 || diastolic >= 100) && !(130 <= systolic <= 159) && !(80 <= diastolic <= 99)
  {
    if systolic < 130 && diastolic < 80 then BpNormal
    else if (systolic >= 130 && systolic <= 139) || (diastolic >= 80 && diastolic <= 89) then BpNormalTinggi
    else if (systolic >= 140 && systolic <= 159) || (diastolic >= 90 && diastolic <= 99) then BpHipertensi1
    else if systolic >= 160 || diastolic >= 100 then BpHipertensi2
    else BpPerluEvaluasi
  }

  /** The two numbers the classifier reads from a "systolic/diastolic" text of exactly two parts. */
  function LooseReading(a: string, b: string): (Option<int>, Option<int>) {
    (ParseInt(Trim(a)), ParseInt(Trim(b)))
  }

  /** The category a two-part reading gets once parsed: range check first, then the bands. */
  function CategoryOfParsed(r: (Option<int>, Option<int>)): BpCategory {
    if r.0.None? || r.1.None? || !InPlausibleRange(r.0.value, r.1.value) then BpTidakValidRentang
    else BandOf(r.0.value, r.1.value)
  }

  /** getBloodPressureStatus, as the category it returns. */
  function ClassifyBloodPressure(bp: string): (c: BpCategory)
    ensures c != BpPerluEvaluasi
    ensures c == BpTidakValidFormat <==> Count(bp, '/') != 1
  {
    if bp == [] || '/' !in bp then BpTidakValidFormat
    else
      var parts := Split(bp, '/');
      if |parts| != 2 then BpTidakValidFormat
      else
        var systolic := ParseInt(Trim(parts[0]));
        var diastolic := ParseInt(Trim(parts[1]));
        if systolic.None? || diastolic.None?
           || systolic.value < MinSystolic || systolic.value > MaxSystolic
           || diastolic.value < MinDiastolic || diastolic.value > MaxDiastolic
        then BpTidakValidRentang
        else BandOf(systolic.value, diastolic.value)
  }

  /**
   * getBloodPressureStatus: 'Perlu Evaluasi' never appears; the label is
   * 'Tidak Valid', with the gray badge, exactly when the text is not read
   * as a reading in one of the four bands.
   */
  function GetBloodPressureStatus(bp: string): (r: HealthStatus)
    ensures r.status != LabelPerluEvaluasi
    ensures r.status == LabelTidakValid <==> !ClassifyBloodPressure(bp).IsBand()
    ensures r.color == GrayBadge <==> r.status == LabelTidakValid
  {
    assert LabelTidakValid[0] != LabelNormal[0] && LabelTidakValid[0] != LabelNormalTinggi[0];
    assert LabelTidakValid[0] != LabelHipertensi1[0] && LabelTidakValid[0] != LabelHipertensi2[0];
    assert LabelPerluEvaluasi[0] != LabelTidakValid[0] && LabelPerluEvaluasi[0] != LabelNormal[0];
    assert LabelPerluEvaluasi[0] != LabelNormalTinggi[0] && LabelPerluEvaluasi[0] != LabelHipertensi1[0];
    assert LabelPerluEvaluasi[0] != LabelHipertensi2[0];
    assert GrayBadge[7] != GreenBadge[7] && GrayBadge[5] != YellowBadge[5];
    assert GrayBadge[5] != OrangeBadge[5] && GrayBadge[5] != RedBadge[5];
    ClassifyBloodPressure(bp).ToStatus()
  }

  /** On a text "a/b" with no other slash, the classifier parses both sides loosely and then applies the bands. */
  lemma ClassifyPair(a: string, b: string)
    requires '/' !in a && '/' !in b
    ensures ClassifyBloodPressure(a + "/" + b) == CategoryOfParsed(LooseReading(a, b))
  {
    SplitPair(a, b, '/');
    assert (a + "/" + b)[|a|] == '/';
  }

  // ---------------------------------------------------------------------
  // Blood sugar

  /** A JavaScript number as it reaches getBloodSugarStatus. */
  datatype JsNumber = NaN | Finite(value: real) | PositiveInfinity | NegativeInfinity

  datatype SugarCategory = SugarTidakValid | SugarNormal | SugarPradiabetes | SugarDiabetes
  {
    function Label(): string {
      match this
      case SugarTidakValid => LabelTidakValid
      case SugarNormal => LabelNormal
      case SugarPradiabetes => LabelPradiabetes
      case SugarDiabetes => LabelDiabetes
    }

    function Color(): string {
      match this
      case SugarTidakValid => GrayBadge
      case SugarNormal => GreenBadge
      case SugarPradiabetes => YellowBadge
      case SugarDiabetes => RedBadge
    }

    function Description(): string {
      match this
      case SugarTidakValid => "Nilai gula darah tidak valid"
      case SugarNormal => "Kadar gula darah normal"
      case SugarPradiabetes => "Kadar gula darah tinggi, berisiko diabetes"
      case SugarDiabetes => "Kadar gula darah tinggi, indikasi diabetes"
    }

    function ToStatus(): HealthStatus {
      HealthStatus(Label(), Color(), Description())
    }

    function Rank(): nat {
      match this
      case SugarTidakValid => 0
      case SugarNormal => 0
      case SugarPradiabetes => 1
      case SugarDiabetes => 2
    }
  }

  /** getBloodSugarStatus, as the category it returns (mg/dL). */
  function ClassifyBloodSugar(sugar: JsNumber): (c: SugarCategory)
    ensures c == SugarTidakValid <==> !(sugar.Finite? && 0.0 <= sugar.value <= 1000.0)
    ensures c == SugarNormal <==> sugar.Finite? && 0.0 <= sugar.value < 100.0
    ensures c == SugarPradiabetes <==> sugar.Finite? && 100.0 <= sugar.value < 126.0
    ensures c == SugarDiabetes <==> sugar.Finite? && 126.0 <= sugar.value <= 1000.0
  {
    if sugar.NaN? then SugarTidakValid
    else if sugar.NegativeInfinity? || (sugar.Finite? && sugar.value < 0.0) then SugarTidakValid
    else if sugar.PositiveInfinity? || sugar.value > 1000.0 then SugarTidakValid
    else if sugar.value < 100.0 then SugarNormal
    else if sugar.value < 126.0 then SugarPradiabetes
    else SugarDiabetes
  }

  /** getBloodSugarStatus: each label is returned exactly on its range of the reading. */
  function GetBloodSugarStatus(sugar: JsNumber): (r: HealthStatus)
    ensures r.status == LabelTidakValid <==> !(sugar.Finite? && 0.0 <= sugar.value <= 1000.0)
    ensures r.status == LabelNormal <==> sugar.Finite? && 0.0 <= sugar.value < 100.0
    ensures r.status == LabelPradiabetes <==> sugar.Finite? && 100.0 <= sugar.value < 126.0
    ensures r.status == LabelDiabetes <==> sugar.Finite? && 126.0 <= sugar.value <= 1000.0
  {
    assert LabelTidakValid[0] != LabelNormal[0] && LabelTidakValid[0] != LabelPradiabetes[0];
    assert LabelTidakValid[0] != LabelDiabetes[0] && LabelNormal[0] != LabelPradiabetes[0];
    assert LabelNormal[0] != LabelDiabetes[0] && LabelPradiabetes[0] != LabelDiabetes[0];
    ClassifyBloodSugar(sugar).ToStatus()
  }

  /** Within the plausible range a higher reading never gets a milder band. */
  lemma SugarBandMonotone(x: real, y: real)
    requires 0.0 <= x <= y <= 1000.0
    ensures ClassifyBloodSugar(Finite(x)).Rank() <= ClassifyBloodSugar(Finite(y)).Rank()
  {
  }

  // ---------------------------------------------------------------------
  // Validation and parsing

  /** The six messages of validateBloodPressureFormat; Text() is the string shown to the user. */
  datatype ValidationMessage =
    | MsgRequired
    | MsgFormat
    | MsgSystolicRange
    | MsgDiastolicRange
    | MsgSystolicNotHigher
    | MsgValid
  {
    function Text(): string {
      match this
      case MsgRequired => "Tekanan darah harus diisi"
      case MsgFormat => "Format harus: sistolik/diastolik (contoh: 120/80)"
      case MsgSystolicRange => "Tekanan sistolik harus antara 50-300 mmHg"
      case MsgDiastolicRange => "Tekanan diastolik harus antara 30-200 mmHg"
      case MsgSystolicNotHigher => "Tekanan sistolik harus lebih tinggi dari diastolik"
      case MsgValid => "Format tekanan darah valid"
    }
  }

  datatype ValidationResult = ValidationResult(isValid: bool, message: ValidationMessage)

  /** \d{2,3} */
  predicate IsDigitRun(s: string) { 2 <= |s| <= 3 && AllDigits(s) }

  /** The validator's shape /^\d{2,3}\/\d{2,3}$/: digits never contain '/', so the split point is the first slash. */
  predicate MatchesBpPattern(t: string) {
    '/' in t && IsDigitRun(t[..FirstIndex(t, '/')]) && IsDigitRun(t[FirstIndex(t, '/') + 1..])
  }

  /** The two numbers written in a text that matches the shape. */
  function PatternValues(t: string): (int, int)
    requires MatchesBpPattern(t)
  {
    var k := FirstIndex(t, '/');
    (DecimalValue(t[..k]), DecimalValue(t[k + 1..]))
  }

  lemma NoSlashInPadded(pad: string, run: string)
    requires AllWhitespace(pad) && IsDigitRun(run)
    ensures '/' !in pad + run && '/' !in run + pad
  {
    assert forall i :: 0 <= i < |pad + run| ==> IsJsWhitespace((pad + run)[i]) || IsDigit((pad + run)[i]);
    assert forall i :: 0 <= i < |run + pad| ==> IsJsWhitespace((run + pad)[i]) || IsDigit((run + pad)[i]);
  }

  lemma ParseLeftPadded(pre: string, a: string)
    requires AllWhitespace(pre) && IsDigitRun(a)
    ensures ParseInt(Trim(pre + a)) == Some(DecimalValue(a))
  {
    TrimPadded(pre, a, []);
    assert pre + a + [] == pre + a;
    ParseIntDigits(a);
  }

  lemma ParseRightPadded(c: string, post: string)
    requires AllWhitespace(post) && IsDigitRun(c)
    ensures ParseInt(Trim(c + post)) == Some(DecimalValue(c))
  {
    TrimPadded([], c, post);
    assert [] + c + post == c + post;
    ParseIntDigits(c);
  }

  /** A digit run padded with whitespace, a slash, and another padded digit run. */
  lemma PaddedPairSplit(pre: string, a: string, c: string, post: string)
    requires AllWhitespace(pre) && AllWhitespace(post) && IsDigitRun(a) && IsDigitRun(c)
    ensures Split(pre + a + "/" + c + post, '/') == [pre + a, c + post]
    ensures ParseInt(Trim(pre + a)) == Some(DecimalValue(a))
    ensures ParseInt(Trim(c + post)) == Some(DecimalValue(c))
  {
    NoSlashInPadded(pre, a);
    NoSlashInPadded(post, c);
    assert pre + a + "/" + c + post == (pre + a) + "/" + (c + post);
    SplitPair(pre + a, c + post, '/');
    ParseLeftPadded(pre, a);
    ParseRightPadded(c, post);
  }

  /** A text with the shape, padded with whitespace, splits at its slash into the two padded runs. */
  lemma PaddedPatternSplit(pre: string, t: string, post: string)
    requires AllWhitespace(pre) && AllWhitespace(post) && MatchesBpPattern(t)
    ensures var parts := Split(pre + t + post, '/');
      |parts| == 2
      && ParseInt(Trim(parts[0])) == Some(PatternValues(t).0)
      && ParseInt(Trim(parts[1])) == Some(PatternValues(t).1)
  {
    var k := FirstIndex(t, '/');
    var a, c := t[..k], t[k + 1..];
    assert t == a + "/" + c;
    assert pre + t + post == pre + a + "/" + c + post;
    PaddedPairSplit(pre, a, c, post);
  }

  /**
   * When the trimmed text has the shape, the untrimmed text still splits in
   * two at its one slash and each side, trimmed and parsed, is the number the
   * shape shows.
   */
  lemma PatternSplit(bp: string)
    requires MatchesBpPattern(Trim(bp))
    ensures var parts := Split(bp, '/');
      |parts| == 2
      && ParseInt(Trim(parts[0])) == Some(PatternValues(Trim(bp)).0)
      && ParseInt(Trim(parts[1])) == Some(PatternValues(Trim(bp)).1)
  {
    var b := TrimBounds(bp);
    TrimDecompose(bp);
    PaddedPatternSplit(bp[..b.0], Trim(bp), bp[b.1..]);
  }

  /** validateBloodPressureFormat: five checks in a fixed order, the first failing one names the message. */
  function ValidateBloodPressureFormat(bp: string): (r: ValidationResult)
    ensures r.isValid <==> r.message == MsgValid
    ensures AllWhitespace(bp) ==> r == ValidationResult(false, MsgRequired)
    ensures !AllWhitespace(bp) && !MatchesBpPattern(Trim(bp)) ==> r == ValidationResult(false, MsgFormat)
    ensures MatchesBpPattern(Trim(bp)) ==>
      var (s, d) := PatternValues(Trim(bp));
      r.message == (if !(MinSystolic <= s <= MaxSystolic) then MsgSystolicRange
                    else if !(MinDiastolic <= d <= MaxDiastolic) then MsgDiastolicRange
                    else if s <= d then MsgSystolicNotHigher
                    else MsgValid)
  {
    var t := Trim(bp);
    if bp == [] || t == [] then ValidationResult(false, MsgRequired)
    else if !MatchesBpPattern(t) then ValidationResult(false, MsgFormat)
    else
      PatternSplit(bp);
      var parts := Split(bp, '/');
      var systolic := ParseInt(Trim(parts[0])).value;
      var diastolic := ParseInt(Trim(parts[1])).value;
      if systolic < MinSystolic || systolic > MaxSystolic then ValidationResult(false, MsgSystolicRange)
      else if diastolic < MinDiastolic || diastolic > MaxDiastolic then ValidationResult(false, MsgDiastolicRange)
      else if systolic <= diastolic then ValidationResult(false, MsgSystolicNotHigher)
      else ValidationResult(true, MsgValid)
  }

  datatype BloodPressure = BloodPressure(systolic: int, diastolic: int)

  /** A reading the validator accepts: the shape, both ranges and systolic above diastolic. */
  predicate AcceptedReading(v: BloodPressure) {
    InPlausibleRange(v.systolic, v.diastolic) && v.systolic > v.diastolic
  }

  /** parseBloodPressure: null exactly when validation fails, otherwise the two numbers of the text. */
  function ParseBloodPressure(bp: string): (r: Option<BloodPressure>)
    ensures r.None? <==> !ValidateBloodPressureFormat(bp).isValid
    ensures r.Some? ==> MatchesBpPattern(Trim(bp)) && AcceptedReading(r.value)
    ensures r.Some? ==> MatchesBpPattern(Trim(bp)) && r.value == BloodPressure(PatternValues(Trim(bp)).0, PatternValues(Trim(bp)).1)
  {
    if !ValidateBloodPressureFormat(bp).isValid then None
    else
      PatternSplit(bp);
      var parts := Split(bp, '/');
      Some(BloodPressure(ParseInt(Trim(parts[0])).value, ParseInt(Trim(parts[1])).value))
  }

  /** Whatever the validator accepts, the classifier reads the same two numbers and puts in a band. */
  lemma AcceptedIsClassified(bp: string)
    requires ValidateBloodPressureFormat(bp).isValid
    ensures var v := ParseBloodPressure(bp).value;
      ClassifyBloodPressure(bp) == BandOf(v.systolic, v.diastolic) && ClassifyBloodPressure(bp).IsBand()
  {
    PatternSplit(bp);
    ClassifyTwoParts(bp, Split(bp, '/'));
  }

  /** A text with exactly one slash is classified from its two loosely parsed sides. */
  lemma ClassifyTwoParts(bp: string, parts: seq<string>)
    requires parts == Split(bp, '/') && |parts| == 2
    ensures ClassifyBloodPressure(bp) == CategoryOfParsed(LooseReading(parts[0], parts[1]))
  {
    assert ClassifyBloodPressure(bp) != BpTidakValidFormat;
  }

  lemma TrimUnpadded(s: string)
    requires s != [] && !IsJsWhitespace(s[0]) && !IsJsWhitespace(s[|s| - 1])
    ensures Trim(s) == s
  {
    TrimPadded([], s, []);
    assert [] + s + [] == s;
  }

  /** In digits, a slash and anything, the first slash is the one after the digits. */
  lemma FirstSlashAfterDigits(a: string, c: string)
    requires AllDigits(a)
    ensures FirstIndex(a + "/" + c, '/') == |a|
  {
    var t := a + "/" + c;
    assert t[|a|] == '/';
    assert forall i :: 0 <= i < |a| ==> t[i] == a[i];
  }

  /** Two digit runs joined by a slash have the shape, trim to themselves and show their own values. */
  lemma DigitPairShape(a: string, c: string)
    requires IsDigitRun(a) && IsDigitRun(c)
    ensures var t := a + "/" + c;
      Trim(t) == t && MatchesBpPattern(t) && PatternValues(t) == (DecimalValue(a), DecimalValue(c))
  {
    var t := a + "/" + c;
    FirstSlashAfterDigits(a, c);
    DigitPairSides(a, c, t);
    DigitPairUnpadded(a, c, t);
  }

  /** The two sides around the first slash of a digit pair are the two runs. */
  lemma DigitPairSides(a: string, c: string, t: string)
    requires IsDigitRun(a) && IsDigitRun(c) && t == a + "/" + c && FirstIndex(t, '/') == |a|
    ensures MatchesBpPattern(t) && PatternValues(t) == (DecimalValue(a), DecimalValue(c))
  {
    assert t[..|a|] == a;
    assert t[|a| + 1..] == c;
  }

  /** A digit pair has no whitespace at either end. */
  lemma DigitPairUnpadded(a: string, c: string, t: string)
    requires IsDigitRun(a) && IsDigitRun(c) && t == a + "/" + c
    ensures Trim(t) == t
  {
    assert t[0] == a[0] && IsDigit(a[0]);
    assert t[|t| - 1] == c[|c| - 1] && IsDigit(c[|c| - 1]);
    TrimUnpadded(t);
  }

  /** The text `${systolic}/${diastolic}` of a pair of two- or three-digit numbers. */
  function FormatReading(v: BloodPressure): (t: string)
    requires 10 <= v.systolic <= 999 && 10 <= v.diastolic <= 999
    ensures Trim(t) == t && MatchesBpPattern(t) && PatternValues(t) == (v.systolic, v.diastolic)
  {
    DigitPairShape(Show(v.systolic), Show(v.diastolic));
    Show(v.systolic) + "/" + Show(v.diastolic)
  }

  /** A text that is its own trim, has the shape and shows an accepted pair validates and parses to that pair. */
  lemma ShapedAcceptedParses(t: string, v: BloodPressure)
    requires Trim(t) == t && MatchesBpPattern(t) && PatternValues(t) == (v.systolic, v.diastolic)
    requires AcceptedReading(v)
    ensures ValidateBloodPressureFormat(t).isValid
    ensures ParseBloodPressure(t) == Some(v)
  {
    var r := ValidateBloodPressureFormat(t);
    assert r.message == MsgValid;
  }

  /** Writing an accepted pair as "systolic/diastolic" and parsing it back gives the pair; the classifier agrees. */
  lemma FormatThenParse(v: BloodPressure)
    requires AcceptedReading(v)
    ensures ValidateBloodPressureFormat(FormatReading(v)).isValid
    ensures ParseBloodPressure(FormatReading(v)) == Some(v)
    ensures ClassifyBloodPressure(FormatReading(v)) == BandOf(v.systolic, v.diastolic)
  {
    var t := FormatReading(v);
    ShapedAcceptedParses(t, v);
    AcceptedIsClassified(t);
  }

  /** Any text whose trimmed form has the shape is classified from the two numbers the shape shows. */
  lemma PatternIsClassified(bp: string)
    requires MatchesBpPattern(Trim(bp))
    ensures ClassifyBloodPressure(bp)
         == CategoryOfParsed((Some(PatternValues(Trim(bp)).0), Some(PatternValues(Trim(bp)).1)))
  {
    PatternSplit(bp);
    ClassifyTwoParts(bp, Split(bp, '/'));
  }

  /** A well-shaped pair in range whose systolic value does not exceed the diastolic one ("80/120") fails only the last rule. */
  lemma InvertedPairMessage(t: string, v: BloodPressure)
    requires Trim(t) == t && MatchesBpPattern(t) && PatternValues(t) == (v.systolic, v.diastolic)
    requires InPlausibleRange(v.systolic, v.diastolic) && v.systolic <= v.diastolic
    ensures ValidateBloodPressureFormat(t) == ValidationResult(false, MsgSystolicNotHigher)
  {
    var r := ValidateBloodPressureFormat(t);
    assert r.message == MsgSystolicNotHigher;
  }

  /**
   * A well-shaped pair in range whose systolic value does not exceed the
   * diastolic one ("80/120") fails only the last rule, yet the classifier
   * still gives it a band.
   */
  lemma InvertedPairRejected(v: BloodPressure)
    requires InPlausibleRange(v.systolic, v.diastolic) && v.systolic <= v.diastolic
    ensures ValidateBloodPressureFormat(FormatReading(v)) == ValidationResult(false, MsgSystolicNotHigher)
    ensures ClassifyBloodPressure(FormatReading(v)) == BandOf(v.systolic, v.diastolic)
  {
    var t := FormatReading(v);
    InvertedPairMessage(t, v);
    PatternIsClassified(t);
  }

  /** A run of digits followed by text that starts with no digit and ends with no whitespace parses to the run's value. */
  lemma ParseDigitsThenJunk(ds: string, junk: string)
    requires ds != [] && AllDigits(ds)
    requires junk != [] && !IsDigit(junk[0]) && junk[0] != 'x' && junk[0] != 'X'
    requires !IsJsWhitespace(junk[|junk| - 1])
    ensures ParseInt(Trim(ds + junk)) == Some(DecimalValue(ds))
  {
    var a := ds + junk;
    assert a[0] == ds[0] && a[|a| - 1] == junk[|junk| - 1];
    TrimUnpadded(a);
    ParseIntDigitsPrefix(ds, junk);
  }

  lemma DigitsHaveNoSlash(ds: string)
    requires AllDigits(ds)
    ensures '/' !in ds
  {
    assert forall i :: 0 <= i < |ds| ==> IsDigit(ds[i]);
  }

  /** Digits, then a non-digit, before the slash: the text does not have the validator's shape. */
  lemma JunkBreaksPattern(a: string, ds2: string, k: nat)
    requires '/' !in a && k < |a| && !IsDigit(a[k]) && ds2 != [] && AllDigits(ds2)
    ensures !MatchesBpPattern(a + "/" + ds2)
  {
    var t := a + "/" + ds2;
    assert FirstIndex(t, '/') == |a| by {
      var i := FirstIndex(t, '/');
      assert t[|a|] == '/';
      assert forall j :: 0 <= j < |a| ==> t[j] == a[j];
      assert !(i < |a|);
    }
    assert t[..|a|] == a;
  }

  lemma LenientClassify(a: string, ds: string, ds2: string)
    requires '/' !in a && ds2 != [] && AllDigits(ds2)
    requires AllDigits(ds) && ParseInt(Trim(a)) == Some(DecimalValue(ds))
    ensures ClassifyBloodPressure(a + "/" + ds2)
         == CategoryOfParsed((Some(DecimalValue(ds)), Some(DecimalValue(ds2))))
  {
    DigitsHaveNoSlash(ds2);
    assert IsDigit(ds2[0]) && IsDigit(ds2[|ds2| - 1]);
    TrimUnpadded(ds2);
    ParseIntDigits(ds2);
    assert LooseReading(a, ds2) == (Some(DecimalValue(ds)), Some(DecimalValue(ds2)));
    ClassifyPair(a, ds2);
  }

  lemma LenientRejected(a: string, ds2: string, k: nat)
    requires '/' !in a && k < |a| && !IsDigit(a[k]) && IsDigit(a[0]) && ds2 != [] && AllDigits(ds2)
    ensures ValidateBloodPressureFormat(a + "/" + ds2) == ValidationResult(false, MsgFormat)
  {
    var t := a + "/" + ds2;
    assert t[0] == a[0] && t[|t| - 1] == ds2[|ds2| - 1];
    TrimUnpadded(t);
    JunkBreaksPattern(a, ds2, k);
  }

  /**
   * The classifier is more lenient than the validator: parseInt stops at the
   * first non-digit, so "120abc/80" is read as 120/80 and classified, while
   * the validator rejects its shape.
   */
  lemma LenientClassifier(ds: string, junk: string, ds2: string)
    requires ds != [] && AllDigits(ds) && ds2 != [] && AllDigits(ds2)
    requires junk != [] && !IsDigit(junk[0]) && junk[0] != 'x' && junk[0] != 'X'
    requires '/' !in junk && !IsJsWhitespace(junk[|junk| - 1])
    ensures ClassifyBloodPressure(ds + junk + "/" + ds2)
         == CategoryOfParsed((Some(DecimalValue(ds)), Some(DecimalValue(ds2))))
    ensures ValidateBloodPressureFormat(ds + junk + "/" + ds2) == ValidationResult(false, MsgFormat)
  {
    var a := ds + junk;
    assert ds + junk + "/" + ds2 == a + "/" + ds2;
    DigitsHaveNoSlash(ds);
    assert '/' !in a by {
      assert forall i :: 0 <= i < |a| ==> a[i] in ds || a[i] in junk;
    }
    ParseDigitsThenJunk(ds, junk);
    LenientClassify(a, ds, ds2);
    assert a[|ds|] == junk[0] && a[0] == ds[0];
    LenientRejected(a, ds2, |ds|);
  }

  /** 145/75 is stage 1 hypertension but 145/85 only 'Normal Tinggi': the ordered bands are not monotone. */
  lemma BandsNotMonotone()
    ensures BandOf(145, 75) == BpHipertensi1 && BandOf(145, 85) == BpNormalTinggi
    ensures BandOf(145, 75).Rank() > BandOf(145, 85).Rank()
  {
  }

  /** The boundary readings 129/79 to 159/100 land where the ordered rules put them. */
  lemma BandBoundaries()
    ensures BandOf(129, 79) == BpNormal
    ensures BandOf(130, 79) == BpNormalTinggi && BandOf(129, 80) == BpNormalTinggi && BandOf(139, 89) == BpNormalTinggi
    ensures BandOf(120, 80) == BpNormalTinggi && BandOf(145, 85) == BpNormalTinggi
    ensures BandOf(140, 89) == BpNormalTinggi && BandOf(140, 79) == BpHipertensi1
    ensures BandOf(159, 99) == BpHipertensi1
    ensures BandOf(160, 99) == BpHipertensi1 && BandOf(160, 79) == BpHipertensi2
    ensures BandOf(159, 100) == BpHipertensi1 && BandOf(125, 100) == BpHipertensi2
  {
  }
}
