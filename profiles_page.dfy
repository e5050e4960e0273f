/**
 * The public list page src/app/profiles/page.tsx: the age category badge,
 * the null branch of formatDate, and the four statistics cards (total,
 * active in the last 30 days, average age, total checkups).
 */
module ProfilesPage {
  import opened Wrappers
  import opened JsText
  import opened Reduce
  import AdminProfiles

  datatype ProfileSummary = ProfileSummary(
    id: int,
    nama: string,
    usia: int,
    alamat: string,
    riwayatMedis: string,
    createdAt: string,
    totalCheckups: int,
    lastCheckup: DateField)

  // ---------------------------------------------------------------------
  // Age category

  datatype AgeCategory = PraLansia | LansiaMuda | LansiaMadya | LansiaTua
  {
    function Category(): string {
      match this
      case PraLansia => "Pra-Lansia"
      case LansiaMuda => "Lansia Muda"
      case LansiaMadya => "Lansia Madya"
      case LansiaTua => "Lansia Tua"
    }

    function Color(): string {
      match this
      case PraLansia => "text-blue-600 bg-blue-100"
      case LansiaMuda => "text-green-600 bg-green-100"
      case LansiaMadya => "text-yellow-600 bg-yellow-100"
      case LansiaTua => "text-red-600 bg-red-100"
    }

    /** Position from youngest to oldest band. */
    function Rank(): nat {
      match this
      case PraLansia => 0
      case LansiaMuda => 1
      case LansiaMadya => 2
      case LansiaTua => 3
    }
  }

  /** getAgeCategory: the ages 60, 70 and 80 open the older band. */
  function GetAgeCategory(age: int): (c: AgeCategory)
    ensures c == PraLansia <==> age < 60
    ensures c == LansiaMuda <==> 60 <= age < 70
    ensures c == LansiaMadya <==> 70 <= age < 80
    ensures c == LansiaTua <==> 80 <= age
  {
    if age < 60 then PraLansia
    else if age < 70 then LansiaMuda
    else if age < 80 then LansiaMadya
    else LansiaTua
  }

  /** Growing older never moves a person to a younger band, and each decade moves at most one band. */
  lemma AgeCategoryMonotone(a: int, b: int)
    requires a <= b
    ensures GetAgeCategory(a).Rank() <= GetAgeCategory(b).Rank()
    ensures b - a < 10 ==> GetAgeCategory(b).Rank() <= GetAgeCategory(a).Rank() + 1
  {
  }

  // ---------------------------------------------------------------------
  // formatDate

  /** What formatDate shows: 'Belum ada', or the date written in the Indonesian locale. */
  datatype DateDisplay = BelumAda | Localised(dateString: string)

  /** formatDate: null and the empty string show 'Belum ada'; any other string is handed to the locale formatter. */
  function FormatDate(dateString: Option<string>): (r: DateDisplay)
    ensures r == BelumAda <==> dateString == None || dateString == Some([])
    ensures r.Localised? ==> dateString == Some(r.dateString)
  {
    if dateString.None? || dateString.value == [] then BelumAda
    else Localised(dateString.value)
  }

  function DateDisplayText(d: DateDisplay): string {
    match d
    case BelumAda => "Belum ada"
    case Localised(s) => s
  }

  // ---------------------------------------------------------------------
  // Statistics

  function Ages(ps: seq<ProfileSummary>): (xs: seq<int>)
    ensures |xs| == |ps| && forall i :: 0 <= i < |ps| ==> xs[i] == ps[i].usia
  {
    seq(|ps|, i requires 0 <= i < |ps| => ps[i].usia)
  }

  function Checkups(ps: seq<ProfileSummary>): (xs: seq<int>)
    ensures |xs| == |ps| && forall i :: 0 <= i < |ps| ==> xs[i] == ps[i].totalCheckups
  {
    seq(|ps|, i requires 0 <= i < |ps| => ps[i].totalCheckups)
  }

  /** Math.round(s / n) for n > 0: the nearest integer, halves rounded up. */
  function RoundDiv(s: int, n: int): (r: int)
    requires n > 0
    ensures 2 * n * r <= 2 * s + n < 2 * n * r + 2 * n
  {
    (2 * s + n) / (2 * n)
  }

  /** The 'Rata-rata Usia' card: 0 for no profiles, otherwise the sum of ages over the count, rounded. */
  function AverageAge(ps: seq<ProfileSummary>): (r: int)
    ensures |ps| == 0 ==> r == 0
    ensures |ps| > 0 ==> 2 * |ps| * r <= 2 * Sum(Ages(ps)) + |ps| < 2 * |ps| * r + 2 * |ps|
  {
    if |ps| > 0 then RoundDiv(ReduceSum(0, Ages(ps)), |ps|) else 0
  }

  /** n * a < n * b with n > 0 gives a < b. */
  lemma MulCancel(n: int, a: int, b: int)
    requires n > 0 && n * a < n * b
    ensures a < b
  {
  }

  /** A rounded quotient of a sum between n*lo and n*hi lies between lo and hi. */
  lemma RoundDivBetween(s: int, n: int, lo: int, hi: int)
    requires n > 0 && n * lo <= s <= n * hi
    ensures lo <= RoundDiv(s, n) <= hi
  {
    var r := RoundDiv(s, n);
    assert 2 * n * r < 2 * n * hi + 2 * n;
    assert (2 * n) * r < (2 * n) * (hi + 1);
    MulCancel(2 * n, r, hi + 1);
    assert 2 * n * lo < 2 * n * r + 2 * n;
    assert (2 * n) * (lo - 1) < (2 * n) * r;
    MulCancel(2 * n, lo - 1, r);
  }

  /** The average lies between the youngest and the oldest age. */
  lemma AverageAgeBetween(ps: seq<ProfileSummary>, lo: int, hi: int)
    requires |ps| > 0
    requires forall i :: 0 <= i < |ps| ==> lo <= ps[i].usia <= hi
    ensures lo <= AverageAge(ps) <= hi
  {
    SumBetween(Ages(ps), lo, hi);
    RoundDivBetween(Sum(Ages(ps)), |ps|, lo, hi);
  }

  /** The 'Total Pemeriksaan' card: the reduce over total_checkups, which is their sum. */
  function TotalCheckups(ps: seq<ProfileSummary>): (r: int)
    ensures r == Sum(Checkups(ps))
  {
    ReduceSum(0, Checkups(ps))
  }

  /** The total over two lists joined is the sum of their totals. */
  lemma TotalCheckupsAppend(a: seq<ProfileSummary>, b: seq<ProfileSummary>)
    ensures TotalCheckups(a + b) == TotalCheckups(a) + TotalCheckups(b)
  {
    assert Checkups(a + b) == Checkups(a) + Checkups(b);
    SumAppend(Checkups(a), Checkups(b));
  }

  /** last_checkup is set and later than now minus 30 days (an unreadable date compares false). */
  predicate CheckedWithin30Days(d: DateField, nowMs: int): (b: bool)
    ensures !d.At? ==> !b
    ensures d.At? ==> (b <==> nowMs - d.ms < 30 * MsPerDay)
  {
    d.At? && d.ms > nowMs - 30 * MsPerDay
  }

  /** The 'Aktif Bulan Ini' card. */
  function ActiveCount(ps: seq<ProfileSummary>, nowMs: int): (n: nat)
    ensures n <= |ps|
    ensures n == |ps| <==> forall i :: 0 <= i < |ps| ==> CheckedWithin30Days(ps[i].lastCheckup, nowMs)
  {
    CountIf(ps, (p: ProfileSummary) => CheckedWithin30Days(p.lastCheckup, nowMs))
  }

  /**
   * The admin list counts a checkup as active when its whole-day difference
   * is at most 30, which admits anything less than 31 days old; this page
   * admits only what is less than 30 days old. So every checkup active here
   * is active there, and one exactly 30 days old is active only there.
   */
  lemma ActiveWindowsDiffer(t: int, nowMs: int)
    ensures AdminProfiles.IsActive(AdminProfiles.DaysDiffOf(At(t), nowMs)) <==> t > nowMs - 31 * MsPerDay
    ensures CheckedWithin30Days(At(t), nowMs) ==> AdminProfiles.IsActive(AdminProfiles.DaysDiffOf(At(t), nowMs))
    ensures t == nowMs - 30 * MsPerDay ==>
      !CheckedWithin30Days(At(t), nowMs) && AdminProfiles.IsActive(AdminProfiles.DaysDiffOf(At(t), nowMs))
  {
    var d := AdminProfiles.DaysSince(nowMs, t);
    if d <= 30 {
      assert d * MsPerDay <= 30 * MsPerDay;
    } else {
      assert (d - 31) * MsPerDay >= 0;
    }
  }
}
