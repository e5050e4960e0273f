/**
 * The admin dashboard src/app/admin/page.tsx: the four statistics that
 * fetchDashboardData computes from the fetched profiles, the page state it
 * updates, and the "scroll for more" hint under the recent-profiles list.
 * The current time and the local calendar reach this logic as inputs.
 */
module AdminDashboard {
  import opened Wrappers
  import opened JsText
  import opened Reduce

  /** The two fields of a fetched profile the statistics read; a null, missing or NaN count is None. */
  datatype DashboardProfile = DashboardProfile(totalCheckups: Option<int>, lastCheckup: DateField)

  datatype DashboardStats = DashboardStats(
    totalLansia: nat,
    totalPemeriksaan: int,
    lansiaAktif: nat,
    pemeriksaanBulanIni: nat)

  const InitialStats := DashboardStats(0, 0, 0, 0)

  /** The local calendar: the month (0 to 11) and full year of an instant, as getMonth and getFullYear give them. */
  type Calendar = int -> (int, int)

  /** profile.total_checkups || 0. */
  function CheckupsOrZero(p: DashboardProfile): int {
    if p.totalCheckups.Some? then p.totalCheckups.value else 0
  }

  function CheckupCounts(ps: seq<DashboardProfile>): (xs: seq<int>)
    ensures |xs| == |ps| && forall i :: 0 <= i < |ps| ==> xs[i] == CheckupsOrZero(ps[i])
  {
    seq(|ps|, i requires 0 <= i < |ps| => CheckupsOrZero(ps[i]))
  }

  /** new Date(last_checkup).getTime(): null is the epoch, an unreadable string is NaN (None). */
  function TimeOf(d: DateField): Option<int> {
    match d
    case Missing => Some(0)
    case Invalid => None
    case At(ms) => Some(ms)
  }

  /**
   * lastCheckup > thirtyDaysAgo; any comparison with NaN is false. A null
   * date reads as the epoch, so it counts only in the first 30 days after it.
   */
  predicate IsActive(p: DashboardProfile, nowMs: int): (b: bool)
    ensures p.lastCheckup.Invalid? ==> !b
    ensures p.lastCheckup.Missing? ==> (b <==> nowMs < 30 * MsPerDay)
    ensures p.lastCheckup.At? ==> (b <==> nowMs - p.lastCheckup.ms < 30 * MsPerDay)
  {
    var t := TimeOf(p.lastCheckup);
    t.Some? && t.value > nowMs - 30 * MsPerDay
  }

  /** A set last_checkup whose month and year are the current ones; null and unreadable dates never count. */
  predicate CheckedThisMonth(p: DashboardProfile, nowMs: int, calendar: Calendar): (b: bool)
    ensures !p.lastCheckup.At? ==> !b
    ensures p.lastCheckup.At? ==> (b <==> calendar(p.lastCheckup.ms) == calendar(nowMs))
  {
    p.lastCheckup.At? && calendar(p.lastCheckup.ms) == calendar(nowMs)
  }

  /** The reduce behind pemeriksaanBulanIni: one more for each profile checked this month. */
  function MonthReduce(sum: int, ps: seq<DashboardProfile>, nowMs: int, calendar: Calendar): (r: int)
    ensures r == sum + CountIf(ps, p => CheckedThisMonth(p, nowMs, calendar))
    decreases |ps|
  {
    if ps == [] then sum
    else MonthReduce(if CheckedThisMonth(ps[0], nowMs, calendar) then sum + 1 else sum, ps[1..], nowMs, calendar)
  }

  /** The statistics of lines 44-63 of the page, for the profiles fetched at time nowMs. */
  function ComputeStats(ps: seq<DashboardProfile>, nowMs: int, calendar: Calendar): (s: DashboardStats)
    ensures s.totalLansia == |ps|
    ensures s.totalPemeriksaan == Sum(CheckupCounts(ps))
    ensures s.lansiaAktif == CountIf(ps, p => IsActive(p, nowMs)) <= s.totalLansia
    ensures s.pemeriksaanBulanIni == CountIf(ps, p => CheckedThisMonth(p, nowMs, calendar)) <= s.totalLansia
  {
    DashboardStats(
      |ps|,
      ReduceSum(0, CheckupCounts(ps)),
      CountIf(ps, p => IsActive(p, nowMs)),
      MonthReduce(0, ps, nowMs, calendar))
  }

  /** The total is unaffected by profiles without a checkup count. */
  lemma {:induction false} MissingCountsAddNothing(ps: seq<DashboardProfile>, p: DashboardProfile)
    requires p.totalCheckups.None?
    ensures Sum(CheckupCounts(ps + [p])) == Sum(CheckupCounts(ps))
  {
    assert CheckupCounts(ps + [p]) == CheckupCounts(ps) + [0];
    SumAppend(CheckupCounts(ps), [0]);
  }

  /**
   * Once more than 30 days have passed since the epoch, a null last_checkup
   * (read as the epoch) is never counted as active, and neither is an
   * unreadable one.
   */
  lemma OnlyDatedProfilesAreActive(ps: seq<DashboardProfile>, nowMs: int)
    requires nowMs >= 30 * MsPerDay
    ensures CountIf(ps, p => IsActive(p, nowMs))
         <= CountIf(ps, (p: DashboardProfile) => p.lastCheckup.At?)
  {
    CountIfMonotone(ps, p => IsActive(p, nowMs), (p: DashboardProfile) => p.lastCheckup.At?);
  }

  /** What the page receives: the request failed, or it answered with a profiles field that may be absent. */
  datatype FetchResult = Failed | Loaded(profiles: Option<seq<DashboardProfile>>)

  /** profilesResponse.data.profiles || []. */
  function ProfilesOf(r: FetchResult): seq<DashboardProfile>
    requires r.Loaded?
  {
    if r.profiles.Some? then r.profiles.value else []
  }

  /** The page state fetchDashboardData writes. */
  class Dashboard {
    var stats: DashboardStats
    var isLoading: bool
    var recentProfiles: seq<DashboardProfile>

    /** The initial state: zero statistics, loading, no profiles. */
    constructor()
      ensures stats == InitialStats && isLoading && recentProfiles == []
    {
      stats := InitialStats;
      isLoading := true;
      recentProfiles := [];
    }

    /**
     * fetchDashboardData: on success the statistics and the list are replaced,
     * on failure they are kept; either way loading ends.
     */
    method FetchDashboardData(response: FetchResult, nowMs: int, calendar: Calendar)
      modifies this
      ensures !isLoading
      ensures response.Failed? ==> stats == old(stats) && recentProfiles == old(recentProfiles)
      ensures response.Loaded? ==>
        stats == ComputeStats(ProfilesOf(response), nowMs, calendar)
        && recentProfiles == ProfilesOf(response)
      ensures response.Loaded? ==> stats.totalLansia == |recentProfiles|
    {
      isLoading := true;
      if response.Loaded? {
        var profiles := ProfilesOf(response);
        stats := ComputeStats(profiles, nowMs, calendar);
        recentProfiles := profiles;
      }
      isLoading := false;
    }

    /** The scroll indicator: shown when not loading and more than four profiles are listed, with the number not in view. */
    function ScrollHint(): (more: Option<nat>)
      reads this
      ensures more.Some? <==> !isLoading && |recentProfiles| > 4
      ensures more.Some? ==> more.value > 0 && more.value + 4 == |recentProfiles|
    {
      if !isLoading && |recentProfiles| > 4 then Some(|recentProfiles| - 4) else None
    }
  }
}
