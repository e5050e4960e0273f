/**
 * The pure logic of the admin list page src/app/admin/profiles/page.tsx:
 * the search filter, the sort by a chosen key and direction, the
 * days-since-last-checkup status badge, and the two summary cards.
 * The current time reaches this logic as a number of milliseconds.
 */
module AdminProfiles {
  import opened Wrappers
  import opened JsText
  import opened Reduce

  datatype Profile = Profile(
    id: int,
    nama: string,
    usia: int,
    alamat: string,
    riwayatMedis: string,
    totalCheckups: int,
    lastCheckup: DateField,
    createdAt: DateField)

  // ---------------------------------------------------------------------
  // Search filter

  /** The search keeps a profile when its lower-cased name or address contains the lower-cased term. */
  predicate Matches(p: Profile, term: string) {
    Contains(ToLower(p.nama), ToLower(term)) || Contains(ToLower(p.alamat), ToLower(term))
  }

  /** profiles.filter(...): the matching profiles, in their original order (FilterAppend). */
  function FilterProfiles(ps: seq<Profile>, term: string): (r: seq<Profile>)
    ensures |r| <= |ps|
    ensures forall p :: p in r <==> p in ps && Matches(p, term)
    ensures forall p :: multiset(r)[p] == if Matches(p, term) then multiset(ps)[p] else 0
  {
    if ps == [] then []
    else
      var rest := FilterProfiles(ps[1..], term);
      assert ps == [ps[0]] + ps[1..];
      if Matches(ps[0], term) then [ps[0]] + rest else rest
  }

  /**
   * The filter keeps the original order: filtering a concatenation filters
   * each part and concatenates the results.
   */
  lemma {:induction false} FilterAppend(a: seq<Profile>, b: seq<Profile>, term: string)
    ensures FilterProfiles(a + b, term) == FilterProfiles(a, term) + FilterProfiles(b, term)
  {
    if a == [] {
      assert a + b == b;
    } else {
      var ab := a + b;
      assert ab[0] == a[0] && ab[1..] == a[1..] + b;
      FilterAppend(a[1..], b, term);
      var rest := FilterProfiles(a[1..], term);
      if Matches(a[0], term) {
        calc {
          FilterProfiles(ab, term);
          [a[0]] + FilterProfiles(a[1..] + b, term);
          [a[0]] + (rest + FilterProfiles(b, term));
          ([a[0]] + rest) + FilterProfiles(b, term);
        }
      }
    }
  }

  /** An empty search term keeps the whole list, in order. */
  lemma {:induction false} EmptyTermKeepsAll(ps: seq<Profile>)
    ensures FilterProfiles(ps, "") == ps
  {
    if ps != [] {
      ContainsEmpty(ToLower(ps[0].nama));
      EmptyTermKeepsAll(ps[1..]);
    }
  }

  // ---------------------------------------------------------------------
  // Sort

  datatype SortBy = ByNama | ByUsia | ByCreatedAt | ByLastCheckup
  datatype SortOrder = Asc | Desc

  /** The value the comparator reads: a name, an age, or a date's getTime() (NaN for an unreadable date). */
  datatype Key = Text(s: string) | Num(n: int) | NaNKey

  /** new Date(value || 0).getTime(): a missing date becomes the epoch. */
  function DateKey(d: DateField): Key {
    match d
    case Missing => Num(0)
    case Invalid => NaNKey
    case At(ms) => Num(ms)
  }

  function KeyOf(p: Profile, sortBy: SortBy): Key {
    match sortBy
    case ByNama => Text(p.nama)
    case ByUsia => Num(p.usia)
    case ByCreatedAt => DateKey(p.createdAt)
    case ByLastCheckup => DateKey(p.lastCheckup)
  }

  /** Code-unit order on strings: a proper prefix, or a smaller character at the first difference. */
  predicate LexLess(a: string, b: string)
    decreases |a|
  {
    |b| > 0 && (|a| == 0 || a[0] < b[0] || (a[0] == b[0] && LexLess(a[1..], b[1..])))
  }

  lemma {:induction false} LexLessIrreflexive(a: string)
    ensures !LexLess(a, a)
    decreases |a|
  {
    if |a| > 0 {
      LexLessIrreflexive(a[1..]);
    }
  }

  lemma {:induction false} LexLessTransitive(a: string, b: string, c: string)
    requires LexLess(a, b) && LexLess(b, c)
    ensures LexLess(a, c)
    decreases |a|
  {
    if |a| > 0 && a[0] == b[0] && b[0] == c[0] {
      LexLessTransitive(a[1..], b[1..], c[1..]);
    }
  }

  lemma {:induction false} LexLessTotal(a: string, b: string)
    ensures LexLess(a, b) || a == b || LexLess(b, a)
    decreases |a|
  {
    if |a| > 0 && |b| > 0 && a[0] == b[0] {
      LexLessTotal(a[1..], b[1..]);
      if a[1..] == b[1..] {
        assert a == [a[0]] + a[1..] && b == [b[0]] + b[1..];
      }
    }
  }

  /** JavaScript's `x > y` on two keys of the same kind; every comparison with NaN is false. */
  predicate KeyGreater(x: Key, y: Key) {
    match (x, y)
    case (Text(a), Text(b)) => LexLess(b, a)
    case (Num(a), Num(b)) => a > b
    case _ => false
  }

  /** The comparator of the sort: 1 or -1, never 0, so equal keys give -1 in both directions. */
  function Compare(a: Profile, b: Profile, sortBy: SortBy, sortOrder: SortOrder): (r: int)
    ensures r == 1 || r == -1
    ensures sortOrder == Asc ==> (r == 1 <==> KeyGreater(KeyOf(a, sortBy), KeyOf(b, sortBy)))
    ensures sortOrder == Desc ==> (r == 1 <==> KeyGreater(KeyOf(b, sortBy), KeyOf(a, sortBy)))
  {
    var x, y := KeyOf(a, sortBy), KeyOf(b, sortBy);
    match sortOrder
    case Asc => if KeyGreater(x, y) then 1 else -1
    case Desc => if KeyGreater(y, x) then 1 else -1
  }

  /** Two profiles with the same key are each placed before the other: the comparator is inconsistent on ties. */
  lemma TiesCompareBothWays(a: Profile, b: Profile, sortBy: SortBy, sortOrder: SortOrder)
    requires KeyOf(a, sortBy) == KeyOf(b, sortBy)
    ensures Compare(a, b, sortBy, sortOrder) == -1 && Compare(b, a, sortBy, sortOrder) == -1
  {
    match KeyOf(a, sortBy)
    case Text(s) => LexLessIrreflexive(s);
    case Num(_) =>
    case NaNKey =>
  }

  /** No neighbour pair, nor any other pair, is one the comparator wants swapped. */
  predicate Sorted(s: seq<Profile>, sortBy: SortBy, sortOrder: SortOrder) {
    forall i, j :: 0 <= i < j < |s| ==> Compare(s[i], s[j], sortBy, sortOrder) == -1
  }

  /** Places p before the first element the comparator does not want ahead of it. */
  function Insert(p: Profile, s: seq<Profile>, sortBy: SortBy, sortOrder: SortOrder): (r: seq<Profile>)
    ensures multiset(r) == multiset(s) + multiset{p}
    ensures |r| == |s| + 1
  {
    if s == [] then [p]
    else if Compare(p, s[0], sortBy, sortOrder) == 1 then
      assert s == [s[0]] + s[1..];
      [s[0]] + Insert(p, s[1..], sortBy, sortOrder)
    else [p] + s
  }

  /** Array.prototype.sort with the comparator, as an insertion sort. */
  function SortProfiles(ps: seq<Profile>, sortBy: SortBy, sortOrder: SortOrder): (r: seq<Profile>)
    ensures multiset(r) == multiset(ps)
    ensures |r| == |ps|
  {
    if ps == [] then []
    else
      assert ps == [ps[0]] + ps[1..];
      Insert(ps[0], SortProfiles(ps[1..], sortBy, sortOrder), sortBy, sortOrder)
  }

  /** Keys the comparator can order: none of them is NaN. */
  predicate ComparableKeys(ps: seq<Profile>, sortBy: SortBy) {
    forall i :: 0 <= i < |ps| ==> KeyOf(ps[i], sortBy) != NaNKey
  }

  /** On keys that are not NaN, `>` is transitive. */
  lemma KeyGreaterTransitive(x: Key, y: Key, z: Key)
    requires KeyGreater(x, y) && KeyGreater(y, z)
    ensures KeyGreater(x, z)
  {
    if x.Text? {
      LexLessTransitive(z.s, y.s, x.s);
    }
  }

  /** On keys of one kind that are not NaN, one of x > y, x == y, y > x holds. */
  lemma KeyGreaterTotal(x: Key, y: Key)
    requires x != NaNKey && y != NaNKey && x.Text? == y.Text?
    ensures KeyGreater(x, y) || x == y || KeyGreater(y, x)
  {
    if x.Text? {
      LexLessTotal(x.s, y.s);
    }
  }

  lemma KeyGreaterAsymmetric(x: Key, y: Key)
    requires KeyGreater(x, y)
    ensures !KeyGreater(y, x)
  {
    if x.Text? {
      if LexLess(x.s, y.s) {
        LexLessTransitive(x.s, y.s, x.s);
        LexLessIrreflexive(x.s);
      }
    }
  }

  /** If a may stay ahead of b and b ahead of c, a may stay ahead of c. */
  lemma CompareChain(a: Profile, b: Profile, c: Profile, sortBy: SortBy, sortOrder: SortOrder)
    requires KeyOf(a, sortBy) != NaNKey && KeyOf(b, sortBy) != NaNKey && KeyOf(c, sortBy) != NaNKey
    requires Compare(a, b, sortBy, sortOrder) == -1 && Compare(b, c, sortBy, sortOrder) == -1
    ensures Compare(a, c, sortBy, sortOrder) == -1
  {
    var x, y, z := KeyOf(a, sortBy), KeyOf(b, sortBy), KeyOf(c, sortBy);
    assert x.Text? == y.Text? == z.Text? == (sortBy == ByNama);
    KeyGreaterTotal(x, y);
    KeyGreaterTotal(y, z);
    if sortOrder == Asc {
      if KeyGreater(x, z) {
        if KeyGreater(y, x) { KeyGreaterTransitive(y, x, z); }
        if KeyGreater(z, y) { KeyGreaterTransitive(x, z, y); }
      }
    } else {
      if KeyGreater(z, x) {
        if KeyGreater(x, y) { KeyGreaterTransitive(z, x, y); }
        if KeyGreater(y, z) { KeyGreaterTransitive(y, z, x); }
      }
    }
  }

  /** A profile that may stay ahead of every element of a sorted list keeps the list sorted in front of it. */
  lemma SortedCons(h: Profile, t: seq<Profile>, sortBy: SortBy, sortOrder: SortOrder)
    requires Sorted(t, sortBy, sortOrder)
    requires forall k :: 0 <= k < |t| ==> Compare(h, t[k], sortBy, sortOrder) == -1
    ensures Sorted([h] + t, sortBy, sortOrder)
  {
    var r := [h] + t;
    forall i, j | 0 <= i < j < |r|
      ensures Compare(r[i], r[j], sortBy, sortOrder) == -1
    {
      assert r[j] == t[j - 1];
      if i > 0 {
        assert r[i] == t[i - 1];
      }
    }
  }

  /** The head that p was inserted behind may stay ahead of everything in the rest. */
  lemma HeadBeforeInserted(p: Profile, s: seq<Profile>, tail: seq<Profile>, sortBy: SortBy, sortOrder: SortOrder)
    requires s != [] && Sorted(s, sortBy, sortOrder) && ComparableKeys(s, sortBy) && KeyOf(p, sortBy) != NaNKey
    requires Compare(p, s[0], sortBy, sortOrder) == 1 && tail == Insert(p, s[1..], sortBy, sortOrder)
    ensures forall k :: 0 <= k < |tail| ==> Compare(s[0], tail[k], sortBy, sortOrder) == -1
  {
    assert Compare(s[0], p, sortBy, sortOrder) == -1 by {
      if sortOrder == Asc {
        KeyGreaterAsymmetric(KeyOf(p, sortBy), KeyOf(s[0], sortBy));
      } else {
        KeyGreaterAsymmetric(KeyOf(s[0], sortBy), KeyOf(p, sortBy));
      }
    }
    forall k | 0 <= k < |tail|
      ensures Compare(s[0], tail[k], sortBy, sortOrder) == -1
    {
      assert tail[k] in multiset(s[1..]) + multiset{p};
      if tail[k] != p {
        assert tail[k] in s[1..];
        var m :| 0 <= m < |s[1..]| && s[1..][m] == tail[k];
        assert s[m + 1] == tail[k];
      }
    }
  }

  /** Inserting into a sorted list keeps it sorted. */
  lemma {:induction false} InsertSorted(p: Profile, s: seq<Profile>, sortBy: SortBy, sortOrder: SortOrder)
    requires Sorted(s, sortBy, sortOrder) && ComparableKeys(s, sortBy) && KeyOf(p, sortBy) != NaNKey
    ensures Sorted(Insert(p, s, sortBy, sortOrder), sortBy, sortOrder)
  {
    if s == [] {
      assert Insert(p, s, sortBy, sortOrder) == [p];
    } else if Compare(p, s[0], sortBy, sortOrder) == 1 {
      var tail := Insert(p, s[1..], sortBy, sortOrder);
      assert ComparableKeys(s[1..], sortBy) by {
        assert forall i :: 0 <= i < |s[1..]| ==> s[1..][i] == s[i + 1];
      }
      assert Sorted(s[1..], sortBy, sortOrder) by {
        assert forall i :: 0 <= i < |s[1..]| ==> s[1..][i] == s[i + 1];
      }
      InsertSorted(p, s[1..], sortBy, sortOrder);
      HeadBeforeInserted(p, s, tail, sortBy, sortOrder);
      SortedCons(s[0], tail, sortBy, sortOrder);
      assert Insert(p, s, sortBy, sortOrder) == [s[0]] + tail;
    } else {
      forall k | 0 <= k < |s|
        ensures Compare(p, s[k], sortBy, sortOrder) == -1
      {
        if k > 0 {
          CompareChain(p, s[0], s[k], sortBy, sortOrder);
        }
      }
      SortedCons(p, s, sortBy, sortOrder);
      assert Insert(p, s, sortBy, sortOrder) == [p] + s;
    }
  }

  /** When no key is NaN the sorted list is ordered by the key in the chosen direction. */
  lemma {:induction false} SortProfilesSorted(ps: seq<Profile>, sortBy: SortBy, sortOrder: SortOrder)
    requires ComparableKeys(ps, sortBy)
    ensures Sorted(SortProfiles(ps, sortBy, sortOrder), sortBy, sortOrder)
    ensures ComparableKeys(SortProfiles(ps, sortBy, sortOrder), sortBy)
  {
    if ps != [] {
      var rest := SortProfiles(ps[1..], sortBy, sortOrder);
      assert ComparableKeys(ps[1..], sortBy) by {
        assert forall i :: 0 <= i < |ps[1..]| ==> ps[1..][i] == ps[i + 1];
      }
      SortProfilesSorted(ps[1..], sortBy, sortOrder);
      InsertSorted(ps[0], rest, sortBy, sortOrder);
      var r := SortProfiles(ps, sortBy, sortOrder);
      forall i | 0 <= i < |r|
        ensures KeyOf(r[i], sortBy) != NaNKey
      {
        assert r[i] in multiset(ps);
        var m :| 0 <= m < |ps| && ps[m] == r[i];
      }
    }
  }

  /** filteredAndSortedProfiles: a reordering of exactly the matching profiles. */
  function FilteredAndSortedProfiles(ps: seq<Profile>, term: string, sortBy: SortBy, sortOrder: SortOrder): (r: seq<Profile>)
    ensures |r| <= |ps|
    ensures forall p :: multiset(r)[p] == if Matches(p, term) then multiset(ps)[p] else 0
  {
    SortProfiles(FilterProfiles(ps, term), sortBy, sortOrder)
  }

  /** With readable dates the displayed list is ordered as well as filtered. */
  lemma FilteredAndSortedIsSorted(ps: seq<Profile>, term: string, sortBy: SortBy, sortOrder: SortOrder)
    requires ComparableKeys(ps, sortBy)
    ensures Sorted(FilteredAndSortedProfiles(ps, term, sortBy, sortOrder), sortBy, sortOrder)
  {
    var f := FilterProfiles(ps, term);
    forall i | 0 <= i < |f|
      ensures KeyOf(f[i], sortBy) != NaNKey
    {
      assert f[i] in ps;
    }
    SortProfilesSorted(f, sortBy, sortOrder);
  }

  // ---------------------------------------------------------------------
  // Checkup status

  /** Math.floor((now - then) / (1000 * 60 * 60 * 24)). */
  function DaysSince(nowMs: int, thenMs: int): (d: int)
    ensures d * MsPerDay <= nowMs - thenMs < (d + 1) * MsPerDay
  {
    (nowMs - thenMs) / MsPerDay
  }

  /** The whole days since the last checkup: None when there is none, NaN when the date is unreadable. */
  datatype DaysDiff = NoCheckup | NaNDays | Days(n: int)

  function DaysDiffOf(lastCheckup: DateField, nowMs: int): DaysDiff {
    match lastCheckup
    case Missing => NoCheckup
    case Invalid => NaNDays
    case At(ms) => Days(DaysSince(nowMs, ms))
  }

  datatype CheckupStatus = BelumPeriksa | BaruPeriksa | PerluKontrol | PerluPeriksa
  {
    function Text(): string {
      match this
      case BelumPeriksa => "Belum Periksa"
      case BaruPeriksa => "Baru Periksa"
      case PerluKontrol => "Perlu Kontrol"
      case PerluPeriksa => "Perlu Periksa"
    }

    function Color(): string {
      match this
      case BelumPeriksa => "bg-gray-100 text-gray-800"
      case BaruPeriksa => "bg-green-100 text-green-800"
      case PerluKontrol => "bg-yellow-100 text-yellow-800"
      case PerluPeriksa => "bg-red-100 text-red-800"
    }
  }

  /** The thresholds both badge functions apply: none, at most 7 days, at most 30 days, older. */
  function StatusOf(d: DaysDiff): (s: CheckupStatus)
    ensures s == BelumPeriksa <==> d == NoCheckup
    ensures s == BaruPeriksa <==> d.Days? && d.n <= 7
    ensures s == PerluKontrol <==> d.Days? && 7 < d.n <= 30
    ensures s == PerluPeriksa <==> d == NaNDays || (d.Days? && d.n > 30)
  {
    match d
    case NoCheckup => BelumPeriksa
    case NaNDays => PerluPeriksa
    case Days(n) => if n <= 7 then BaruPeriksa else if n <= 30 then PerluKontrol else PerluPeriksa
  }

  /** getStatusText: each badge text on its own span of days; an unreadable date falls through to 'Perlu Periksa'. */
  function GetStatusText(d: DaysDiff): (t: string)
    ensures t == "Belum Periksa" <==> d == NoCheckup
    ensures t == "Baru Periksa" <==> d.Days? && d.n <= 7
    ensures t == "Perlu Kontrol" <==> d.Days? && 7 < d.n <= 30
    ensures t == "Perlu Periksa" <==> d == NaNDays || (d.Days? && d.n > 30)
  {
    assert "Belum Periksa"[1] != "Baru Periksa"[1] && "Belum Periksa"[0] != "Perlu Kontrol"[0];
    assert "Belum Periksa"[0] != "Perlu Periksa"[0] && "Baru Periksa"[0] != "Perlu Kontrol"[0];
    assert "Baru Periksa"[0] != "Perlu Periksa"[0] && "Perlu Kontrol"[6] != "Perlu Periksa"[6];
    if d == NoCheckup then "Belum Periksa"
    else if d.Days? && d.n <= 7 then "Baru Periksa"
    else if d.Days? && d.n <= 30 then "Perlu Kontrol"
    else "Perlu Periksa"
  }

  /** getStatusColor: gray without a checkup, green up to 7 days, yellow up to 30, red otherwise (an unreadable date included). */
  function GetStatusColor(d: DaysDiff): (c: string)
    ensures c == "bg-gray-100 text-gray-800" <==> d == NoCheckup
    ensures c == "bg-green-100 text-green-800" <==> d.Days? && d.n <= 7
    ensures c == "bg-yellow-100 text-yellow-800" <==> d.Days? && 7 < d.n <= 30
    ensures c == "bg-red-100 text-red-800" <==> d == NaNDays || (d.Days? && d.n > 30)
  {
    assert "bg-gray-100 text-gray-800"[5] != "bg-green-100 text-green-800"[5];
    assert "bg-gray-100 text-gray-800"[3] != "bg-yellow-100 text-yellow-800"[3];
    assert "bg-gray-100 text-gray-800"[3] != "bg-red-100 text-red-800"[3];
    assert "bg-green-100 text-green-800"[3] != "bg-yellow-100 text-yellow-800"[3];
    assert "bg-green-100 text-green-800"[3] != "bg-red-100 text-red-800"[3];
    assert "bg-yellow-100 text-yellow-800"[3] != "bg-red-100 text-red-800"[3];
    if d == NoCheckup then "bg-gray-100 text-gray-800"
    else if d.Days? && d.n <= 7 then "bg-green-100 text-green-800"
    else if d.Days? && d.n <= 30 then "bg-yellow-100 text-yellow-800"
    else "bg-red-100 text-red-800"
  }

  /** The text and the colour describe the same status, so each text comes with exactly one colour. */
  lemma TextAndColorAgree(d: DaysDiff)
    ensures GetStatusText(d) == StatusOf(d).Text()
    ensures GetStatusColor(d) == StatusOf(d).Color()
  {
  }

  lemma StatusTextsDistinct(s: CheckupStatus, t: CheckupStatus)
    ensures s.Text() == t.Text() <==> s == t
    ensures s.Color() == t.Color() <==> s == t
  {
    assert "Perlu Kontrol"[6] != "Perlu Periksa"[6];
    assert "bg-green-100 text-green-800"[5] != "bg-gray-100 text-gray-800"[5];
  }

  /** Two checkups that show the same text show the same colour, and the other way round. */
  lemma ColorDeterminedByText(d: DaysDiff, e: DaysDiff)
    ensures GetStatusText(d) == GetStatusText(e) <==> GetStatusColor(d) == GetStatusColor(e)
  {
    TextAndColorAgree(d);
    TextAndColorAgree(e);
    StatusTextsDistinct(StatusOf(d), StatusOf(e));
  }

  // ---------------------------------------------------------------------
  // Summary cards

  /** The 'Aktif (30 hari)' card: a checkup whose day difference is at most 30. */
  predicate IsActive(d: DaysDiff) { d.Days? && d.n <= 30 }

  /** The 'Perlu Kontrol' card: no checkup, or one more than 30 days ago. */
  predicate NeedsControl(d: DaysDiff) { d == NoCheckup || (d.Days? && d.n > 30) }

  /** profiles.filter(isActive).length. */
  function ActiveCount(ps: seq<Profile>, nowMs: int): (n: nat)
    ensures n <= |ps|
    ensures n == 0 <==> forall i :: 0 <= i < |ps| ==> !IsActive(DaysDiffOf(ps[i].lastCheckup, nowMs))
    ensures n == |ps| <==> forall i :: 0 <= i < |ps| ==> IsActive(DaysDiffOf(ps[i].lastCheckup, nowMs))
  {
    CountIf(ps, (p: Profile) => IsActive(DaysDiffOf(p.lastCheckup, nowMs)))
  }

  /** profiles.filter(needsControl).length. */
  function NeedsControlCount(ps: seq<Profile>, nowMs: int): (n: nat)
    ensures n <= |ps|
    ensures n == 0 <==> forall i :: 0 <= i < |ps| ==> !NeedsControl(DaysDiffOf(ps[i].lastCheckup, nowMs))
    ensures n == |ps| <==> forall i :: 0 <= i < |ps| ==> NeedsControl(DaysDiffOf(ps[i].lastCheckup, nowMs))
  {
    CountIf(ps, (p: Profile) => NeedsControl(DaysDiffOf(p.lastCheckup, nowMs)))
  }

  /** The first profile's contribution to each card, and the rest of the list. */
  lemma CardCountsCons(ps: seq<Profile>, nowMs: int)
    requires ps != []
    ensures ActiveCount(ps, nowMs)
         == (if IsActive(DaysDiffOf(ps[0].lastCheckup, nowMs)) then 1 else 0) + ActiveCount(ps[1..], nowMs)
    ensures NeedsControlCount(ps, nowMs)
         == (if NeedsControl(DaysDiffOf(ps[0].lastCheckup, nowMs)) then 1 else 0) + NeedsControlCount(ps[1..], nowMs)
  {
  }

  /** Profiles whose last checkup is a date the page cannot read. */
  function UnreadableCount(ps: seq<Profile>): (n: nat)
    ensures n <= |ps|
    ensures n == 0 <==> forall i :: 0 <= i < |ps| ==> ps[i].lastCheckup != Invalid
  {
    if ps == [] then 0
    else
      var rest := UnreadableCount(ps[1..]);
      assert forall i :: 1 <= i < |ps| ==> ps[i] == ps[1..][i - 1];
      (if ps[0].lastCheckup == Invalid then 1 else 0) + rest
  }

  /**
   * Every profile is counted by exactly one of the two cards, except those
   * with an unreadable date (NaN fails both tests): with readable dates the
   * cards add up to the number of profiles.
   */
  lemma {:induction false} CardsPartition(ps: seq<Profile>, nowMs: int)
    ensures ActiveCount(ps, nowMs) + NeedsControlCount(ps, nowMs) + UnreadableCount(ps) == |ps|
  {
    if ps != [] {
      CardCountsCons(ps, nowMs);
      CardsPartition(ps[1..], nowMs);
    }
  }

  /** The number of rows showing one of the given statuses. */
  function CountStatus(ps: seq<Profile>, nowMs: int, wanted: set<CheckupStatus>): (n: nat)
    ensures n <= |ps|
  {
    if ps == [] then 0
    else (if StatusOf(DaysDiffOf(ps[0].lastCheckup, nowMs)) in wanted then 1 else 0) + CountStatus(ps[1..], nowMs, wanted)
  }

  /** A row's card and its badge agree: active rows are badged 'Baru Periksa' or 'Perlu Kontrol', the rest 'Belum Periksa' or 'Perlu Periksa'. */
  lemma CardOfBadge(d: DaysDiff)
    ensures IsActive(d) <==> StatusOf(d) in {BaruPeriksa, PerluKontrol}
    ensures NeedsControl(d) || d == NaNDays <==> StatusOf(d) in {BelumPeriksa, PerluPeriksa}
  {
  }

  lemma {:induction false} ActiveMatchesBadges(ps: seq<Profile>, nowMs: int)
    ensures ActiveCount(ps, nowMs) == CountStatus(ps, nowMs, {BaruPeriksa, PerluKontrol})
  {
    if ps != [] {
      CardCountsCons(ps, nowMs);
      CardOfBadge(DaysDiffOf(ps[0].lastCheckup, nowMs));
      ActiveMatchesBadges(ps[1..], nowMs);
    }
  }

  lemma {:induction false} NeedsControlMatchesBadges(ps: seq<Profile>, nowMs: int)
    ensures NeedsControlCount(ps, nowMs) + UnreadableCount(ps) == CountStatus(ps, nowMs, {BelumPeriksa, PerluPeriksa})
  {
    if ps != [] {
      CardCountsCons(ps, nowMs);
      CardOfBadge(DaysDiffOf(ps[0].lastCheckup, nowMs));
      NeedsControlMatchesBadges(ps[1..], nowMs);
    }
  }

  /**
   * The 'Aktif' card counts the rows badged 'Baru Periksa' or 'Perlu Kontrol';
   * the card titled 'Perlu Kontrol' counts the rows badged 'Belum Periksa' or
   * 'Perlu Periksa' whose date is readable.
   */
  lemma CardsMatchBadges(ps: seq<Profile>, nowMs: int)
    ensures ActiveCount(ps, nowMs) == CountStatus(ps, nowMs, {BaruPeriksa, PerluKontrol})
    ensures NeedsControlCount(ps, nowMs) + UnreadableCount(ps) == CountStatus(ps, nowMs, {BelumPeriksa, PerluPeriksa})
  {
    ActiveMatchesBadges(ps, nowMs);
    NeedsControlMatchesBadges(ps, nowMs);
  }

}
