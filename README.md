# Posyandu elderly-care front end: verified model of its decision logic

This project models the logic of a Next.js front end for a *posyandu lansia* (a community health post for the elderly). Every
other concern of that app — HTTP, the camera, rendering — is left out. The modelled logic:

- **Health readings** (`health_utils.dfy`, module `HealthUtils`):
  - the defensive blood-pressure classifier `getBloodPressureStatus`, with its format check, range check, ordered
    bands and unreachable 'Perlu Evaluasi' fallback;
  - the blood-sugar classifier;
  - the ordered, first-failure-wins validator `validateBloodPressureFormat`;
  - `parseBloodPressure`, which parses only what the validator accepts.
- **Health analysis** (`health_analysis.dfy`, `HealthAnalysis`): the risk level combining both statuses, the
  medical-attention alert, and the recommendation list. The list is built by pushes in a `method`.
- **Admin profile list** (`admin_profiles.dfy`, `AdminProfiles`):
  - the search filter, and the sort by name, age or date in either direction;
  - the days-since-last-checkup badge, text and colour;
  - the two summary cards.
- **Public profile list** (`profiles_page.dfy`, `ProfilesPage`): the age category, the null branch of `formatDate`,
  and the active-count, average-age and total-checkup cards.
- **QR scan page** (`scan_page.dfy`, `ScanPage`):
  - the two regular expressions that pull a profile id out of a decoded QR text, and their precedence;
  - the page state the decode callback updates (class `Scanner`);
  - the manual-id check.
- **Admin dashboard** (`admin_dashboard.dfy`, `AdminDashboard`): the four statistics computed from the fetched
  profiles, the page state `fetchDashboardData` writes (class `Dashboard`), and the scroll-hint count.
- **Session store** (`auth.dfy`, `Auth`): class `SessionStore`, a `map` standing for `localStorage`. The model covers:
  - the three session keys, written and removed as a unit;
  - the getters, `isAuthenticated`, `isAdmin` and the `Authorization` header;
  - logout, logout-all and the 401 interceptor, which clear the store;
  - the login helpers, which store only on success.
- **Route guard** (`protected_route.dfy`, `ProtectedRoute`): the `checkAuth` sequence as a pure decision and as the
  state changes of class `RouteGuard`, and the render choice.
- **Shared pieces**:
  - `js_text.dfy` (`JsText`): the JavaScript string built-ins the code relies on — `trim` with ECMAScript white
    space, `split`, `parseInt` (sign, `0x` prefix, longest digit prefix, NaN as `None`), ASCII `toLowerCase`,
    `includes` — and the `DateField` of a date column (null, unreadable, or a timestamp in milliseconds);
  - `reduce.dfy` (`Reduce`): `reduce` with `+`, and `filter(...).length`;
  - `wrappers.dfy` (`Wrappers`): `Option`.

Behaviour of the code that the proofs make explicit:

- **Validator vs classifier.** The classifier is more lenient than the validator:
  - `"120abc/80"` is classified as 120/80, yet rejected by the validator (`LenientClassifier`);
  - `"80/120"` gets a band but fails the validator's last rule (`InvertedPairRejected`).
- **Bands.** The blood-pressure bands overlap and the first match wins. So `"120/80"` and `"145/85"` are 'Normal
  Tinggi', while `"145/75"` is 'Hipertensi Tingkat 1': raising the diastolic value can lower the band.
- **Risk levels.** The 'high' test repeats the 'Diabetes' test of the 'very_high' branch, so that disjunct never
  decides anything.
- **Admin cards.** The two admin cards ('Aktif (30 hari)' and 'Perlu Kontrol') split the list only when every
  `last_checkup` is readable. A date `new Date` cannot read gives NaN, which fails both tests (`CardsPartition`).
- **Active windows.** The admin list counts a checkup as active when its floor day difference is at most 30, i.e.
  less than 31 days old. The public list and the dashboard use "later than now minus 30 days". A checkup exactly
  30 days old is active on one page and not on the other (`ActiveWindowsDiffer`).
- **QR precedence.** The trailing `/profile/<digits>` rule is tried before the leftmost `profile/<digits>` rule.
  So `"x/profile/1/profile/2"` opens profile 2 (`SuffixBeatsEarlierReference`).
- **Sorting.** The sort comparator never returns 0 (equal keys compare as -1 both ways). The model fixes one order
  for ties: that of an insertion sort.

## Model

| member | source | states |
|---|---|---|
| JsText.Trim | src/utils/healthUtils.ts:32-33 | `trim` leaves no ECMAScript white space at either end, and is empty exactly for an all-white-space string |
| JsText.Split | src/utils/healthUtils.ts:23-24 | `split('/')` yields one more part than there are slashes, none containing a slash |
| JsText.SplitPair | src/utils/healthUtils.ts:23-24 | a text `a/b` with slash-free sides splits into exactly `[a, b]` |
| JsText.ParseIntDigits | src/utils/healthUtils.ts:32-33 | `parseInt` of a digit string is its decimal value |
| JsText.ParseIntDigitsPrefix | src/utils/healthUtils.ts:32-33 | `parseInt` stops at the first non-digit and returns the value of the leading digits |
| JsText.ToLower | src/app/admin/profiles/page.tsx:68-69 | `toLowerCase` keeps the length and lowers each character |
| JsText.ContainsEmpty | src/app/admin/profiles/page.tsx:68-69 | every string includes the empty string |
| HealthUtils.BandOf | src/utils/healthUtils.ts:46-86 | the ordered thresholds: 'Normal' iff s<130 and d<80; 'Normal Tinggi' iff s in 130-139 or d in 80-89; stage 1 and stage 2 with the earlier bands excluded; always one of the four bands, so 'Perlu Evaluasi' is never returned |
| HealthUtils.ClassifyBloodPressure | src/utils/healthUtils.ts:13-87 | never 'Perlu Evaluasi'; the format 'Tidak Valid' is returned exactly when the text does not contain exactly one '/' (covers empty, no slash, three parts) |
| HealthUtils.GetBloodPressureStatus | src/utils/healthUtils.ts:13-87 | the returned `{status, color, description}` never has the label 'Perlu Evaluasi'; the label is 'Tidak Valid' exactly when the text is not read into one of the four bands, and the badge is gray exactly then |
| HealthUtils.ClassifyPair | src/utils/healthUtils.ts:23-42 | on `a/b` the classifier trims and parseInts both sides, gives the range 'Tidak Valid' for NaN or out of [50,300]x[30,200], and otherwise the band |
| HealthUtils.ClassifyBloodSugar | src/utils/healthUtils.ts:92-119 | 'Tidak Valid' iff NaN, infinite, below 0 or above 1000; 'Normal' iff in [0,100); 'Pradiabetes' iff in [100,126); 'Diabetes' iff in [126,1000] |
| HealthUtils.GetBloodSugarStatus | src/utils/healthUtils.ts:92-119 | the returned label is 'Tidak Valid', 'Normal', 'Pradiabetes' or 'Diabetes' exactly on the corresponding range of the reading |
| HealthUtils.SugarBandMonotone | src/utils/healthUtils.ts:101-119 | within [0,1000] a higher sugar value never gets a milder band |
| HealthUtils.ValidateBloodPressureFormat | src/utils/healthUtils.ts:125-150 | valid iff the message is the success message; white-space-only input gives the required message, a trimmed text without the `\d{2,3}/\d{2,3}` shape the format message, and then the systolic range, diastolic range and systolic-above-diastolic messages in that order |
| HealthUtils.ParseBloodPressure | src/utils/healthUtils.ts:155-163 | null exactly when validation fails; otherwise the two numbers written in the text, in range with systolic above diastolic |
| HealthUtils.AcceptedIsClassified | src/utils/healthUtils.ts:155-163 | whatever the validator accepts, the classifier reads the same two numbers as the parser and puts them in a band (never 'Tidak Valid') |
| HealthUtils.FormatThenParse | src/utils/healthUtils.ts:155-163 | for every s in [50,300], d in [30,200] with s>d, "s/d" validates, parses back to (s,d), and is classified by the bands |
| HealthUtils.PatternIsClassified | src/utils/healthUtils.ts:131-135 | any text whose trimmed form has the validator's shape is classified from the numbers that shape shows |
| HealthUtils.DigitPairShape | src/utils/healthUtils.ts:130 | two runs of 2-3 digits joined by '/' trim to themselves, have the validator's shape and show the runs' decimal values |
| HealthUtils.ShapedAcceptedParses | src/utils/healthUtils.ts:155-163 | a trimmed text of the shape whose numbers pass the range and order rules validates and parses to those numbers |
| HealthUtils.InvertedPairMessage | src/utils/healthUtils.ts:145-146 | a trimmed text of the shape with in-range numbers and s<=d gets exactly the systolic-not-higher message |
| HealthUtils.InvertedPairRejected | src/utils/healthUtils.ts:145-146 | an in-range pair with s<=d fails only the last rule, while the classifier still bands it |
| HealthUtils.LenientClassifier | src/utils/healthUtils.ts:32-33 | digits, then junk, then a slash and digits (as "120abc/80") are classified from the leading digits, while the validator returns the format message |
| HealthUtils.BandsNotMonotone | src/utils/healthUtils.ts:55-72 | 145/75 is stage 1 while 145/85 is only 'Normal Tinggi' |
| HealthUtils.BandBoundaries | src/utils/healthUtils.ts:46-79 | the readings at every band edge, including 120/80 and 145/85 in 'Normal Tinggi' |
| HealthAnalysis.GetRiskLevel | src/components/HealthAnalysis.tsx:22-32 | 'very_high' iff stage 2 or diabetes; 'high' iff stage 1 without diabetes (the repeated diabetes test never decides); 'moderate' iff 'Normal Tinggi' or pradiabetes and neither of the above; 'low' otherwise, including 'Tidak Valid' |
| HealthAnalysis.MedicalAlertIff | src/components/HealthAnalysis.tsx:150 | the alert is shown iff the blood pressure is stage 1 or 2 or the sugar is 'Diabetes' |
| HealthAnalysis.ShowsMedicalAlert | src/components/HealthAnalysis.tsx:150 | the level test `high` or `very_high` holds exactly for the two highest risk levels |
| HealthAnalysis.BpLabels | src/utils/healthUtils.ts:46-79 | the three band labels `getRiskLevel` tests ('Normal Tinggi', 'Hipertensi Tingkat 1', 'Hipertensi Tingkat 2') each come from exactly one blood-pressure outcome, and no blood-pressure label is 'Pradiabetes' or 'Diabetes' |
| HealthAnalysis.SugarLabels | src/utils/healthUtils.ts:101-119 | the two sugar labels `getRiskLevel` tests ('Pradiabetes', 'Diabetes') each come from exactly one sugar outcome, and no sugar label is one of the three band labels 'Normal Tinggi', 'Hipertensi Tingkat 1', 'Hipertensi Tingkat 2' |
| HealthAnalysis.RiskIsMoreSevere | src/components/HealthAnalysis.tsx:18-32 | on the classifiers' own labels the risk is the more severe of what each reading contributes alone |
| HealthAnalysis.InvalidReadingsAreLow | src/components/HealthAnalysis.tsx:18-32 | an invalid blood pressure with a normal or invalid sugar reading is 'low' risk |
| HealthAnalysis.GetRecommendations | src/components/HealthAnalysis.tsx:37-82 | never empty; the blood-pressure block (3 or 4 items) then the sugar block (4 items); the four general tips exactly when neither fired, which is exactly when the risk is 'low' |
| HealthAnalysis.PushBpAdvice | src/components/HealthAnalysis.tsx:40-58 | the three blood-pressure tests push exactly the block of the one status that matches, or nothing |
| HealthAnalysis.PushSugarAdvice | src/components/HealthAnalysis.tsx:60-72 | the two sugar tests append exactly the block of the one status that matches, after what was already pushed |
| HealthAnalysis.AdviceBlocks | src/components/HealthAnalysis.tsx:37-82 | the specific blocks have 3 or 4 items as counted, are all absent exactly when the risk level is 'low', and never coincide with the general tips |
| AdminProfiles.FilterProfiles | src/app/admin/profiles/page.tsx:66-70 | a profile is kept iff its lower-cased name or address includes the lower-cased term, with its multiplicity; never longer than the list |
| AdminProfiles.EmptyTermKeepsAll | src/app/admin/profiles/page.tsx:66-70 | an empty search term keeps the whole list in order |
| AdminProfiles.FilterAppend | src/app/admin/profiles/page.tsx:66-70 | the filter keeps the original order: filtering a concatenation is filtering each part and concatenating |
| AdminProfiles.LexLessTransitive | src/app/admin/profiles/page.tsx:80-84 | string `<` on names is transitive |
| AdminProfiles.LexLessTotal | src/app/admin/profiles/page.tsx:80-84 | two names are equal or one is `<` the other |
| AdminProfiles.Compare | src/app/admin/profiles/page.tsx:71-85 | the comparator returns only 1 or -1, 1 iff the key of the first is greater (ascending) or smaller (descending); dates compare as timestamps with a missing date as 0 |
| AdminProfiles.TiesCompareBothWays | src/app/admin/profiles/page.tsx:80-84 | equal keys give -1 in both directions |
| AdminProfiles.CompareChain | src/app/admin/profiles/page.tsx:80-84 | on readable keys the comparator's "before" relation is transitive |
| AdminProfiles.Insert | src/app/admin/profiles/page.tsx:71-85 | inserting adds exactly the one profile |
| AdminProfiles.SortProfiles | src/app/admin/profiles/page.tsx:71-85 | the sort is a permutation of its input |
| AdminProfiles.InsertSorted | src/app/admin/profiles/page.tsx:71-85 | inserting into an ordered list keeps it ordered |
| AdminProfiles.SortedCons | src/app/admin/profiles/page.tsx:71-85 | an element ordered strictly before every element of an ordered list can be put in front and the list stays ordered |
| AdminProfiles.HeadBeforeInserted | src/app/admin/profiles/page.tsx:71-85 | when the inserted profile comes after the head, the head still precedes every element of the insertion into the tail |
| AdminProfiles.SortProfilesSorted | src/app/admin/profiles/page.tsx:71-85 | with no unreadable date key, the result is ordered by the chosen key and direction |
| AdminProfiles.FilteredAndSortedProfiles | src/app/admin/profiles/page.tsx:66-85 | the displayed list is a reordering of exactly the kept profiles, so its length is at most the list's |
| AdminProfiles.FilteredAndSortedIsSorted | src/app/admin/profiles/page.tsx:66-85 | the displayed list is ordered by the chosen key and direction |
| AdminProfiles.DaysSince | src/app/admin/profiles/page.tsx:92 | the floor of the elapsed milliseconds over a day |
| AdminProfiles.StatusOf | src/app/admin/profiles/page.tsx:99-109 | 'Belum Periksa' iff no date; 'Baru Periksa' iff at most 7 days; 'Perlu Kontrol' iff 8 to 30 days; 'Perlu Periksa' iff more than 30 days or an unreadable date |
| AdminProfiles.TextAndColorAgree | src/app/admin/profiles/page.tsx:87-109 | `getStatusText` and `getStatusColor` apply the same thresholds |
| AdminProfiles.GetStatusText | src/app/admin/profiles/page.tsx:99-109 | 'Belum Periksa' iff no checkup; 'Baru Periksa' iff at most 7 days; 'Perlu Kontrol' iff 8 to 30 days; 'Perlu Periksa' iff older or the date is unreadable (NaN fails both tests) |
| AdminProfiles.GetStatusColor | src/app/admin/profiles/page.tsx:87-97 | gray iff no checkup; green iff at most 7 days; yellow iff 8 to 30 days; red iff older or the date is unreadable |
| AdminProfiles.StatusTextsDistinct | src/app/admin/profiles/page.tsx:87-109 | the four texts are distinct and so are the four colours |
| AdminProfiles.ColorDeterminedByText | src/app/admin/profiles/page.tsx:87-109 | two rows show the same text iff they show the same colour |
| AdminProfiles.ActiveCount | src/app/admin/profiles/page.tsx:144-148 | the 'Aktif (30 hari)' card is `filter(...).length`: at most the number of profiles, 0 iff no row is at most 30 days old, the whole list iff every row is |
| AdminProfiles.NeedsControlCount | src/app/admin/profiles/page.tsx:164-168 | the 'Perlu Kontrol' card is `filter(...).length`: at most the number of profiles, 0 iff no row lacks a checkup or is over 30 days old, the whole list iff every row does |
| AdminProfiles.UnreadableCount | src/app/admin/profiles/page.tsx:144-168 | the profiles with an unreadable date; zero iff every date is readable or missing |
| AdminProfiles.CardsPartition | src/app/admin/profiles/page.tsx:144-168 | the two cards plus the unreadable dates add up to the number of profiles |
| AdminProfiles.CountStatus | src/app/admin/profiles/page.tsx:281-282 | the number of rows whose badge is one of the given statuses, at most the number of profiles |
| AdminProfiles.CardsMatchBadges | src/app/admin/profiles/page.tsx:144-168 | the 'Aktif' card counts the rows badged 'Baru Periksa' or 'Perlu Kontrol'; the card titled 'Perlu Kontrol' counts the readable rows badged 'Belum Periksa' or 'Perlu Periksa' |
| Reduce.ReduceSum | src/app/admin/page.tsx:45 | `reduce` with `+` from an accumulator is the accumulator plus the sum |
| Reduce.SumAppend | src/app/profiles/page.tsx:176 | the sum over two joined lists is the sum of the sums |
| Reduce.SumBetween | src/app/profiles/page.tsx:160 | values between lo and hi sum to between n*lo and n*hi |
| Reduce.CountIf | src/app/admin/page.tsx:46-51 | `filter(p).length` is at most the length, 0 iff no element passes, the length iff all pass |
| Reduce.CountIfMonotone | src/app/admin/page.tsx:46-51 | counting with a weaker test never gives fewer |
| ProfilesPage.GetAgeCategory | src/app/profiles/page.tsx:47-57 | 'Pra-Lansia' iff below 60, 'Lansia Muda' iff 60-69, 'Lansia Madya' iff 70-79, 'Lansia Tua' iff 80 or more |
| ProfilesPage.AgeCategoryMonotone | src/app/profiles/page.tsx:47-57 | an older age never gets a younger band, and less than ten years moves at most one band |
| ProfilesPage.FormatDate | src/app/profiles/page.tsx:36-37 | 'Belum ada' exactly for null or the empty string; any other string goes to the locale formatter unchanged |
| ProfilesPage.RoundDiv | src/app/profiles/page.tsx:160 | `Math.round(s / n)`: the integer nearest to s/n, halves rounded up |
| ProfilesPage.AverageAge | src/app/profiles/page.tsx:160 | 0 for no profiles, otherwise the sum of ages over the count, rounded |
| ProfilesPage.RoundDivBetween | src/app/profiles/page.tsx:160 | a rounded quotient of a sum between n*lo and n*hi lies between lo and hi |
| ProfilesPage.AverageAgeBetween | src/app/profiles/page.tsx:160 | the average age lies between the youngest and the oldest age |
| ProfilesPage.TotalCheckups | src/app/profiles/page.tsx:176 | the total is the sum of `total_checkups` |
| ProfilesPage.TotalCheckupsAppend | src/app/profiles/page.tsx:176 | the total over two joined lists is the sum of the two totals |
| ProfilesPage.ActiveCount | src/app/profiles/page.tsx:144 | counts only set dates later than now minus 30 days; at most the number of profiles, equal iff every one qualifies |
| ProfilesPage.CheckedWithin30Days | src/app/profiles/page.tsx:144 | a null or unreadable date never passes; a set date passes iff it is less than 30 days old |
| ProfilesPage.ActiveWindowsDiffer | src/app/profiles/page.tsx:144 | the admin list's window admits exactly what is less than 31 days old, everything active here is active there, and a checkup exactly 30 days old is active only there |
| AdminDashboard.CheckupCounts | src/app/admin/page.tsx:45 | each profile's `total_checkups`, with a missing one as 0 |
| AdminDashboard.IsActive | src/app/admin/page.tsx:46-51 | an unreadable date is never active; a null date reads as the epoch, so it is active only within 30 days of it; a set date is active iff less than 30 days old |
| AdminDashboard.CheckedThisMonth | src/app/admin/page.tsx:55-63 | null and unreadable dates never count; a set date counts iff its month and year are the current ones |
| AdminDashboard.MonthReduce | src/app/admin/page.tsx:55-63 | the month reduce adds one per profile with a set date in the current month and year |
| AdminDashboard.ComputeStats | src/app/admin/page.tsx:44-63 | totalLansia is the count; totalPemeriksaan the sum with missing as 0; lansiaAktif and pemeriksaanBulanIni count their profiles and are at most totalLansia |
| AdminDashboard.MissingCountsAddNothing | src/app/admin/page.tsx:45 | a profile without a checkup count adds nothing to the total |
| AdminDashboard.OnlyDatedProfilesAreActive | src/app/admin/page.tsx:46-51 | null and unreadable dates are never active (once now is past day 30 of the epoch) |
| AdminDashboard.Dashboard.constructor | src/app/admin/page.tsx:22-29 | zero statistics, loading, no profiles |
| AdminDashboard.Dashboard.FetchDashboardData | src/app/admin/page.tsx:35-80 | loading ends on every path; a failed fetch keeps the statistics and list; a successful one sets them from the profiles (`profiles` or `[]`) |
| AdminDashboard.Dashboard.ScrollHint | src/app/admin/page.tsx:365-371 | shown iff not loading and more than 4 profiles, reporting length minus 4 |
| ScanPage.ProfilePathOf | src/app/scan/page.tsx:52-53 | "/profile/" and a non-empty digit run is a profile route |
| ScanPage.MatchProfileSuffix | src/app/scan/page.tsx:49-53 | a match of `/\/profile\/(\d+)$/` ends the text with "/profile/" and its group |
| ScanPage.MatchProfileSuffixComplete | src/app/scan/page.tsx:49-53 | every text ending in "/profile/<digits>" matches, capturing exactly those digits |
| ScanPage.FirstRefFrom | src/app/scan/page.tsx:56-60 | the leftmost position where `profile/\d` starts |
| ScanPage.DigitRunAt | src/app/scan/page.tsx:56-60 | the greedy `\d+` group: non-empty digits not followed by a digit |
| ScanPage.MatchProfileAnywhere | src/app/scan/page.tsx:56-60 | `/profile\/(\d+)/` fails iff `profile/` followed by a digit occurs nowhere |
| ScanPage.DecideQr | src/app/scan/page.tsx:49-63 | every navigation goes to a profile route; the invalid-QR error iff no `profile/<digit>` occurs |
| ScanPage.FallbackOpensLeftmost | src/app/scan/page.tsx:56-60 | when the trailing pattern does not match, the code opens the profile of the leftmost `profile/<digits>` reference, with its whole digit run |
| ScanPage.SuffixWins | src/app/scan/page.tsx:49-53 | a text ending in "/profile/<digits>" opens that profile whatever precedes it |
| ScanPage.LeftmostReference | src/app/scan/page.tsx:56-60 | the second pattern captures the digit run of the leftmost reference, with trailing text allowed |
| ScanPage.SuffixBeatsEarlierReference | src/app/scan/page.tsx:49-60 | with references to a and then b, the leftmost match is a yet the page opens b |
| ScanPage.Scanner.constructor | src/app/scan/page.tsx:11-12 | not scanning, no error, nothing pushed |
| ScanPage.Scanner.StopScanning | src/app/scan/page.tsx:80-92 | scanning stops, nothing else changes |
| ScanPage.Scanner.OnScanResult | src/app/scan/page.tsx:43-65 | no code: no change; a recognised code stops scanning and pushes its route; any other code sets the error and keeps scanning; everything pushed is a profile route |
| ScanPage.HandleManualInput | src/app/scan/page.tsx:94-101 | navigates iff the answer is non-empty and all digits; alerts iff non-empty and not all digits; nothing on cancel or empty |
| ScanPage.ManualAgreesWithScan | src/app/scan/page.tsx:94-101 | typing an id opens the same page as scanning a link to that profile |
| Auth.AuthKeysDistinct | src/utils/auth.ts:84-90 | the three session keys are distinct |
| Auth.WithAuthData | src/utils/auth.ts:84-90 | the three keys are written, the getters return the written values, every other key is untouched |
| Auth.WithoutAuthData | src/utils/auth.ts:93-99 | the three keys are removed, every getter is null, neither predicate holds, every other key is untouched |
| Auth.ClearUndoesSet | src/utils/auth.ts:84-99 | setting then clearing leaves the store as clearing alone does |
| Auth.ClearIdempotent | src/utils/auth.ts:93-99 | clearing twice is clearing once |
| Auth.SetThenPredicates | src/utils/auth.ts:102-110 | after a set, authenticated iff the access token is non-empty, admin iff the role is 'admin' |
| Auth.SessionStore.constructor | src/utils/auth.ts:65-81 | a store over a well-formed localStorage |
| Auth.SessionStore.GetAccessToken | src/utils/auth.ts:65-68 | null without a window |
| Auth.SessionStore.GetRefreshToken | src/utils/auth.ts:71-74 | null without a window |
| Auth.SessionStore.GetUser | src/utils/auth.ts:77-81 | null without a window |
| Auth.SessionStore.IsAuthenticated | src/utils/auth.ts:102-104 | holds iff there is a window, a non-empty access token and a stored user |
| Auth.SessionStore.IsAdmin | src/utils/auth.ts:107-110 | holds iff there is a window and a stored user with role 'admin' |
| Auth.SessionStore.AuthorizationHeader | src/utils/auth.ts:34-45 | "Bearer " and the token iff a non-empty token is stored |
| Auth.SessionStore.SetAuthData | src/utils/auth.ts:84-90 | a no-op without a window; otherwise exactly the three keys are written and the getters return them |
| Auth.SessionStore.ClearAuthData | src/utils/auth.ts:93-99 | a no-op on the map without a window; otherwise exactly the three keys are removed; afterwards every getter is null and neither predicate holds |
| Auth.SessionStore.Logout | src/utils/auth.ts:153-161 | cleared whether or not the server call fails |
| Auth.SessionStore.LogoutAll | src/utils/auth.ts:164-172 | cleared whether or not the server call fails |
| Auth.SessionStore.OnResponseError | src/utils/auth.ts:48-62 | a 401 clears the store, other statuses leave it unchanged; redirect to '/login' iff 401, a window, and a path not containing '/login' |
| Auth.SessionStore.StoreLoginResponse | src/utils/auth.ts:127-129 | the tokens and user are stored only when the response reports success |
| ProtectedRoute.Decide | src/components/ProtectedRoute.tsx:26-47 | authorised iff authenticated, token valid, and admin when required; not authenticated, invalid token or a thrown check go to the fallback; a non-admin on an admin route goes to '/unauthorized' |
| ProtectedRoute.UnauthenticatedIgnoresToken | src/components/ProtectedRoute.tsx:26-29 | a visitor who is not logged in is redirected to the fallback whatever the token check would say |
| ProtectedRoute.ClearedSessionIsRedirected | src/components/ProtectedRoute.tsx:26-29 | after the session is cleared every visitor is sent to the fallback |
| ProtectedRoute.LoggedInSessionIsAuthorized | src/components/ProtectedRoute.tsx:26-44 | right after login, with the token accepted, authorised iff the token is non-empty and, on an admin route, the role is 'admin' |
| ProtectedRoute.RouteGuard.constructor | src/components/ProtectedRoute.tsx:15-20 | requireAdmin defaults to false and the fallback to '/login'; loading and not authorised |
| ProtectedRoute.RouteGuard.Render | src/components/ProtectedRoute.tsx:56-77 | the children iff not loading and authorised; the spinner iff loading |
| ProtectedRoute.RouteGuard.CheckAuth | src/components/ProtectedRoute.tsx:22-51 | loading ends on every path; pushes the decision's route, or authorises; the token is verified only for a logged-in visitor; the children render iff the decision authorises |

## Left out

- HTTP traffic (the axios client, `fetch`, `verifyToken`, `getCurrentUser`): server answers are inputs (`FetchResult`, `tokenValid`, `serverFails`, `success`, a response status).
- The request interceptor's interplay with the response interceptor: a 401 on the token check both clears the store and makes `verifyToken` false. The model treats the two as separate inputs.
- The camera and the QR decoder (`startScanning`, the media stream, `codeReader.reset`). `StopScanning` models only the `isScanning` state.
- Wall-clock time and the local calendar: "now" is an integer timestamp. `getMonth`/`getFullYear` are a `Calendar` function passed in.
- AdminDashboard.IsActive: "thirty days ago" is taken as now minus 30 x 24 hours. The local-calendar `setDate` can differ by an hour across a daylight-saving change.
- Date-string parsing: a date column is null (`Missing`), unreadable (`Invalid`, NaN) or a timestamp. An empty string is modelled as null, but `new Date("")` in the dashboard reads it as unreadable. `undefined` is not distinguished from null.
- `formatDate`'s locale formatting (`toLocaleDateString('id-ID')`): the model stops at the null branch.
- Auth.SessionStore.GetUser: `JSON.parse` is not modelled. The stored user is a record, and the store invariant rules out a user entry that is not valid JSON. Such an entry would make `getUser` throw; the route guard receives that case as the `Throws` answer.
- Auth.SessionStore.OnResponseError: the returned rejected promise is not modelled; the method gives only the store change and the redirect.
- Direct `localStorage` writes by the login page, and the storage-event hook in `useAdminStatus`.
- AdminProfiles.SortProfiles: the engine's sort order for ties is unspecified because the comparator never returns 0. The model fixes an insertion sort. Order is proved only when no sort key is an unreadable date: with a NaN key the comparator is not a consistent order.
- AdminProfiles.LexLess: strings compare by character. This is UTF-16 code-unit order only for text in the Basic Multilingual Plane.
- JsText.ToLower: ASCII case folding only; Unicode `toLowerCase` is not modelled.
- ProfilesPage.AverageAge: ages and checkup counts are integers; fractional values from the server are not modelled.
- HealthUtils.ClassifyBloodSugar: the reading is a real or NaN/infinity; IEEE rounding is not modelled.
- Rendering, JSX and Tailwind classes: badge strings are constants only.
- The landing page, sidebar, layout and banner (presentation only), the form page (form state and a POST; its input pattern mirrors the validator's shape) and the login page (a form that writes localStorage directly).
