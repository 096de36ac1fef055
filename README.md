# Alumni platform: query pipelines, filter panels, wizard and card classifiers

This project models the decision logic of an alumni-networking web front end
that runs on fixed mock data. It covers:

- **Job board and alumni directory query pipelines** (`JobBoard`,
  `AlumniDirectory`). A fixed record array passes through a chain of optional
  filter stages joined by AND: a case-insensitive substring search, membership
  filters where an empty or missing list means "no constraint", boolean
  toggles, and for jobs an inclusive salary range. The result is then sorted by
  a comparator chosen from a sort key.
  - The pure specification is `QueryJobs` / `QueryAlumni` = sort (stable
    insertion sort) of a pipeline of stages.
  - The board and directory classes run the stages step by step over arrays
    and then sort in place. When no stage is active, that sort reorders the
    shared mock array itself.
  - Each constructor receives that module-level array rather than a copy, so
    the order left by one mount's sort carries over to the next mount.
- **Filter panels** (`JobFilters`, `SearchFilters`). These are classes whose
  fields are the panel state. The methods are the panel's handlers:
  - add-if-absent selects;
  - checkbox add and remove;
  - remove one badge;
  - clear everything, which emits `{}`;
  - search, which emits the current state.

  Derived values are functions: the active-filter badges and the dropdown
  options.
- **Registration wizard** (`RegisterForm`). A step counter moved by Continue
  and Back, a per-field update of the form record, a loading flag, and two
  password-visibility toggles.
- **Classifiers**: the compatibility bands at 90/80/70 (`CompatibilityScore`),
  the recommendation type filter and refresh flag (`RecommendationsFeed`), and
  the job card and recommendation card presentation choices (`JobCard`,
  `RecommendationCard`).

Shared modules model JavaScript built-ins:

- `Seqs.Filter` is `Array.prototype.filter`;
- `Sorting.Sort` / `Sorting.SortInPlace` is the stable `Array.prototype.sort`;
- `Text.Lower` is `toLowerCase` on ASCII;
- `Text.Contains` is `includes`;
- `Text.Compare` stands in for `localeCompare`;
- `Text.ParseInt` is `Number.parseInt`;
- `Badges.Truncate` is "first three, then +n more".

Colours and icons are enums rather than CSS class strings. Dates are epoch
milliseconds, and "now" is a parameter.

Two facts about the query code are easy to miss:

- **The default sort key reorders.** With every filter empty, the default keys
  (`"relevance"` for jobs, `"name"` for alumni) still reorder the records. So
  `ClearedShowsAll` proves a permutation of all records. Only a key the
  comparator does not know keeps the original order (`UnknownKeyKeepsOrder`).
- **The query is not stateless.** When no stage is active, it sorts the shared
  mock array in place. That earlier sort then decides how later ties come out
  (see Findings).

Quirks of the code that the model keeps and proves:

- The industries sent by both panels are never applied (`IndustriesIgnored`).
- An internship's hourly rate is compared as if it were annual
  (`InternshipComparedRaw`).
- Pressing Search on an untouched job panel turns the salary stage on with
  0..200000. It therefore differs from `{}` exactly when some job falls outside
  that range (`UntouchedSearchVersusClear`).
- A match score of 0 draws a bare "0" in place of the star badge, while a
  missing score draws nothing (`MatchBadge`).
- `getTimeAgo` rounds weeks up, so 29 days reads "5 weeks ago" one day before
  "1 months ago" (`WeeksOverlapFirstMonth`). A posting from this instant reads
  "0 days ago".

## Model

| member | source | states |
|---|---|---|
| JobBoard.StagesActivity | components/jobs/job-board.tsx:134-178 | each stage is applied exactly when its guard is truthy: a non-empty query, a non-empty list, a present salary range, a toggle that is on |
| JobBoard.StagesAreMatches | components/jobs/job-board.tsx:133-180 | passing every stage is the same as the eight-clause AND of search, type, experience, location, salary (no salary passes; Contract minimum times 2000), remote, alumni-posted and urgent |
| JobBoard.FilterJobsIsFilter | components/jobs/job-board.tsx:131-180 | the chain of stage-by-stage filters equals one filter by the conjunction |
| JobBoard.JobOrderConsistent | components/jobs/job-board.tsx:183-198 | each sort key's comparator is the difference of a numeric key (score or 0, date, salary.max or 0, applicants negated, 0 by default), so it is a consistent total preorder |
| JobBoard.QueryJobs | components/jobs/job-board.tsx:130-201 | the shown list is never longer than the job list |
| JobBoard.QueryMembers | components/jobs/job-board.tsx:130-201 | the result is a permutation of the filtered jobs, draws no job more often than the input holds it, and holds exactly the input jobs that match every stage |
| JobBoard.ClearedShowsAll | components/jobs/job-board.tsx:128-198 | with `{}` the result is a permutation of all jobs |
| JobBoard.NoFiltersKeepsAll | components/jobs/job-board.tsx:131-180 | with `{}` no stage removes anything |
| JobBoard.QuerySorted | components/jobs/job-board.tsx:183-198 | relevance: score (missing = 0) non-increasing; date non-increasing; salary.max (missing = 0) non-increasing; applicants non-decreasing |
| JobBoard.QueryStable | components/jobs/job-board.tsx:183-198 | jobs that tie under the key keep their filtered relative order |
| JobBoard.UnknownKeyKeepsOrder | components/jobs/job-board.tsx:195-196 | an unknown sort key leaves the filtered order unchanged |
| JobBoard.QueryResortable | components/jobs/job-board.tsx:183-198 | sorting the result again by the same key changes nothing |
| JobBoard.IndustriesIgnored | components/jobs/job-board.tsx:130-181 | the `industries` field of the query has no effect on the result |
| JobBoard.UntouchedSearchVersusClear | components/jobs/job-board.tsx:161-167 | an untouched panel's search equals `{}` exactly when every job lies within the salary range 0..200000 |
| JobBoard.MockJobsWithinDefaultRange | components/jobs/job-board.tsx:11-117 | for the shipped jobs an untouched search and `{}` agree |
| JobBoard.InternshipComparedRaw | components/jobs/job-board.tsx:161-166 | with range 40000..200000 the $25/h internship is excluded while the $80/h contract (160000) is kept |
| JobBoard.SharedSortChangesTies | components/jobs/job-board.tsx:183 | after a relevance render reorders the shared array, a date render with tied dates keeps that new order instead of the seed order |
| JobBoard.Board.constructor | components/jobs/job-board.tsx:11-128 | the board works on the module-level mock array itself (holding the mock jobs, in whatever order an earlier mount's sort left them), with sort key "relevance" and filters `{}` |
| JobBoard.Board.SetSortBy | components/jobs/job-board.tsx:236 | only the sort key changes |
| JobBoard.Board.SetFilters | components/jobs/job-board.tsx:223 | only the filters change |
| JobBoard.Board.FilteredAndSortedJobs | components/jobs/job-board.tsx:130-201 | the shown array holds QueryJobs of the jobs; with no active stage it is the shared array itself, sorted in place; otherwise it is a fresh array and the jobs are untouched |
| JobBoard.Board.SortedCopyOfJobs | components/jobs/job-board.tsx:130-201 | corrected form: a fresh array holding QueryJobs of the jobs, with the shared array left unchanged |
| JobBoard.ApplyStages | components/jobs/job-board.tsx:131-180 | running the eight stages over arrays yields the filtered jobs, and returns the input array itself when no stage is active |
| JobBoard.RunCategoryStages | components/jobs/job-board.tsx:134-158 | search, type, experience and location stages, each applied only when active |
| JobBoard.RunToggleStages | components/jobs/job-board.tsx:161-180 | salary, remote, alumni and urgent stages, each applied only when active |
| AlumniDirectory.StagesActivity | components/directory/alumni-directory.tsx:117-151 | each stage is applied exactly when its guard is truthy |
| AlumniDirectory.StagesAreMatches | components/directory/alumni-directory.tsx:116-151 | passing all stages is search (name, company, currentRole, some skill, some interest) AND major AND year AND location AND the two toggles |
| AlumniDirectory.FilterAlumniIsFilter | components/directory/alumni-directory.tsx:114-151 | the stage chain equals one filter by the conjunction |
| AlumniDirectory.FieldOrderConsistent | components/directory/alumni-directory.tsx:156-161 | comparing a text field is a consistent total preorder |
| AlumniDirectory.AlumniOrderConsistent | components/directory/alumni-directory.tsx:154-165 | every sort key gives a consistent comparator; "year" needs every graduation year to parse |
| AlumniDirectory.QueryAlumni | components/directory/alumni-directory.tsx:113-168 | the shown list is never longer than the record list |
| AlumniDirectory.QueryMembers | components/directory/alumni-directory.tsx:113-168 | the result is a permutation of the filtered records and holds exactly the input records matching every stage |
| AlumniDirectory.NoFiltersKeepsAll | components/directory/alumni-directory.tsx:114-151 | with `{}` no stage removes anything |
| AlumniDirectory.ClearedShowsAll | components/directory/alumni-directory.tsx:111-165 | with `{}` the result is a permutation of all records |
| AlumniDirectory.UntouchedSearchIsClear | components/directory/alumni-directory.tsx:117-151 | an untouched panel's search (empty query, empty lists, toggles off) shows the same list as `{}` |
| AlumniDirectory.QuerySorted | components/directory/alumni-directory.tsx:156-161 | "name": names ascending; "company": companies ascending |
| AlumniDirectory.QuerySortedByYear | components/directory/alumni-directory.tsx:158-159 | "year": parsed graduation years non-increasing, when every year parses |
| AlumniDirectory.SortedByYear | components/directory/alumni-directory.tsx:158-159 | a list sorted by the year comparator has non-increasing years |
| AlumniDirectory.YearDifferenceParsed | components/directory/alumni-directory.tsx:159 | for parseable years the comparator is the later year minus the earlier |
| AlumniDirectory.YearsParseSub | components/directory/alumni-directory.tsx:154-159 | every year of a sub-multiset of parseable records parses |
| AlumniDirectory.QueryStable | components/directory/alumni-directory.tsx:154-165 | records tying under the key keep their filtered relative order |
| AlumniDirectory.UnknownKeyKeepsOrder | components/directory/alumni-directory.tsx:162-163 | an unknown key leaves the filtered order unchanged |
| AlumniDirectory.QueryResortable | components/directory/alumni-directory.tsx:154-165 | sorting the result again by the same key changes nothing |
| AlumniDirectory.IndustriesIgnored | components/directory/alumni-directory.tsx:113-151 | the `industries` field of the query has no effect on the result |
| AlumniDirectory.MajorExample | components/directory/alumni-directory.tsx:130-132 | a Computer Science major filter keeps the CS graduate and drops the Business one |
| AlumniDirectory.SearchExample | components/directory/alumni-directory.tsx:117-126 | the query "goo" finds the Google employee only |
| AlumniDirectory.GooQuery | components/directory/alumni-directory.tsx:117-126 | the "goo" query matches one profile and not the other |
| AlumniDirectory.SearchNeedsFirstLetter | components/directory/alumni-directory.tsx:117-126 | a record none of whose searched fields (name, company, role, every skill, every interest) holds the query's first letter in either case is not matched |
| AlumniDirectory.YearExample | components/directory/alumni-directory.tsx:158-159 | by "year" the class of 2019 is listed before the class of 2018 |
| AlumniDirectory.SharedSortChangesTies | components/directory/alumni-directory.tsx:154 | after a name render reorders the shared array, a year render with tied years keeps the new order instead of the seed order |
| AlumniDirectory.Directory.constructor | components/directory/alumni-directory.tsx:11-111 | the directory works on the module-level mock array itself (holding the mock alumni, in whatever order an earlier mount's sort left them), with sort key "name" and filters `{}` |
| AlumniDirectory.Directory.SetSortBy | components/directory/alumni-directory.tsx:198 | only the sort key changes |
| AlumniDirectory.Directory.SetFilters | components/directory/alumni-directory.tsx:185 | only the filters change |
| AlumniDirectory.Directory.FilteredAndSortedAlumni | components/directory/alumni-directory.tsx:113-168 | the shown array holds QueryAlumni; with no active stage it is the shared array, sorted in place; otherwise a fresh array, and the records are untouched |
| AlumniDirectory.Directory.SortedCopyOfAlumni | components/directory/alumni-directory.tsx:113-168 | corrected form: a fresh array holding QueryAlumni, with the shared array unchanged |
| AlumniDirectory.ApplyStages | components/directory/alumni-directory.tsx:114-151 | the six stages over arrays yield the filtered records, and return the input array itself when none is active |
| AlumniDirectory.RunCategoryStages | components/directory/alumni-directory.tsx:117-142 | search, major, year and location stages, each applied only when active |
| AlumniDirectory.RunToggleStages | components/directory/alumni-directory.tsx:145-151 | mentoring and networking stages, each applied only when active |
| JobFilters.Panel.constructor | components/jobs/job-filters.tsx:20-28 | empty query and lists, salary range [0, 200000], toggles off |
| JobFilters.Panel.SetSearchQuery | components/jobs/job-filters.tsx:125 | only the query changes |
| JobFilters.Panel.CheckType | components/jobs/job-filters.tsx:140-146 | checking appends the type; unchecking removes every copy of it; nothing else changes; no duplicates arise when only unchecked types are checked |
| JobFilters.Panel.CheckExperience | components/jobs/job-filters.tsx:165-171 | the same for experience levels |
| JobFilters.Panel.SelectLocation | components/jobs/job-filters.tsx:186-190 | a non-empty, unselected location is appended, anything else ignored; the list stays duplicate-free |
| JobFilters.Panel.SelectIndustry | components/jobs/job-filters.tsx:212-216 | the same for industries |
| JobFilters.Panel.SetSalaryRange | components/jobs/job-filters.tsx:237-239 | only the salary range changes |
| JobFilters.Panel.SetRemoteOnly | components/jobs/job-filters.tsx:257 | only the remote toggle changes |
| JobFilters.Panel.SetAlumniPosted | components/jobs/job-filters.tsx:263 | only the alumni toggle changes |
| JobFilters.Panel.SetUrgentOnly | components/jobs/job-filters.tsx:269 | only the urgent toggle changes |
| JobFilters.Panel.HandleSearch | components/jobs/job-filters.tsx:55-68 | emits exactly the nine state fields and changes nothing; from the initial state it emits the untouched-search query |
| JobFilters.Panel.ClearFilters | components/jobs/job-filters.tsx:70-81 | restores the initial state and emits `{}` |
| JobFilters.Panel.RemoveFilter | components/jobs/job-filters.tsx:83-98 | the new state is RemovedFrom of the old one; validity is kept |
| JobFilters.RemovedFrom | components/jobs/job-filters.tsx:83-98 | the list the kind names keeps, in order, exactly its entries other than the value; every other list and field is unchanged; an unknown kind changes nothing |
| JobFilters.RemoveFilterDropsBadge | components/jobs/job-filters.tsx:83-105 | after removal the badge is gone, and every badge of another kind remains |
| JobFilters.RemoveFilterKeepsValid | components/jobs/job-filters.tsx:83-98 | removing keeps every list duplicate-free |
| JobFilters.Tagged | components/jobs/job-filters.tsx:101-104 | one badge per value, in order, labelled with the value |
| JobFilters.TaggedMembers | components/jobs/job-filters.tsx:101-104 | a badge is in the tagged list exactly when its kind matches, its label is its value and its value is listed |
| JobFilters.Panel.ActiveFilters | components/jobs/job-filters.tsx:100-105 | the badge count is the sum of the four list lengths |
| JobFilters.ActiveFiltersMembers | components/jobs/job-filters.tsx:100-105 | a badge is shown exactly when its value is in the list of its kind (type, experience, location, industry) |
| JobFilters.Panel.LocationOptions | components/jobs/job-filters.tsx:196-197 | the dropdown offers exactly the catalogue locations not yet selected |
| JobFilters.Panel.IndustryOptions | components/jobs/job-filters.tsx:222-223 | the dropdown offers exactly the catalogue industries not yet selected |
| Selection.AddIfAbsent | components/jobs/job-filters.tsx:187-189 | appends a non-empty absent value, otherwise leaves the list alone |
| Selection.AddIfAbsentKeepsClean | components/directory/search-filters.tsx:143-146 | adding keeps a list duplicate-free and free of "", and its members are the old ones plus the value when non-empty |
| Selection.RemoveAllKeepsClean | components/directory/search-filters.tsx:90-105 | removing keeps a list duplicate-free and free of "" |
| Selection.Unselected | components/directory/search-filters.tsx:153-154 | the options are an order-preserving subsequence of the catalogue and hold exactly its unselected entries |
| SearchFilters.Panel.constructor | components/directory/search-filters.tsx:19-25 | empty query and lists, toggles off |
| SearchFilters.Panel.SetSearchQuery | components/directory/search-filters.tsx:132 | only the query changes |
| SearchFilters.Panel.SelectMajor | components/directory/search-filters.tsx:143-146 | a non-empty unselected major is appended, anything else ignored; the list stays clean |
| SearchFilters.Panel.SelectYear | components/directory/search-filters.tsx:169-172 | the same for graduation years |
| SearchFilters.Panel.SelectLocation | components/directory/search-filters.tsx:195-198 | the same for locations |
| SearchFilters.Panel.SelectIndustry | components/directory/search-filters.tsx:221-224 | the same for industries |
| SearchFilters.Panel.SetAvailableForMentoring | components/directory/search-filters.tsx:247 | only the mentoring toggle changes |
| SearchFilters.Panel.SetOpenToNetworking | components/directory/search-filters.tsx:253 | only the networking toggle changes |
| SearchFilters.Panel.HandleSearch | components/directory/search-filters.tsx:66-77 | emits exactly the seven state fields and changes nothing |
| SearchFilters.Panel.ClearFilters | components/directory/search-filters.tsx:79-88 | restores the initial state and emits `{}` |
| SearchFilters.Panel.RemoveFilter | components/directory/search-filters.tsx:90-105 | the new state is RemovedFrom of the old one; validity is kept |
| SearchFilters.RemovedFrom | components/directory/search-filters.tsx:90-105 | the list the kind names keeps, in order, exactly its entries other than the value; every other list and field is unchanged; an unknown kind changes nothing |
| SearchFilters.RemoveFilterDropsBadge | components/directory/search-filters.tsx:90-112 | after removal the badge is gone, and badges of other kinds remain |
| SearchFilters.RemoveFilterKeepsValid | components/directory/search-filters.tsx:90-105 | removing keeps the four lists clean |
| SearchFilters.Caption | components/directory/search-filters.tsx:109 | a year badge reads "Class of " + year; other badges read their value |
| SearchFilters.Tagged | components/directory/search-filters.tsx:108-111 | one badge per value, in order, with its caption |
| SearchFilters.TaggedMembers | components/directory/search-filters.tsx:108-111 | badge membership matches kind, caption and listed value |
| SearchFilters.ActiveFiltersOf | components/directory/search-filters.tsx:107-112 | the badge count is the sum of the four list lengths |
| SearchFilters.ActiveFiltersMembers | components/directory/search-filters.tsx:107-112 | a badge is shown exactly when its value is in the list of its kind |
| SearchFilters.Panel.ActiveFilters | components/directory/search-filters.tsx:107-112 | the badge count is the sum of the four list lengths |
| SearchFilters.Panel.MajorOptions | components/directory/search-filters.tsx:153-154 | exactly the unselected catalogue majors |
| SearchFilters.Panel.YearOptions | components/directory/search-filters.tsx:179-180 | exactly the unselected catalogue years |
| SearchFilters.Panel.LocationOptions | components/directory/search-filters.tsx:205-206 | exactly the unselected catalogue locations |
| SearchFilters.Panel.IndustryOptions | components/directory/search-filters.tsx:231-232 | exactly the unselected catalogue industries |
| RegisterForm.Submitted | components/auth/register-form.tsx:42-49 | before step 3 the step advances by one and nothing else changes; at step 3 only the loading flag rises |
| RegisterForm.Completed | components/auth/register-form.tsx:53 | only the loading flag drops |
| RegisterForm.SteppedBack | components/auth/register-form.tsx:279-285 | Back, offered only after step 1, decrements the step and changes nothing else |
| RegisterForm.WithField | components/auth/register-form.tsx:56-58 | the field takes the new value; every other field, the step and the flag keep theirs |
| RegisterForm.StepCaption | components/auth/register-form.tsx:268-269 | 1 "Basic information", 2 "Profile details", otherwise "Preferences" |
| RegisterForm.ButtonLabel | components/auth/register-form.tsx:290-299 | "Creating account..." while loading, else "Create account" at step 3, else "Continue" |
| RegisterForm.TransitionsKeepRange | components/auth/register-form.tsx:19-53 | every transition keeps the step within 1..3 |
| RegisterForm.BackInvertsContinue | components/auth/register-form.tsx:44-47 | Back undoes Continue and Continue undoes Back |
| RegisterForm.FullRun | components/auth/register-form.tsx:19-54 | two submits from the fresh form reach step 3 with the data untouched; the third raises loading and its completion returns to step 3 idle |
| RegisterForm.Wizard.constructor | components/auth/register-form.tsx:16-40 | step 1, not loading, both passwords hidden, empty text fields, networking allowed, terms and mentoring not |
| RegisterForm.Wizard.HandleSubmit | components/auth/register-form.tsx:42-49 | the state becomes Submitted of the old one; step range kept |
| RegisterForm.Wizard.SubmitCompleted | components/auth/register-form.tsx:51-53 | the state becomes Completed of the old one |
| RegisterForm.Wizard.Back | components/auth/register-form.tsx:279-285 | the state becomes SteppedBack of the old one; step range kept |
| RegisterForm.Wizard.HandleInputChange | components/auth/register-form.tsx:56-58 | the state becomes WithField of the old one |
| RegisterForm.Wizard.TogglePassword | components/auth/register-form.tsx:128 | flips password visibility only |
| RegisterForm.Wizard.ToggleConfirmPassword | components/auth/register-form.tsx:152 | flips confirmation visibility only |
| CompatibilityScore.ScoreColor | components/ai/compatibility-score.tsx:16-21 | green iff at least 90, blue iff 80..89, yellow iff 70..79, gray iff below 70 |
| CompatibilityScore.ScoreLabel | components/ai/compatibility-score.tsx:23-28 | "Excellent Match" iff at least 90, "Great Match" iff 80..89, "Good Match" iff 70..79, "Fair Match" iff below 70 |
| CompatibilityScore.ColorAndLabelAgree | components/ai/compatibility-score.tsx:16-28 | colour and label both come from the same band |
| CompatibilityScore.ColorMatchesLabel | components/ai/compatibility-score.tsx:16-28 | two scores share a colour exactly when they share a label |
| CompatibilityScore.BandLabelInjective | components/ai/compatibility-score.tsx:16-28 | different bands have different labels and different colours |
| CompatibilityScore.BandsMonotone | components/ai/compatibility-score.tsx:23-28 | a higher score never falls in a lower band |
| CompatibilityScore.Render | components/ai/compatibility-score.tsx:35-61 | shows the score as given with its colour and label, and one (name, match) row per factor |
| CompatibilityScore.WeightsUnused | components/ai/compatibility-score.tsx:9-10 | factors differing only in weight render identically |
| RecommendationsFeed.Visible | components/ai/recommendations-feed.tsx:108-111 | never more recommendations than given |
| RecommendationsFeed.AllShowsEverything | components/ai/recommendations-feed.tsx:109 | "all" shows every recommendation in the original order |
| RecommendationsFeed.VisibleMembers | components/ai/recommendations-feed.tsx:108-111 | the result is an order-preserving subsequence holding exactly the recommendations whose type equals the filter (or all, for "all") |
| RecommendationsFeed.EmptyStateExactly | components/ai/recommendations-feed.tsx:175 | the empty-state block appears exactly when no recommendation passes the filter |
| RecommendationsFeed.MockFilter | components/ai/recommendations-feed.tsx:36-111 | each of the five types selects exactly its one mock recommendation |
| RecommendationsFeed.MockUnlistedType | components/ai/recommendations-feed.tsx:108-111 | a type no mock has shows the empty state |
| RecommendationsFeed.Feed.constructor | components/ai/recommendations-feed.tsx:32-36 | filter "all", not refreshing, the mock recommendations |
| RecommendationsFeed.Feed.SetFilter | components/ai/recommendations-feed.tsx:135 | only the filter changes |
| RecommendationsFeed.Feed.HandleRefresh | components/ai/recommendations-feed.tsx:113-114 | the refresh flag rises; filter and shown data unchanged |
| RecommendationsFeed.Feed.RefreshDone | components/ai/recommendations-feed.tsx:116-117 | the refresh flag drops; filter and shown data unchanged |
| JobCard.DiffDays | components/jobs/job-card.tsx:82-83 | the least whole number of days covering the absolute gap, so never negative |
| JobCard.DiffDaysSymmetric | components/jobs/job-card.tsx:82-83 | past and future gaps give the same count, 0 only for the same instant |
| JobCard.TimeAgo | components/jobs/job-card.tsx:85-88 | 1 is "1 day"; other values below 7 (0 included) are "N days"; 7..29 are weeks, 30 and up months, with the count the day total rounded up to the unit |
| JobCard.TimeAgoRoundsUp | components/jobs/job-card.tsx:85-88 | the phrase stands for at least the elapsed days and less than one unit more |
| JobCard.TimeAgoMonotone | components/jobs/job-card.tsx:85-88 | an older posting never gets a finer unit or a smaller count |
| JobCard.WeeksOverlapFirstMonth | components/jobs/job-card.tsx:87-88 | 29 days read "5 weeks", 30 days "1 month", a shorter span |
| JobCard.FormatSalary | components/jobs/job-card.tsx:73-77 | null exactly without a salary; otherwise currency, min and max as given |
| JobCard.TypeColor | components/jobs/job-card.tsx:43-56 | Full-time green, Part-time blue, Contract purple, Internship orange, gray iff not a catalogue type |
| JobCard.ExperienceColor | components/jobs/job-card.tsx:58-71 | Entry yellow, Mid blue, Senior purple, Executive red, gray iff not a catalogue level |
| JobCard.CatalogueColorsDistinct | components/jobs/job-card.tsx:43-71 | distinct catalogue values get distinct colours |
| JobCard.MatchBadge | components/jobs/job-card.tsx:121-125 | the star badge appears iff the score is present and non-zero, showing that score; a score of 0 renders a bare "0"; a missing score renders nothing |
| JobCard.RequirementBadges | components/jobs/job-card.tsx:153-169 | drawn iff there are requirements: at most three, a prefix of the list, "+n more" iff more than three, every requirement counted once |
| Badges.Truncate | components/ai/recommendation-card.tsx:136-145 | at most three shown, a prefix of the list, "+n more" iff there are more than three, with n the rest |
| Badges.TruncateAccountsForAll | components/jobs/job-card.tsx:157-166 | the shown badges followed by the counted rest are exactly the list |
| RecommendationCard.CompatibilityColor | components/ai/recommendation-card.tsx:71-76 | green iff at least 90, blue iff 80..89, yellow iff 70..79, gray iff below 70 |
| RecommendationCard.SameBandsAsScoreWidget | components/ai/recommendation-card.tsx:71-76 | the card colours every score as the score widget does |
| RecommendationCard.TypeColor | components/ai/recommendation-card.tsx:54-69 | connection blue, mentor green, job purple, event orange, opportunity yellow, gray iff not a listed type |
| RecommendationCard.IconOf | components/ai/recommendation-card.tsx:37-52 | users, message, briefcase, calendar, trend icon per type, users for anything else |
| RecommendationCard.TypeBadgesDistinct | components/ai/recommendation-card.tsx:37-69 | distinct types get distinct colours and icons |
| RecommendationCard.ActionLabel | components/ai/recommendation-card.tsx:34 | the given label, or "Connect" when omitted |
| RecommendationCard.RowsOf | components/ai/recommendation-card.tsx:102-131 | one row per present, non-empty field, with its value, and no other rows |
| RecommendationCard.RowsOfAscending | components/ai/recommendation-card.tsx:102-131 | rows keep the order of the fields they come from |
| RecommendationCard.MetadataRows | components/ai/recommendation-card.tsx:100-131 | no rows without metadata; otherwise exactly the present non-empty fields, each once, in the order name, company, location, date, experience |
| RecommendationCard.SkillBadges | components/ai/recommendation-card.tsx:132-146 | drawn iff skills are present and non-empty: at most three, a prefix, "+n more" iff more than three |
| Text.Lower | components/jobs/job-board.tsx:135-141 | lower-cases every ASCII capital and leaves every other character |
| Text.LowerIdempotent | components/jobs/job-board.tsx:135-141 | lower-casing twice is lower-casing once |
| Text.Contains | components/jobs/job-board.tsx:138-141 | true exactly when the needle occurs at some position |
| Text.ContainsEmpty | components/jobs/job-board.tsx:134 | every text contains the empty query |
| Text.Compare | components/directory/alumni-directory.tsx:157 | the comparator yields -1, 0 or 1, and 0 only for equal strings |
| Text.CompareAntisymmetric | components/directory/alumni-directory.tsx:157 | swapping the arguments negates the comparison |
| Text.CompareTransitive | components/directory/alumni-directory.tsx:161 | the comparison is transitive |
| Text.ParseInt | components/directory/alumni-directory.tsx:159 | NaN (None) exactly when the text does not start with a digit |
| Text.ParseAllDigits | components/directory/alumni-directory.tsx:159 | an all-digit text parses to its decimal value |
| Seqs.Filter | components/jobs/job-board.tsx:136-179 | never longer than the input, and draws no element more often than the input holds it |
| Seqs.FilterMembers | components/jobs/job-board.tsx:136-179 | keeps exactly the elements satisfying the predicate |
| Seqs.FilterIsSubseq | components/ai/recommendations-feed.tsx:108 | the filtered list is an order-preserving subsequence |
| Seqs.PipelineIsFilter | components/jobs/job-board.tsx:131-180 | a chain of optional stages equals one filter by the conjunction of the active ones |
| Seqs.RunStage | components/jobs/job-board.tsx:136-179 | an active stage filters into a fresh array; an inactive one returns the same array |
| Sorting.Sort | components/jobs/job-board.tsx:183 | sorting returns a permutation of the input |
| Sorting.SortSorted | components/jobs/job-board.tsx:183 | with a consistent comparator the result is sorted |
| Sorting.SortStable | components/directory/alumni-directory.tsx:154 | equal elements keep their relative order |
| Sorting.SortByZero | components/jobs/job-board.tsx:195-196 | a comparator that is always 0 changes nothing |
| Sorting.SortIdempotent | components/jobs/job-board.tsx:183 | sorting a sorted result again changes nothing |
| Sorting.SortInPlace | components/jobs/job-board.tsx:183 | sorting the array in place leaves the stable sort of its old contents |

## Left out

- Text.Lower: only ASCII letters are lower-cased; `toLowerCase` on other Unicode letters is not modelled.
- Text.Compare: `localeCompare` is replaced by code-point lexicographic order, a total order on strings that ignores locale collation.
- Text.ParseInt: leading whitespace and a sign are not accepted, and a "0x"/"0X" prefix is not read as base 16: the model gives 0 for "0x7E8" (JavaScript gives 2024) and for "0x" (JavaScript gives NaN). A fractional or exponent part is ignored after the leading digits, as in JavaScript. Every graduation year in the data is four decimal digits.
- AlumniDirectory.QuerySortedByYear: stated only when every graduation year parses. A `NaN` comparator is taken as 0, and `Array.prototype.sort` gives no order guarantee for such an inconsistent comparator.
- Sorting.SortInPlace: the engine's sort algorithm (TimSort) is replaced by insertion sort. For a consistent comparator both give the same stable result.
- Dates are epoch milliseconds rather than ISO strings passed to `new Date`. Match scores, salaries and applicant counts are integers. Floating point is not modelled.
- JobCard.FormatSalary: `toLocaleString` digit grouping is not modelled. The line carries the currency and both bounds as numbers.
- JobCard.TimeAgo: the result is a phrase kind with its count, not the rendered English string. That string reads "1 months ago" at exactly 30 days.
- Timers: the 2000 ms registration delay, the 1500 ms refresh delay and the recommendation engine's delay are each split into two transitions (start and completion). Nothing models time passing.
- `Math.random` compatibility scores and the recommendation engine component: random values, not an algorithm.
- `console.log` action handlers (apply, bookmark, view, connect, message, recommendation action), and the registration payload log.
- JSX markup, Tailwind class strings, icons as components, layout and the view-mode toggle: colours and icons are enums.
- The Slider, Select and Checkbox widgets themselves: only the callbacks they invoke are modelled. The Checkbox callbacks receive only booleans, because each Checkbox is given a boolean `checked`.
- HTML `required` field validation in the registration form, and the sign-in link that appears at step 1.
- The "Post Job" button that depends on the current user's role, the static pages, the dashboards, the landing sections, the header and the alumni card: they contain no decision logic.
- RegisterForm.Wizard.HandleSubmit: the submit button is disabled while loading. The model does not forbid a submit during loading; it then leaves the state as it is, with the flag raised.

## Findings

| source | as written | input that shows it | evidently intended | confidence | as-written member | corrected member |
|---|---|---|---|---|---|---|
| components/jobs/job-board.tsx:131,183 | with no active stage `filtered` is `mockJobs` itself, and `filtered.sort` reorders the shared array, so the earlier sort decides how later ties come out | two same-day jobs with scores 50 then 90: a relevance render stores [90, 50], and a later date render shows [90, 50] instead of the seed order [50, 90] | sort a copy, so every render orders ties by the seed order | not executed; low (the shipped jobs have distinct dates) | JobBoard.SharedSortChangesTies | JobBoard.Board.SortedCopyOfJobs |
| components/directory/alumni-directory.tsx:114,154 | with no active stage `filtered` is `mockAlumni` itself, and `filtered.sort` reorders the shared array | two 2018 graduates seeded [Bob, Ann]: a name render stores [Ann, Bob], and a later year render shows [Ann, Bob] instead of [Bob, Ann] | sort a copy | not executed; low (the shipped years are distinct) | AlumniDirectory.SharedSortChangesTies | AlumniDirectory.Directory.SortedCopyOfAlumni |
