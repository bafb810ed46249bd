# Career advisor: the logic inside the components

This project is a Dafny model of the small pieces of real logic in a career-guidance web
application. The application is written in TypeScript and React. Most of it is
declarative UI over hard-coded data. The modelled pieces are:

- **Education ROI projector** (`RoiProjector`, roi.dfy). The parent ROI panel adds up four
  cost items. It then runs a year-by-year loop: compound-growth earnings accumulate
  against that cost, one row is recorded per year, and the first year with a
  non-negative net value is locked in as the break-even year. From the result it
  derives the ROI percentage, the final-year salary and the cost breakdown.
  `Project`/`ProjectYears` are the loop as the component writes it. Each is proved
  equal to recursive specification functions (`CumulativeEarnings`, `Timeline`,
  `BreakEvenYear`), and the lemmas are about those functions.
- **Career quiz** (`CareerQuiz`, career_quiz.dfy; `QuizResults`, quiz_results.dfy).
  - The four-question table.
  - The navigation state (`class Quiz`: current question, answers, completed flag) and
    its handlers.
  - The Next button's guard.
  - The scoring: a `forEach` tally of answer categories (`Tally`, a loop proved equal
    to `TallyOf`), rounded percentages, and a stable sort that picks the leading
    category.
- **Selection lists** (`Selection`, selection.dfy). These are the rules shared by the
  college page (`CollegeRecommendations`) and the course page (`CourseRecommendations`):
  - a favourites/saved list toggled in and out;
  - a comparison list that refuses a fourth entry;
  - the toast each press raises.
- **Canned chat assistant** (`AiGuidance`, ai_guidance.dfy).
  - A priority-ordered keyword classifier over the lower-cased message, using
    substring containment. It is proved equal to a first-matching-group reading of a
    keyword table.
  - The replies, modelled as an intent, the audience the text was written for, and the
    exact suggestion list.
  - The chat log (`class ChatSession`), which ignores blank input and blocks typing and
    sending while a reply is pending.
- **Role resolution and tab access** (`Dashboard`, dashboard.dfy; `Sidebar`, sidebar.dfy).
  - The dashboard resolves the signed-in user's role: the metadata role defaults to
    student, an existing profile overrides it, and admin maps to government. The role
    is stored, and the role label and the rendered dashboard follow from it.
  - The sidebar reads the stored role, maps it to its allowed tabs and guards tab
    switching.
- **Career path summary** (`CareerPath`, career_path.dfy). Every step whose duration
  mentions "years" contributes the first run of digits in that duration. The milestone
  count is the timeline length.
- **Analytics export** (`Analytics`, analytics.dfy). The per-role overview metrics are
  serialised to CSV: a header, then one line per metric, cells joined with "," and lines
  with "\n", with no quoting.

Shared helpers:

- `Text` (text.dfy) holds the JavaScript string operations the code relies on (`includes`,
  `trim`, `toLowerCase`, `charAt(0).toUpperCase() + slice(1)`, `join`), plus a `split` used
  to read the CSV back.
- `Options` (options.dfy) holds `Option`.
- `Notifications` (notifications.dfy) holds the success/error toast values.

Numbers:

- The ROI is computed over exact `real`s.
- `Math.round(c / t * 100)` is modelled as the exact nearest integer to 100c/t, with
  halves rounded up. JavaScript rounds the floating-point product, and for large totals
  the two can differ: c = 29, t = 200 gives 14 in JavaScript (0.145 × 100 is
  14.499999999999998) and 15 here. The quiz's totals are at most 4 (`TotalBound`), and
  for those the two agree.
- Counters and indices are `nat`.

Services and I/O become parameters:

- The authentication service and the profile lookup are the `Auth` and `ProfileLookup`
  arguments of `UnifiedDashboard.Init`.
- `localStorage` is a `map` field, or the `StoredHistory`/`Option` argument.
- The reply delay splits sending into `SendMessage` and `DeliverReply`.

## Model

| member | source | states |
|---|---|---|
| RoiProjector.TotalCost | components/parent-roi-insights.tsx:82-86 | definition: the four cost items added up (what every row, the ROI and the breakdown are measured against; see TotalCostIndependent) |
| RoiProjector.CumulativeEarnings | components/parent-roi-insights.tsx:93-97 | definition: the earnings of years 1..y, year k earning salary·(1 + rate/100)^(k−1); characterised in closed form by CumulativeClosedForm |
| RoiProjector.RoiPercentage | components/parent-roi-insights.tsx:112-113 | definition: (final cumulative earnings − total) / total × 100, undefined for a zero total; see RoiUndefinedIffNoCost and RoiMeansBreakEven |
| RoiProjector.ProjectedSalary | components/parent-roi-insights.tsx:114-116 | definition: starting salary times the multiplier to the power careerLength − 1, the power −1 for a length of 0; see ProjectedIsFinalYearEarnings |
| RoiProjector.CostBreakdown | components/parent-roi-insights.tsx:118-123 | four slices, one per cost item, whose values add up to the total cost |
| RoiProjector.Timeline | components/parent-roi-insights.tsx:93-105 | exactly one row per year 1..n, in ascending year order; row i is year i+1 with the total cost, cumulative earnings and net value of that year |
| RoiProjector.BreakEvenYear | components/parent-roi-insights.tsx:90-109 | the result is 0 with every year's net value negative, or the smallest year whose net value is ≥ 0 (every earlier year negative) |
| RoiProjector.ProjectYears | components/parent-roi-insights.tsx:89-110 | the loop ends with the cumulative earnings, break-even year and rows that the specification functions give for the career length |
| RoiProjector.Project | components/parent-roi-insights.tsx:81-134 | the results record: total cost, rows, break-even, payback (break-even year or -1), ROI, projected salary and cost breakdown each equal their specification |
| RoiProjector.TotalCostIndependent | components/parent-roi-insights.tsx:82-102 | the total cost does not depend on salary, growth rate or career length (true by definition), and every row of the timeline carries it unchanged |
| RoiProjector.CumulativeClosedForm | components/parent-roi-insights.tsx:93-97 | year y's cumulative earnings times (m − 1) equal salary × (mʸ − 1): the geometric-series sum of salary·m^(k−1) for k = 1..y |
| RoiProjector.ClosedFormStep | components/parent-roi-insights.tsx:94-97 | proof step for CumulativeClosedForm: one more year keeps the closed form |
| RoiProjector.GeometricStep | components/parent-roi-insights.tsx:94-97 | proof step for ClosedFormStep: adding s·p and multiplying p by m preserves c(m−1) = s(p−1) |
| RoiProjector.ZeroGrowthEarnings | components/parent-roi-insights.tsx:94-97 | at 0 % growth the cumulative earnings are salary × years |
| RoiProjector.PowOne | components/parent-roi-insights.tsx:95 | proof step for ZeroGrowthEarnings: every power of 1 is 1 |
| RoiProjector.PowPositive | components/parent-roi-insights.tsx:95 | proof step for EarningsStrictlyIncrease: a positive base keeps every power positive |
| RoiProjector.EarningsStrictlyIncrease | components/parent-roi-insights.tsx:94-97 | with a positive salary and growth above −100 % each year adds earnings |
| RoiProjector.BreakEvenLasts | components/parent-roi-insights.tsx:98-109 | once the net value is ≥ 0 it stays ≥ 0 in every later year |
| RoiProjector.RoiMeansBreakEven | components/parent-roi-insights.tsx:112-113 | with a positive cost the ROI is defined, it is non-negative exactly when the final net value is, and a non-negative ROI means a break-even year was reached |
| RoiProjector.RoiUndefinedIffNoCost | components/parent-roi-insights.tsx:113 | the ROI is undefined (a division by zero in the component) exactly when the total cost is 0 |
| RoiProjector.ProjectedIsFinalYearEarnings | components/parent-roi-insights.tsx:114-116 | the projected salary is the final year's own earnings, and `startingSalary` for a one-year career |
| RoiProjector.NoSalaryNeverBreaksEven | components/parent-roi-insights.tsx:98-109 | a zero salary leaves every net value at −total; with a positive total the break-even year is 0 |
| RoiProjector.BreakEvenInSecondYear | components/parent-roi-insights.tsx:107-109 | a negative first year followed by a non-negative second year gives break-even year 2 |
| RoiProjector.DefaultScenario | components/parent-roi-insights.tsx:55-109 | the form's initial values give a total of 95000, a year-1 net of −35000, 123000 earned by year 2 and break-even in year 2 |
| QuizResults.CategoryOf | components/quiz-results.tsx:38-47 | definition: `ans in counts`, the category whose key the answer is; see CategoryOfKey |
| QuizResults.TallyOf | components/quiz-results.tsx:45-49 | definition: the answers counted left to right, each counted one bumping its category; see Tally, TallyCountsOccurrences |
| QuizResults.Total | components/quiz-results.tsx:51 | definition: the sum of the four counts; see TotalBound, TotalExact |
| QuizResults.Percent | components/quiz-results.tsx:54-57 | definition: the rounded percentage of a count in a total; see PercentIsNearest |
| QuizResults.Best | components/quiz-results.tsx:60-61 | definition: the first leader of the four categories in listed order; see BestIsFirstMaximum |
| QuizResults.CategoryOfKey | components/quiz-results.tsx:38-47 | an answer counts towards a category exactly when it equals that category's key |
| QuizResults.Bump | components/quiz-results.tsx:47 | `counts[ans]++` raises that category by one, leaves the others unchanged and raises the total by one |
| QuizResults.Tally | components/quiz-results.tsx:45-49 | the `forEach` loop computes the tally of the answers in order |
| QuizResults.TallyCountsOccurrences | components/quiz-results.tsx:45-49 | each category's tally is the number of answers equal to its key; other values are ignored |
| QuizResults.ShareAtMostTotal | components/quiz-results.tsx:51 | proof step: one count is at most the sum of the four |
| QuizResults.TotalBound | components/quiz-results.tsx:45-51 | the total is at most the number of answers |
| QuizResults.TotalExact | components/quiz-results.tsx:45-51 | the total equals the number of answers exactly when every answer is a category key |
| QuizResults.NothingCounted | components/quiz-results.tsx:45-49 | with no counted answer the tally is all zeros |
| QuizResults.PercentIsNearest | components/quiz-results.tsx:54-57 | the rounded percentage P satisfies (2P−1)t ≤ 200c < (2P+1)t, i.e. it is `Math.round(100c/t)`, and it is ≤ 100 when c ≤ t |
| QuizResults.FloorDivision | components/quiz-results.tsx:54-57 | proof step for PercentIsNearest: a floor quotient brackets its dividend |
| QuizResults.Distribute | components/quiz-results.tsx:54-57 | proof step for PercentIsNearest: distributing (2r ± 1)·t |
| QuizResults.MulStrict | components/quiz-results.tsx:54-57 | proof step for PercentIsNearest: cancelling a positive factor keeps a strict inequality |
| QuizResults.Percentages | components/quiz-results.tsx:53-58 | each percentage is the rounded share of its count in the total (0 when the total is 0) |
| QuizResults.PercentagesInRange | components/quiz-results.tsx:53-58 | every percentage lies in 0..100, and all are 0 when nothing was counted |
| QuizResults.FourAnswersQuarterSteps | components/quiz-results.tsx:45-58 | with four counted answers each percentage is 25 × its count and they sum to 100 |
| QuizResults.QuarterPercent | components/quiz-results.tsx:54-57 | proof step for FourAnswersQuarterSteps: a count out of 4 rounds to 25 × the count |
| QuizResults.PercentagesMayMissHundred | components/quiz-results.tsx:53-58 | one answer in each of three categories rounds to 33+33+33+0 = 99, not 100 |
| QuizResults.LeaderIndex | components/quiz-results.tsx:60 | the position of a highest score, every earlier position scoring strictly less |
| QuizResults.BestIsFirstMaximum | components/quiz-results.tsx:60-61 | `best` has the highest percentage, and any category listed before it has a strictly lower one (stable sort, so ties go to the first listed) |
| QuizResults.NoAnswersBestAnalytical | components/quiz-results.tsx:53-61 | with no counted answer, `best` is analytical |
| CareerQuiz.QuestionTable | components/career-quiz.tsx:32-81 | four questions with ids 1..4 in order, four options each, every option value a category key, and distinct values within a question |
| CareerQuiz.Progress | components/career-quiz.tsx:90 | definition: (q + 1) / 4 × 100; see ProgressSteps |
| CareerQuiz.ProgressSteps | components/career-quiz.tsx:90 | progress is 25·(q+1): 25 on the first question and 100 on the last |
| CareerQuiz.AnswerValues | components/career-quiz.tsx:148 | definition: `Object.values(answers)`, the answers in ascending question id |
| CareerQuiz.CompletedQuizScores | components/quiz-results.tsx:45-58 | a quiz finished with offered answers is scored on four counted values, and the percentages sum to 100 |
| CareerQuiz.CompletedQuizShowsFullScores | components/career-quiz.tsx:147-148 | a quiz completed through the handlers, with answers picked from the options, hands the results screen an answer for each question 1..4, all counted, and percentages that sum to 100 |
| CareerQuiz.Quiz.constructor | components/career-quiz.tsx:84-86 | question 0, no answers, not completed |
| CareerQuiz.Quiz.Shown | components/career-quiz.tsx:151 | the question shown at position q has id q+1 |
| CareerQuiz.Quiz.Answer | components/career-quiz.tsx:92-94 | only `answers[questionId]` changes; no answer is removed and the position stays; an offered option keeps every stored answer an offered one |
| CareerQuiz.Quiz.Next | components/career-quiz.tsx:96-103 | advances by one before the last question; on the last it sets completed and stays; the position stays in 0..3 |
| CareerQuiz.Quiz.PressNext | components/career-quiz.tsx:96-103 | the Next button is disabled (line 215) without an answer for the shown question, so nothing happens; otherwise as Next. It keeps "every question before the shown one, and all of them once completed, is answered" |
| CareerQuiz.Quiz.Previous | components/career-quiz.tsx:105-107 | steps back, and changes nothing at question 0 |
| CareerQuiz.Quiz.Restart | components/career-quiz.tsx:141-145 | back to question 0 with no answers and not completed |
| Selection.Without | components/college-recommendations.tsx:75-87 | `filter` drops every occurrence of the name and keeps every other entry; the list shrinks exactly when the name was present |
| Selection.WithoutNoDup | components/college-recommendations.tsx:75 | filtering keeps a list duplicate-free and then removes exactly one entry |
| Selection.Toggled | components/college-recommendations.tsx:74-76 | a present name is filtered out, an absent one appended at the end; membership of the name flips and nothing else changes membership |
| Selection.ToggledNoDup | components/college-recommendations.tsx:74-76 | toggling never introduces a duplicate |
| Selection.ToggleTwiceAbsent | components/college-recommendations.tsx:74-76 | toggling an absent name twice restores the list |
| Selection.WithoutAppended | components/college-recommendations.tsx:75-76 | filtering out a name just appended to a list without it gives that list back |
| Selection.ToggleTwicePresent | components/college-recommendations.tsx:74-76 | toggling a present name twice moves it to the end |
| Selection.CompareToggled | components/college-recommendations.tsx:84-99 | definition: remove a present name, append an absent one below 3, otherwise refuse; see CompareKeepsLimit, CompareRefusedIffFull |
| Selection.CompareKeepsLimit | components/college-recommendations.tsx:84-99 | the comparison list never exceeds 3 entries or gains a duplicate; an added entry's count is the new length, 1..3 |
| Selection.CompareRefusedIffFull | components/college-recommendations.tsx:94-97 | a press is refused exactly when the name is absent and 3 are compared, and a refused press keeps the list |
| Selection.Decimal | components/college-recommendations.tsx:92 | the template literal's decimal digits of a count |
| Selection.CompareToast | components/college-recommendations.tsx:88-95 | the toast is an error exactly when the limit was reached; its texts are those of the three branches |
| CollegeRecommendations.Selections.constructor | components/college-recommendations.tsx:72-99 | both lists start empty, which satisfies the invariant |
| CollegeRecommendations.Selections.ToggleFavorite | components/college-recommendations.tsx:72-82 | favourites become the toggled list, the toast says "added to"/"removed from favorites", and no duplicate appears |
| CollegeRecommendations.Selections.ToggleCompare | components/college-recommendations.tsx:84-99 | the comparison list and toast follow CompareToggled/CompareToast; the invariant (≤ 3 entries, no duplicates) is kept |
| CourseRecommendations.Selections.constructor | components/course-recommendations.tsx:64-65 | both lists start empty |
| CourseRecommendations.Selections.SaveCourse | components/course-recommendations.tsx:87-97 | saved courses become the toggled list and the toast says "saved"/"removed from saved" |
| CourseRecommendations.Selections.CompareCourse | components/course-recommendations.tsx:99-114 | the comparison list and toast follow CompareToggled/CompareToast for courses; the invariant is kept |
| AiGuidance.Classify | components/ai-guidance-agent.tsx:134-208 | definition: the if-chain of keyword tests; see ClassifyIsFirstMatch |
| AiGuidance.ReplyFor | components/ai-guidance-agent.tsx:136-207 | definition: the reply of each branch, as intent, audience and suggestion list; see ReplyShape, ReplyAudience |
| AiGuidance.Respond | components/ai-guidance-agent.tsx:116-132 | definition: the lower-cased message classified and answered for the role |
| AiGuidance.MentionsThree | components/ai-guidance-agent.tsx:136 | a three-keyword group matches exactly when one of its keywords occurs |
| AiGuidance.ClassifyIsFirstMatch | components/ai-guidance-agent.tsx:134-208 | the if-chain picks the first keyword group (ROI, career, dashboard, course, salary) that occurs in the message, and falls back exactly when none does |
| AiGuidance.InitialSuggestions | components/ai-guidance-agent.tsx:92-114 | each role has four initial suggestions |
| AiGuidance.ReplyShape | components/ai-guidance-agent.tsx:142-207 | each reply answers its intent; a keyword branch offers three suggestions, and the fallback offers the role's initial four |
| AiGuidance.ReplyAudience | components/ai-guidance-agent.tsx:138-205 | which replies depend on the role: salary never; ROI and course only for parents; career only for students; dashboard and fallback always |
| AiGuidance.AndroidIsRoi | components/ai-guidance-agent.tsx:136 | matching is by substring, so "android" is an ROI question |
| AiGuidance.RoiBeforeCareer | components/ai-guidance-agent.tsx:136-155 | "roi of a career" gets the ROI reply, the earlier group |
| AiGuidance.TooLong | components/ai-guidance-agent.tsx:136 | proof step for the classification examples: a keyword longer than the message cannot occur in it |
| AiGuidance.GreetingFallsBack | components/ai-guidance-agent.tsx:194-207 | "hi" matches no group and gets the role's four initial suggestions |
| AiGuidance.WelcomeMessage | components/ai-guidance-agent.tsx:73-90 | the welcome message is from the assistant and offers the initial suggestions |
| AiGuidance.StorageKey | components/ai-guidance-agent.tsx:41-64 | the history key starts with "ai-chat-" |
| AiGuidance.StorageKeysDistinct | components/ai-guidance-agent.tsx:41-64 | different roles keep their histories under different keys |
| AiGuidance.Persisted | components/ai-guidance-agent.tsx:62-66 | the history is written under the role's key only when there is a message, and no other key changes |
| AiGuidance.ChatSession.constructor | components/ai-guidance-agent.tsx:40-59 | no reply pending; nothing stored gives the welcome message; a parsed history is loaded; an unparsable one leaves the log empty |
| AiGuidance.ChatSession.Type | components/ai-guidance-agent.tsx:453-457 | typing changes the box only when no reply is pending (the box is disabled while `isTyping`); the log never changes |
| AiGuidance.ChatSession.SetInput | components/ai-guidance-agent.tsx:228-230 | a suggestion click fills the box, also while a reply is pending; the log and the typing flag are unchanged |
| AiGuidance.ChatSession.SendMessage | components/ai-guidance-agent.tsx:210-221 | while a reply is pending (Send disabled, line 461) or for whitespace-only input nothing changes; otherwise one user message with the trimmed text is appended, the input is cleared, typing starts (line 118) and the trimmed text goes to the reply |
| AiGuidance.ChatSession.DeliverReply | components/ai-guidance-agent.tsx:116-132 | typing stops and one assistant reply, the classification of the lower-cased message, is appended |
| AiGuidance.SecondSendWaitsForReply | components/ai-guidance-agent.tsx:457-461 | on a fresh panel, sending "a", clicking "b" and sending again before the reply logs only "a"; "b" stays in the box |
| Text.LowerChar | components/ai-guidance-agent.tsx:123 | ASCII capitals map to lower case and every other character is kept |
| Text.Lower | components/ai-guidance-agent.tsx:123 | `toLowerCase` keeps the length, maps each character, and leaves no ASCII capital |
| Text.UpperChar | components/unified-sidebar.tsx:148 | ASCII lower-case letters map to capitals and every other character is kept |
| Text.Capitalize | components/unified-sidebar.tsx:148 | the first character is upper-cased and the rest kept |
| Text.Contains | components/ai-guidance-agent.tsx:136 | definition: `includes`, an occurrence at some offset |
| Text.TrimStart | components/ai-guidance-agent.tsx:211-216 | the suffix left after a run of whitespace, starting with a non-space or empty |
| Text.TrimEnd | components/ai-guidance-agent.tsx:211-216 | the prefix left before a run of whitespace, ending with a non-space or empty |
| Text.Trim | components/ai-guidance-agent.tsx:211-216 | definition: TrimEnd of TrimStart; see TrimIsSlice, TrimEmptyIffBlank |
| Text.TrimIsSlice | components/ai-guidance-agent.tsx:216 | `trim()` is a slice of the input with only whitespace cut off either side |
| Text.TrimEmptyIffBlank | components/ai-guidance-agent.tsx:211 | `!inputValue.trim()` holds exactly when the input is all whitespace |
| Text.Join | components/analytics-modal.tsx:127 | definition: the parts with the separator between neighbours; see SplitJoin |
| Text.Split | components/analytics-modal.tsx:127 | splitting always yields at least one piece (used to read the CSV back) |
| Text.SplitNoSep | components/analytics-modal.tsx:124 | a string without the separator splits into itself |
| Text.SplitAtFirst | components/analytics-modal.tsx:124-127 | splitting at the first separator peels off the text before it |
| Text.SplitCount | components/analytics-modal.tsx:124-127 | a split has one piece more than the string has separators |
| Text.SplitJoin | components/analytics-modal.tsx:124-127 | splitting undoes `join` when no part contains the separator |
| Text.JoinChars | components/analytics-modal.tsx:124-127 | every character of a join comes from a part or the separator |
| Sidebar.AllowedTabs | components/unified-sidebar.tsx:64-71 | definition: `roleAccessMap[role] || []`; see AllowedTabsExactly |
| Sidebar.AllowedTabsExactly | components/unified-sidebar.tsx:64-71 | student, parent and government open their own tab, admin opens government, and any other role (the empty one included) opens nothing |
| Sidebar.StoredRole | components/unified-sidebar.tsx:61 | definition: `getItem("userRole") || ""`, a missing role read as ""; see StoredRoleOpensActiveTab |
| Sidebar.AccessLabel | components/unified-sidebar.tsx:148 | definition: "Limited Access" for no role, else the capitalised role and " Access"; see StudentAccessLabel, LimitedReadsAsNone |
| Sidebar.StudentAccessLabel | components/unified-sidebar.tsx:148 | "student" shows "Student Access" |
| Sidebar.LimitedReadsAsNone | components/unified-sidebar.tsx:148 | a role spelled "limited" shows the same label as no role |
| Sidebar.SidebarState.constructor | components/unified-sidebar.tsx:56 | no role, no allowed tabs, not mounted |
| Sidebar.SidebarState.Mount | components/unified-sidebar.tsx:60-73 | the stored role and its allowed tabs are loaded, and the sidebar is mounted |
| Sidebar.SidebarState.IsTabAccessible | components/unified-sidebar.tsx:96-98 | definition: the tab is among the allowed tabs; TabSwitch is stated with it |
| Sidebar.SidebarState.TabSwitch | components/unified-sidebar.tsx:88-98 | an accessible tab becomes exactly the active tab; any other is refused with the access-denied error and nothing changes |
| Sidebar.SidebarState.ThemeToggle | components/unified-sidebar.tsx:108-111 | nothing before mount; afterwards dark becomes light and anything else dark |
| Dashboard.MetadataRole | app/dashboard/page.tsx:41 | a missing or empty metadata role is "student" |
| Dashboard.ResolvedRole | app/dashboard/page.tsx:41-65 | definition: an existing profile's role, else the metadata role (also when the insert failed); see RoleResolution |
| Dashboard.ProfileToasts | app/dashboard/page.tsx:50-62 | no toast for an existing profile, one otherwise: an error exactly when the insert failed |
| Dashboard.MapRole | app/dashboard/page.tsx:68 | admin becomes government and every other role is kept |
| Dashboard.RoleLabel | app/dashboard/page.tsx:77-80 | definition: "Government Admin" for government, else the capitalised role; see RoleLabels |
| Dashboard.RoleResolution | app/dashboard/page.tsx:40-68 | an existing profile's role overrides the metadata role, a missing profile keeps the metadata/default role, and the result is never "admin" |
| Dashboard.MapRoleIdempotent | app/dashboard/page.tsx:68 | mapping twice is mapping once |
| Dashboard.RoleLabels | app/dashboard/page.tsx:68-80 | the labels "Government Admin" (for admin), "Student" and "Parent" |
| Dashboard.Render | app/dashboard/page.tsx:107-118 | parent and government tabs show their dashboards, and any other tab the student one |
| Dashboard.UnifiedDashboard.constructor | app/dashboard/page.tsx:17-20 | the student tab, no email, loading |
| Dashboard.UnifiedDashboard.Init | app/dashboard/page.tsx:26-90 | signed out: the sign-in error, a redirect, nothing stored. Signed in: the mapped role and email are stored and shown, and the toasts are exactly the profile toast (none for an existing profile) followed by the welcome toast. Loading ends either way |
| Dashboard.StoredRoleOpensActiveTab | app/dashboard/page.tsx:68-74 | the role the page stores allows, in the sidebar, exactly the tab the page opens whenever it names a dashboard |
| CareerPath.FirstDigitRun | components/career-path-visualizer.tsx:249 | definition: the first maximal run of digits, or the empty string; see FirstDigitRunSpec |
| CareerPath.DecimalValue | components/career-path-visualizer.tsx:249 | definition: `Number.parseInt` of a digit string, with "" read as 0 as the `|| "0"` default gives |
| CareerPath.TotalDuration | components/career-path-visualizer.tsx:247-253 | definition: the sum of the steps' years grouped from the back; see ReduceYears, TotalDurationAppend |
| CareerPath.ReduceYears | components/career-path-visualizer.tsx:247-253 | the `reduce` folded from index 0 onto a starting total ends at that total plus TotalDuration: the left fold gives the same sum |
| CareerPath.Milestones | components/career-path-visualizer.tsx:262 | definition: the number of timeline steps |
| CareerPath.LeadingDigits | components/career-path-visualizer.tsx:249 | the longest all-digit prefix |
| CareerPath.FirstDigitAt | components/career-path-visualizer.tsx:249 | the position of the first digit, with no digit before it |
| CareerPath.FirstDigitRunSpec | components/career-path-visualizer.tsx:249 | `match(/\d+/)` gives the maximal digit run at the first digit, and nothing exactly when there is no digit |
| CareerPath.StepYears | components/career-path-visualizer.tsx:248-251 | definition: the value of the first digit run when the duration contains "years", else 0; see FirstDigitRunSpec and the duration examples |
| CareerPath.TotalDurationAppend | components/career-path-visualizer.tsx:247-253 | the total is additive over concatenated timelines |
| CareerPath.TotalDurationNoYears | components/career-path-visualizer.tsx:248 | a timeline where no duration mentions "years" totals 0 |
| CareerPath.SingleLeadingDigit | components/career-path-visualizer.tsx:249 | proof step for OneDigitYears: a single leading digit is the digit run, worth that digit |
| CareerPath.NoLetterY | components/career-path-visualizer.tsx:248 | proof step for UntimedStepsAddNothing: a duration without "y" cannot contain "years" and adds nothing |
| CareerPath.OneDigitYears | components/career-path-visualizer.tsx:248-251 | proof step for the duration examples: a "years" duration opening with a single digit adds that digit |
| CareerPath.UntimedStepsAddNothing | components/career-path-visualizer.tsx:248 | "Present", "During college" and "Career" add 0 |
| CareerPath.RangeCountsLowerEnd | components/career-path-visualizer.tsx:31 | "3-4 years" adds 3 and "1-2 years" adds 1 |
| CareerPath.WholeYearsCount | components/career-path-visualizer.tsx:88 | "3 years" adds 3 |
| CareerPath.FractionCountsWholePart | components/career-path-visualizer.tsx:155 | "5.5 years" adds 5 |
| CareerPath.OpenEndedCountsBound | components/career-path-visualizer.tsx:61 | "5+ years" adds 5 |
| CareerPath.SingularYearNotCounted | components/career-path-visualizer.tsx:248 | "1 year" does not contain "years" and adds 0 |
| CareerPath.TotalOfFive | components/career-path-visualizer.tsx:247-253 | proof step for the path totals: a five-step total is the sum of its steps' years |
| CareerPath.SoftwareEngineerTotal | components/career-path-visualizer.tsx:12-68 | the software engineering path has 5 milestones and totals 9 years, both as TotalDuration and as the `reduce` from 0 (ReduceYears) |
| CareerPath.DataScientistTotal | components/career-path-visualizer.tsx:69-125 | the data science path has 5 milestones and totals 10 years, both as TotalDuration and as the `reduce` from 0 (ReduceYears) |
| CareerPath.DoctorTotal | components/career-path-visualizer.tsx:126-183 | the medical path has 5 milestones and totals 8 years, both as TotalDuration and as the `reduce` from 0 (ReduceYears) |
| Analytics.Overview | components/analytics-modal.tsx:34-116 | definition: the overview metrics per role, none for any other role; see OverviewSizes |
| Analytics.CsvContent | components/analytics-modal.tsx:127 | definition: the CSV lines joined with "\n"; see CsvSplitsIntoLines |
| Analytics.OverviewSizes | components/analytics-modal.tsx:35-115 | student, parent and government each have four overview metrics, and any other role none |
| Analytics.CsvRows | components/analytics-modal.tsx:122-125 | the header row first, then one row per metric in order: title, value, change |
| Analytics.CsvLines | components/analytics-modal.tsx:127 | each row joined with "," |
| Analytics.LineFree | components/analytics-modal.tsx:127 | a character other than "," that no cell holds is not in the line |
| Analytics.CsvSplitsIntoLines | components/analytics-modal.tsx:122-127 | with no newline in a cell, the export splits at "\n" into exactly the lines: the header "Metric,Value,Change" then one per metric; so there are |overview|+1 lines and no trailing newline |
| Analytics.HeaderLine | components/analytics-modal.tsx:123-127 | the header line is "Metric,Value,Change" |
| Analytics.LineSplitsIntoCells | components/analytics-modal.tsx:124-127 | with no comma in a cell, a data line splits back into title, value and change |
| Analytics.LineFieldCount | components/analytics-modal.tsx:124-127 | cells are not quoted: a data line has 3 fields plus one per comma inside a cell |
| Analytics.ThousandsSeparatorsSplitCells | components/analytics-modal.tsx:88-127 | the government's first line splits into the five fields "Total Students", "45", "230", "+1", "250" rather than three |
| Analytics.GovernmentFirstMetric | components/analytics-modal.tsx:88 | the first government metric is Total Students, 45,230, +1,250 |
| Analytics.SplitInnerCommas | components/analytics-modal.tsx:124-127 | a value and a change with one comma each read back as two fields each |
| Analytics.UnknownRoleExportsHeader | components/analytics-modal.tsx:109-127 | a role without metrics exports the header line alone |

## Left out

- IEEE floating point. The ROI runs over exact reals. A career length of 0 gives the
  exponent −1 for the projected salary (modelled). Where JavaScript would produce
  Infinity or NaN, the model gives `None`. Number formatting (`toFixed`,
  `toLocaleString`, currency symbols) is presentation.
- The `ROICalculator` component imported from `./roi-calculator` is not part of this model.
- Unicode case mapping: `toLowerCase`/`toUpperCase` are modelled on ASCII letters only.
- JavaScript's `in` on an object literal and `roleAccessMap[role]` also see the
  prototype's properties, such as "constructor". Such answer values or roles are not
  modelled; they do not come from the option table or from the stored roles the page
  writes.
- `Object.values(answers)` is taken in ascending id order (1..4). That is the order
  JavaScript uses for integer keys.
- Timers and randomness: the reply's random 1–3 s delay and the redirect `setTimeout`.
  The delay is why sending is split into `SendMessage` and `DeliverReply`.
- The services: the authentication service, the profile select and insert, and the
  quiz-result insert (`saveResults`). The first two are the `Auth`/`ProfileLookup`
  arguments. The error thrown into `catch` ("Error loading dashboard") is not modelled.
- `localStorage` is modelled as a map or as an argument. JSON parsing is reduced to
  `StoredHistory`; an empty stored string counts as nothing stored.
- Toast display, router navigation, `window.open` and the Blob download are not
  modelled. Message ids and timestamps come from the clock and are also left out.
- The chat replies' prose is represented by `Prose` (intent and audience), not the text.
  The suggestion lists are modelled exactly.
- The analytics chart series (`activityData`, `interestData`) and the modal's period
  selector are display data.
- Analytics.CsvSplitsIntoLines: it is stated for overviews whose cells hold no newline.
  The shipped cells visibly hold none, but that is not proved about the table literals.
- CareerQuiz.Quiz.Answer: it accepts any value, as `handleAnswer` does. An empty value
  keeps `AnsweredSoFar` only if it was already absent from earlier questions, so the
  ensures promises the invariant only for non-empty values.
- Career lengths are whole, non-negative numbers (`nat`). The form stores
  `Number(e.target.value)` unchecked. A fractional length such as 2.5 would give two rows
  and a projected salary of salary·m^1.5, and a negative length no rows at all; neither
  case is modelled.
- The chat assistant's role is one of student, parent and government. The dashboard
  passes its active tab cast to that type. For any other resolved role the component's
  welcome text and suggestions are `undefined`; that case is not modelled.
