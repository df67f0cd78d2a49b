# Merchant dashboard mock-up: a Dafny model of its computations

The repository is a React front end for merchants and administrators: an audit page with
monthly sales, an agents overview with search and status filters, a daily quiz, an AI chat
section, an admin dashboard with a brand selector, a financial dashboard, an agent detail
page, an insight page and a mission page. Most of it is layout over hard-coded data. This
project models the part that computes something:

- the audit page's reductions over the monthly data: revenue and order totals, the
  rounded average order value, and the best and slowest month;
- the agents page's search and status filter, and its setup-progress count and status labels;
- the daily quiz's select-once state;
- the chat section's send, example, "Surprise Me" and community-prompt handlers, with the
  history and the daily-ask quest;
- the admin dashboard's alphabetically sorted brand options and its brand-change handler;
- the financial dashboard's cost total, each revenue bar's direction against the previous
  bar, the growth-indicator guard, and the churn-risk colours;
- the agent detail page's lookup with its not-found branch, its badge classes, and the
  restock figures checked against the formula the page displays;
- the insight page's category title and mission-panel latch;
- the mission page's category lookup with its fallback.

Each component file is one module: `Audit`, `Agents`, `DailyChallenge`, `ChatSectionAI`,
`AdminAnalytics`, `FinancialDashboard`, `AgentDetail`, `InsightDetail` and `MissionPage`.
Three shared modules support them:

- `Options` holds the option type.
- `Strings` models the string methods the components call. `toLowerCase` and `toUpperCase`
  work on ASCII letters only. `includes` is modelled together with its characterisation by
  occurrence positions. `trim` uses the exact whitespace set of the JavaScript standard.
  The order `localeCompare` sorts by is modelled as lexicographic order on code points.
- `ArrayOps` models the array methods. `reduce` with a seed is a left fold, proved equal to
  a recursive sum. `filter` is specified as an order-preserving subsequence that keeps every
  passing element exactly as often as it occurs and drops every other element. `map` is specified index by index. `sort` with a comparator
  is a stable insertion sort, proved to yield a sorted permutation.

Component state that a handler updates becomes a class whose methods change the fields.
Pure derived values become functions. Fixture lemmas check what the page's own data gives.

Two behaviours of the code worth noting:

- **Ties for best and slowest month.** The `reduce` callbacks keep the earlier month only on
  a strict comparison. So a tie goes to the *later* month, not the first.
- **Restock formula.** The page shows the formula as text only. The code never computes it
  and never clamps it at zero.

## Model

| member | source | states |
|---|---|---|
| Audit.TotalRevenue | src/components/AuditPage.tsx:214 | the revenue total equals the sum of every month's revenue, and is 0 for no months |
| Audit.TotalOrders | src/components/AuditPage.tsx:215 | the order total equals the sum of every month's orders, and is 0 for no months |
| ArrayOps.FoldSumIsSum | src/components/AuditPage.tsx:214-215 | a seeded left fold of `sum + value` equals the seed plus the recursive sum of the values |
| Audit.TotalsOfAppend | src/components/AuditPage.tsx:214-215 | appending a month adds exactly its revenue and its orders to the totals |
| Audit.MathRound | src/components/AuditPage.tsx:216 | `Math.round` gives the integer within half of x, with halves going up |
| Audit.MathRoundUnique | src/components/AuditPage.tsx:216 | only one integer lies within half of x on those terms, so the rounding is determined |
| Audit.AvgAOV | src/components/AuditPage.tsx:216 | the average order value is 0 when there are no orders; otherwise it is the nearest integer to revenue/orders, with halves going up |
| Audit.AvgAOVIntegerForm | src/components/AuditPage.tsx:216 | for positive orders, the average equals the integer quotient (2·revenue + orders) div (2·orders) |
| Audit.ReduceMaxIsLastMaximum | src/components/AuditPage.tsx:217 | the unseeded `reduce` with a strict `>` callback returns the last month of maximal revenue |
| Audit.ReduceMinIsLastMinimum | src/components/AuditPage.tsx:218 | the unseeded `reduce` with a strict `<` callback returns the last month of minimal revenue |
| Audit.ExtendLastMaximum | src/components/AuditPage.tsx:217 | when a month is appended, the last maximum stays put if the new month earns strictly less, and moves to the new month otherwise |
| Audit.ExtendLastMinimum | src/components/AuditPage.tsx:218 | when a month is appended, the last minimum stays put if the new month earns strictly more, and moves to the new month otherwise |
| Audit.LastMaximumUnique | src/components/AuditPage.tsx:217 | at most one position is the last maximum |
| Audit.LastMinimumUnique | src/components/AuditPage.tsx:218 | at most one position is the last minimum |
| Audit.BestMonth | src/components/AuditPage.tsx:217 | the best month needs a non-empty list, and it is the month at the last position of maximal revenue |
| Audit.SlowMonth | src/components/AuditPage.tsx:218 | the slowest month needs a non-empty list, and it is the month at the last position of minimal revenue |
| Audit.BestMonthIsMaximum | src/components/AuditPage.tsx:217 | the best month belongs to the list and no month has more revenue |
| Audit.SlowMonthIsMinimum | src/components/AuditPage.tsx:218 | the slowest month belongs to the list and no month has less revenue |
| Audit.BestAtLeastSlow | src/components/AuditPage.tsx:217-218 | the best month's revenue is at least the slowest month's |
| Audit.TieGoesToLaterMonth | src/components/AuditPage.tsx:217-218 | between two months of equal revenue, both reductions return the second |
| Audit.BestMonthAt | src/components/AuditPage.tsx:217 | the best month is the month at any position that is the last maximum |
| Audit.SlowMonthAt | src/components/AuditPage.tsx:218 | the slowest month is the month at any position that is the last minimum |
| Audit.Monthly24Totals | src/components/AuditPage.tsx:182-216 | the page's twelve months give totals 10990000 and 4882, and an average of 2251 |
| Audit.Monthly24Best | src/components/AuditPage.tsx:182-217 | the page's best month is "Dec 23" |
| Audit.Monthly24Slowest | src/components/AuditPage.tsx:182-218 | the page's slowest month is "Jan 24" |
| Agents.FilteredAgents | src/components/AgentsPage.tsx:155-160 | the cards shown keep the list's order, and hold every agent that matches both the search term and the status filter as often as it occurs in the list, and no other agent |
| ArrayOps.Filter | src/components/AgentsPage.tsx:155 | `filter` keeps an order-preserving subsequence: every passing element is kept exactly as often as it occurs, and every other element is dropped |
| ArrayOps.FilterCongruent | src/components/AgentsPage.tsx:155 | two predicates that agree on every element filter the list to the same result |
| ArrayOps.MapSeq | src/components/AdminAnalytics.tsx:149 | `map` gives a list of the same length whose every entry is the image of the entry at the same position |
| Strings.ToLowerIdempotent | src/components/AgentsPage.tsx:156-157 | lower-casing a lower-cased string changes nothing, and a lower-cased string holds no upper-case ASCII letter |
| Agents.SearchIgnoresCase | src/components/AgentsPage.tsx:155-160 | two search terms that agree once lower-cased show the same cards |
| Agents.LowerCasedTermSameCards | src/components/AgentsPage.tsx:155-160 | searching for the lower-cased term shows the same cards as searching for the term as typed |
| Strings.IncludesIff | src/components/AgentsPage.tsx:156-157 | `includes` holds exactly when the term occurs at some position |
| Agents.KeptAgentContainsTerm | src/components/AgentsPage.tsx:155-157 | a shown agent's lower-cased name or description contains the lower-cased term at some position |
| Agents.EmptySearchShowsAll | src/components/AgentsPage.tsx:72-158 | with the initial empty search and "all" statuses, every agent is shown in order |
| Agents.CategoryFilterIgnored | src/components/AgentsPage.tsx:74-160 | changing the category selector never changes the cards shown |
| Agents.ConfiguredAgents | src/components/AgentsPage.tsx:162 | the configured count is the number of agents less the number of "needs-setup" entries among their statuses; it equals the total exactly when no agent needs setup, and is 0 exactly when every agent does |
| Agents.ConfiguredCount | src/components/AgentsPage.tsx:162 | each agent is either kept by the configured filter or counted among the "needs-setup" statuses |
| Agents.TotalAgents | src/components/AgentsPage.tsx:162-163 | the total is the configured count plus the number of agents that need setup, so it is never below the configured count |
| Agents.SetupProgress | src/components/AgentsPage.tsx:14-186 | the page's six agents give the setup progress 5 of 6 |
| Agents.StatusText | src/components/AgentsPage.tsx:91-104 | "Needs setup" is returned exactly for the needs-setup status; every other label is the status's selector value with its first letter capitalised |
| Agents.StatusTextInjective | src/components/AgentsPage.tsx:91-104 | the four statuses get four different labels |
| DailyChallenge.CorrectAnswerIsOffered | src/components/DailyChallenge.tsx:15-22 | the correct code is one of the four offered answers |
| DailyChallenge.Challenge.constructor | src/components/DailyChallenge.tsx:13-14 | the quiz starts with nothing selected and not submitted |
| DailyChallenge.Challenge.HandleSelect | src/components/DailyChallenge.tsx:24-29 | the first choice is recorded and submits the quiz; any later choice leaves the recorded answer unchanged |
| DailyChallenge.Challenge.IsCorrect | src/components/DailyChallenge.tsx:31 | the result is correct exactly when the recorded answer is the correct code, which implies the quiz was submitted |
| Strings.TrimEmptyIffAllWhitespace | src/components/ChatSectionAI.tsx:48 | the trimmed input is empty exactly when every character is JavaScript whitespace |
| ChatSectionAI.Chat.constructor | src/components/ChatSectionAI.tsx:22-30 | the chat starts with the first prompts, the three initial questions, an empty input and the daily ask not done |
| ChatSectionAI.Chat.HandleSend | src/components/ChatSectionAI.tsx:47-52 | a blank input changes nothing; otherwise the untrimmed input is appended, the box is cleared and the daily ask is done. The daily ask never becomes undone, and the history keeps its initial questions and holds only non-blank sends |
| ChatSectionAI.Chat.HandleExampleClick | src/components/ChatSectionAI.tsx:54-56 | the input becomes the clicked prompt and nothing else changes |
| ChatSectionAI.Chat.HandleSurprise | src/components/ChatSectionAI.tsx:35-39 | the input and the surprise card both become the picked surprise prompt |
| ChatSectionAI.Chat.HandleCommunityPrompt | src/components/ChatSectionAI.tsx:41-45 | the input and the community card both become the picked community question |
| ArrayOps.SortBy | src/components/AdminAnalytics.tsx:146-148 | sorting by name gives a sequence ordered by name that is a permutation of the input |
| ArrayOps.MapOfSortBy | src/components/AdminAnalytics.tsx:146-149 | sorting does not change the multiset of mapped names |
| Strings.LexLeTotal | src/components/AdminAnalytics.tsx:148 | any two names are comparable in the sort order |
| Strings.LexLeAntisymmetric | src/components/AdminAnalytics.tsx:148 | two names that are each no greater than the other are equal |
| Strings.LexLeTransitive | src/components/AdminAnalytics.tsx:148 | the sort order is transitive |
| AdminAnalytics.BrandOptions | src/components/AdminAnalytics.tsx:146-150 | the brand options are the brands' names, each as often as it occurs, in ascending order |
| AdminAnalytics.BrandOptionsOrdered | src/components/AdminAnalytics.tsx:146-150 | every option is in order with every later option, not only with its neighbour |
| AdminAnalytics.OnlyFirstOptionStays | src/components/AdminAnalytics.tsx:60-150 | when no brand is named "All brands", the first option is the only one equal to "All brands", so it is the only choice that stays on the page; every later option is some brand's name |
| AdminAnalytics.SortedPermutationUnique | src/components/AdminAnalytics.tsx:146-148 | two ascending arrangements of the same names are equal, so the options are determined by the names alone |
| AdminAnalytics.OptionsAreAscendingNames | src/components/AdminAnalytics.tsx:146-150 | any ascending list holding exactly the brands' names is the option list |
| AdminAnalytics.TopBrandOptions | src/components/AdminAnalytics.tsx:94-150 | the page's five brands give the options HelioWear, LumaSkin, NovaGoods, StrideCo, Vitrine |
| AdminAnalytics.Dashboard.constructor | src/components/AdminAnalytics.tsx:56-58 | the dashboard starts on "Last 30 days", "All brands" and an empty search |
| AdminAnalytics.Dashboard.HandleBrandChange | src/components/AdminAnalytics.tsx:60-65 | the segment always becomes the chosen name; the handler navigates to "/brand" exactly when that name is not "All brands" |
| FinancialDashboard.TotalMonthlyCosts | src/components/FinancialDashboard.tsx:308 | the cost total is the sum of the rows' values, and 0 for no rows |
| FinancialDashboard.CostBreakdownTotal | src/components/FinancialDashboard.tsx:93-308 | the page's two cost rows total 423 |
| FinancialDashboard.IsPositive | src/components/FinancialDashboard.tsx:195-196 | the first bar is never positive; a later bar is positive exactly when its value is strictly above the previous bar's |
| FinancialDashboard.IndicatorClass | src/components/FinancialDashboard.tsx:203-243 | an indicator is shown exactly when `change` is neither null nor zero; it is green exactly when the bar is positive and red otherwise |
| FinancialDashboard.AllPositiveIffIncreasing | src/components/FinancialDashboard.tsx:193-196 | every bar after the first is positive exactly when the values strictly increase along the whole chart |
| FinancialDashboard.RevenueGrowthBars | src/components/FinancialDashboard.tsx:85-243 | on the page's data, the first bar is not positive and has no indicator, and every later bar has a green one |
| FinancialDashboard.RiskLevelColor | src/components/FinancialDashboard.tsx:98-105 | high gives red, medium gives yellow and low gives green; grey is returned exactly for any other level |
| FinancialDashboard.RiskLevelColorInjective | src/components/FinancialDashboard.tsx:98-105 | the three known levels get three different colours |
| FinancialDashboard.ChurnBrandsColoured | src/components/FinancialDashboard.tsx:79-338 | no brand at risk of churn gets the grey fallback |
| AgentDetail.LookupAgent | src/components/AgentDetail.tsx:6-73 | the lookup finds a record exactly for the id "inventory", and that record is the inventory agent |
| AgentDetail.PageHeading | src/components/AgentDetail.tsx:156-189 | every id except "inventory", including a missing one, shows "Agent Not Found"; "inventory" shows its agent's name |
| AgentDetail.LookupIsCaseSensitive | src/components/AgentDetail.tsx:73-156 | "Inventory" and a missing id are both not found |
| AgentDetail.StatusBadgeClass | src/components/AgentDetail.tsx:169-178 | "warn" gives yellow and "good" gives green; grey is returned exactly for any other type |
| AgentDetail.InventoryAlertsWarn | src/components/AgentDetail.tsx:19-243 | every alert of the inventory agent carries the yellow badge |
| AgentDetail.RestockFormulaUnclamped | src/components/AgentDetail.tsx:255 | the formula goes negative exactly when stock exceeds the demand over the lead time plus safety stock |
| AgentDetail.RestockRowsFollowFormula | src/components/AgentDetail.tsx:39-43 | every recommended quantity in the data equals the formula for its row, and every days-left value is stock over average daily sales |
| AgentDetail.ReorderPointsConsistent | src/components/AgentDetail.tsx:49-365 | each "Below ROP" row is below its reorder point with a warning badge, the "Healthy" row is at or above it with a good badge, and a row's badge is yellow exactly when it is below its reorder point |
| InsightDetail.CategoryTitle | src/components/InsightDetail.tsx:20 | a missing or empty category gives "Insight"; otherwise the first character is upper-cased and the length and every later character are unchanged |
| InsightDetail.CategoryTitleIdempotent | src/components/InsightDetail.tsx:20 | building the title from a title changes nothing |
| InsightDetail.CategoryTitleUnchangedIff | src/components/InsightDetail.tsx:20 | a category is its own title exactly when upper-casing leaves its first character alone |
| InsightDetail.InsightPage.constructor | src/components/InsightDetail.tsx:17-18 | the mission panel starts hidden and the input empty |
| InsightDetail.InsightPage.RevealMission | src/components/InsightDetail.tsx:69 | the mission button shows the panel; only `showMission` changes |
| InsightDetail.InsightPage.SetInput | src/components/InsightDetail.tsx:108 | typing sets the input and leaves the panel as it was |
| InsightDetail.InsightPage.PickPrompt | src/components/InsightDetail.tsx:92-98 | an example button puts its prompt in the input |
| InsightDetail.MissionStaysRevealed | src/components/InsightDetail.tsx:17-108 | on any page whose panel is revealed, the panel is still shown after later typing and a prompt pick, which leave the input empty at the end |
| MissionPage.CategoryInfo | src/components/MissionPage.tsx:7-36 | a category held by the table gives its record; the fallback is returned exactly for a missing category or one the table does not hold |
| MissionPage.KnownCategories | src/components/MissionPage.tsx:7-32 | sales, products, customers and inventory each give their own record |
| MissionPage.CategoryInfoInjective | src/components/MissionPage.tsx:7-28 | the four records are pairwise different |
| MissionPage.UnknownCategoriesFallBack | src/components/MissionPage.tsx:32-36 | a missing, an empty and a differently cased category ("Sales") all fall back to the generic mission |

## Left out

- Rendering, styling, animation, charts and the chart library's script injection: layout only, no computed value.
- Floating-point arithmetic: the audit discount average and percentages, bar heights, donut offsets, `toFixed` and `toLocaleString` formatting. Values are exact integers or reals, and `Math.round` is applied to the exact quotient.
- Locale behaviour: `localeCompare` is modelled as lexicographic order on code points, and case mapping covers ASCII letters only.
- `Math.random` is an index parameter `pick` with `pick < length`; this is the range `Math.floor(Math.random() * length)` produces.
- Navigation: `navigate('/brand')` is the route the handler returns, and route parameters are `Option<string>` arguments.
- JavaScript prototype keys: object lookups see only their own keys, so an id such as "constructor" is simply not found.
- Audit.BestMonth: the unseeded `reduce` throws on an empty array; the model requires a non-empty list instead of modelling the exception.
- Audit.SlowMonth: the same unseeded `reduce` throws on an empty array; the model requires a non-empty list instead of modelling the exception.
- Agents.StatusText: the `default` branch of `getStatusText`, which returns the raw status, is unreachable for the typed status and is not modelled; the status badge's class helper `getStatusBadgeClass` (src/components/AgentsPage.tsx:76-89) is display styling and is not modelled.
- AgentDetail.LookupAgent: the record keeps the fields the page derives something from; the display-only lists (KPIs, slow movers, schedule, activity) are not modelled.
- AdminAnalytics: the date-range and search-term state is held but has no handler logic; `slice()` before sorting is implicit, because sequences are values.
- Static pages, the hard-coded KPI and summary literals, and the components outside the nine modelled files are not part of this model.
