# FinInclusion AI demo dashboard — verified model

This project models the logic of a single-page financial-inclusion demo, with
proofs. The app is a React application with a landing page and seven tool
pages. Every page works on hard-coded sample data. The model leaves out the
markup and keeps the decisions the pages make:

- **App shell** (`App`): the current page and whether the mobile sidebar is open. It has handlers for getting started, Home, the navigation entries, the menu toggle and the overlay. It also holds the navigation table and the page-to-view dispatch. Modelled as the class `App.Shell`.
- **AI mentor** (`AIMentor`): the reply selector `getAIResponse`. It lowercases the message and tests six topics in order, using substring search. The first topic that matches wins. Each topic has its own partial translations into Spanish and Hindi. The chat transcript is modelled as the class `AIMentor.Mentor`, with its greeting, the `trim` guard, the user turn and the delayed assistant reply.
- **Gamification** (`Gamification`):
  - the quiz state machine (`QuizZone`: question index, selection, result shown, score);
  - the section tabs;
  - the earned/locked badge split;
  - the badge icon lookup;
  - both difficulty-colour helpers.
- **Dashboard** (`Dashboard`):
  - income and expense totals, and net savings;
  - the expenses-by-category dictionary, built by a loop that updates a map the way the source's `reduce` does;
  - the top five categories: a stable descending sort, then a slice;
  - the eight most recent transactions, newest first;
  - the goal progress bar and its clamp.
- **Classifiers**:
  - `CreditScore`: bands at 740/670/580, the marker on the 300–850 scale, and factor impacts.
  - `FinancialHealth`: bands at 80/60/40, three colour bands, and the weighted breakdown.
  - `FraudDetection`: risk level, status icon, the status label rewrite, the review button, and the summary statistics.
- **Sample data** (`DemoData`): the demo tables, with facts about how well formed they are.

JavaScript semantics are kept where they matter:

- `toLowerCase` is modelled on ASCII letters only. Only two code points outside ASCII lower-case to ASCII. U+212A (Kelvin sign) becomes `k`, and no keyword contains a `k`. U+0130 becomes `i` followed by a combining dot, and no keyword continues after an `i` with that dot. So keyword matching comes out the same.
- `includes` is substring search.
- `trim` removes the ECMAScript white-space and line-terminator characters; they are listed in `IsJsSpace`.
- `String.prototype.replace` with a string pattern replaces the first occurrence only.
- `Array.prototype.sort` is stable.
- `Object.entries` lists keys in insertion order.
- The reply timer's closure sees the text and the language as they were when the message was sent.

Marker and progress values are `real` numbers, not floating point. A reply is
shown as the `Reply` constructor it came from. `Reply.Text()` gives the
literal source string for each constructor, so that the long reply strings
stay out of every proof that does not need them.

## Model

| member | source | states |
|---|---|---|
| `App.Shell.constructor` | src/App.tsx:26-27 | The app starts on `landing` with the sidebar closed, which establishes the shell invariant `Valid()`: the sidebar is never open while the landing page is current. Every handler below requires and keeps `Valid()`. |
| `App.Shell.GetStarted` | src/App.tsx:29-31 | From the landing page, get-started moves to `dashboard`; the sidebar is unchanged and exactly the dashboard view is rendered. |
| `App.Shell.GoHome` | src/App.tsx:68-72 | Home sets the page to `landing` and closes the sidebar; only the landing view is rendered, and there is no overlay. |
| `App.Shell.Navigate` | src/App.tsx:79-99 | A navigation button sets the page to its entry's page and closes the sidebar. Afterwards the entry's view is the only one rendered, and exactly that entry is highlighted. |
| `App.Shell.ToggleSidebar` | src/App.tsx:48-53 | The menu button flips `sidebarOpen` and leaves the page unchanged; the overlay is shown exactly when the sidebar is now open. |
| `App.Shell.ClickOverlay` | src/App.tsx:110-115 | The overlay can be clicked only while it is shown; clicking it closes the sidebar and keeps the page. |
| `App.NavPages` | src/App.tsx:33-41 | The pages the navigation table lists, one per entry and in order. |
| `App.NavigationListsEachInnerPageOnce` | src/App.tsx:33-41 | The table has 7 entries with pairwise distinct pages, and a page is listed iff it is not `landing`. |
| `App.ViewsFor` | src/App.tsx:119-125 | The landing page renders one view (the early return at lines 29-31), and so does every other page: exactly one conditional mount fires. |
| `App.EachPageRendersOneView` | src/App.tsx:29-31 | Every page renders exactly one view, its own (the landing page through the early return, every other page through its conditional mount at lines 119-125), and different pages render different views. |
| `App.StartAndNavigate` | src/App.tsx:26-41 | From a fresh app, get-started followed by any navigation entry shows exactly that entry's view. |
| `AIMentor.ToLower` | src/components/AIMentor.tsx:23 | Lower-casing keeps the length, maps each character on its own, and leaves no ASCII capital. |
| `AIMentor.ToLowerIdempotent` | src/components/AIMentor.tsx:23 | Lower-casing twice is the same as lower-casing once. |
| `AIMentor.IncludesIffOccurs` | src/components/AIMentor.tsx:25 | `includes(w)` holds iff `w` occurs at some position of the text. |
| `AIMentor.Includes` | src/components/AIMentor.tsx:25 | A match needs the keyword to be no longer than the text, and the empty keyword always matches. |
| `AIMentor.OccurrenceShift` | src/components/AIMentor.tsx:25 | An occurrence in the text without its first character is an occurrence one position later in the whole text, and the reverse. |
| `AIMentor.MissingLetter` | src/components/AIMentor.tsx:25 | A keyword containing a letter the text lacks is not included in the text. |
| `AIMentor.FoundAt` | src/components/AIMentor.tsx:25 | A keyword present at some position is included. |
| `AIMentor.GetAIResponse` | src/components/AIMentor.tsx:22-64 | Total on every text (including "") and every code; the reply is in the requested language or in English. |
| `AIMentor.AnyKeyword` | src/components/AIMentor.tsx:25 | True iff some keyword of the list is included in the text. |
| `AIMentor.FirstMatch` | src/components/AIMentor.tsx:25-57 | Returns the first rule whose keywords match. No earlier rule matches, and `None` means no rule matches. |
| `AIMentor.Translations` | src/components/AIMentor.tsx:26-56 | Every topic has an English reply, and each translation's reply is in its own language. |
| `AIMentor.Localize` | src/components/AIMentor.tsx:26-28 | The reply is one of the topic's entries. When every entry is in its own language, the reply is in the requested language iff the topic has that translation, and otherwise it is English. |
| `AIMentor.AnyOfTwo` | src/components/AIMentor.tsx:25 | Matching a two-keyword rule is `includes(a) \|\| includes(b)`. |
| `AIMentor.RuleKeywords` | src/components/AIMentor.tsx:25-55 | The rule table pairs budget/spending, save/saving, credit/score, invest/investment, debt/loan and emergency/fund, in the source's order. |
| `AIMentor.FirstMatchIs` | src/components/AIMentor.tsx:25-57 | If rule k matches and no earlier rule does, the first match is k. |
| `AIMentor.TableReply` | src/components/AIMentor.tsx:25-57 | The table selector answers with the localised reply of the first matching rule. |
| `AIMentor.TranslationLookup` | src/components/AIMentor.tsx:25-57 | Looking a topic's reply up in its translation map gives the same reply as the component's conditional for that topic. |
| `AIMentor.ChainPicksEarlyRule` | src/components/AIMentor.tsx:25-41 | When the first match is budget, save or credit, the if-chain returns that topic's localised reply. |
| `AIMentor.ChainPicksMiddleRule` | src/components/AIMentor.tsx:43-53 | The same, when the first match is invest or debt. |
| `AIMentor.ChainPicksLastRule` | src/components/AIMentor.tsx:55-57 | The same, when the first match is emergency/fund. |
| `AIMentor.SelectorMatchesRuleTable` | src/components/AIMentor.tsx:22-64 | The source's if-chain equals the reference selector: the first matching rule wins, then localisation, then the fallback. |
| `AIMentor.IgnoresCase` | src/components/AIMentor.tsx:23 | The reply to a text equals the reply to its lower-cased form. |
| `AIMentor.FirstTopicWins` | src/components/AIMentor.tsx:25-57 | Whatever later topics also match, the earliest matching topic decides the reply. |
| `AIMentor.LocalizedLanguage` | src/components/AIMentor.tsx:25-63 | For a topic (or no topic) and a code: the reply is Spanish iff the code is "es" and the topic is budget, save, invest or none. It is Hindi iff the code is "hi" and the topic is credit, debt or none. |
| `AIMentor.SpanishOnlyForEs` | src/components/AIMentor.tsx:26-28 | The reply is Spanish iff the code is "es" and the topic is budget, save, invest or none. |
| `AIMentor.HindiOnlyForHi` | src/components/AIMentor.tsx:38-40 | The reply is Hindi iff the code is "hi" and the topic is credit, debt or none. |
| `AIMentor.OtherCodesGetEnglish` | src/components/AIMentor.tsx:59-63 | Any code other than "es" and "hi" gets an English reply. |
| `AIMentor.EmergencyFundIsEnglishOnly` | src/components/AIMentor.tsx:55-57 | The emergency/fund topic gets the one English reply in every language. |
| `AIMentor.NoTopicFallback` | src/components/AIMentor.tsx:59-63 | With no topic, "es" gets the Spanish fallback, "hi" the Hindi one, and every other code the English one. |
| `AIMentor.InvestmentKeywordIsRedundant` | src/components/AIMentor.tsx:43 | Any text that includes "investment" includes "invest", so the second keyword never decides a match. |
| `AIMentor.WithoutKeywordLetters` | src/components/AIMentor.tsx:25-63 | A text whose lower-cased form has no b, c, l or s matches at most the fund rule: it gets the emergency reply when it includes "fund", and the fallback otherwise. |
| `AIMentor.RefundSelectsEmergency` | src/components/AIMentor.tsx:55-57 | "refund" contains "fund", so it gets the emergency reply. |
| `AIMentor.UnrelatedTextFallsBack` | src/components/AIMentor.tsx:59-63 | "What now?" matches no topic and gets the fallback for its language. |
| `AIMentor.BudgetingInAnyCase` | src/components/AIMentor.tsx:23-28 | "BUDGETING tips" gets the English budget reply. |
| `AIMentor.BudgetBeatsSave` | src/components/AIMentor.tsx:25-35 | "save and budget" gets the budget reply, in Spanish for "es" and in English otherwise. |
| `AIMentor.BudgetHasNoHindi` | src/components/AIMentor.tsx:26-28 | The budget reply for "hi" is English. |
| `AIMentor.CreditHasNoSpanish` | src/components/AIMentor.tsx:38-40 | The credit reply for "es" is English. |
| `AIMentor.TrimStart` | src/components/AIMentor.tsx:67 | Drops exactly the leading white space: the result is a suffix, everything dropped is white space, and the result does not start with white space. |
| `AIMentor.TrimEnd` | src/components/AIMentor.tsx:67 | Drops exactly the trailing white space, in the same sense. |
| `AIMentor.Trim` | src/components/AIMentor.tsx:67 | The result is no longer than the input, and it is empty or starts and ends with a non-blank character. |
| `AIMentor.TrimEmptyIffBlank` | src/components/AIMentor.tsx:67 | `trim()` is empty iff every character is white space (including the empty input). |
| `AIMentor.UserTurns` | src/components/AIMentor.tsx:69-73 | The user turns of a transcript, as the replies they ask for; there are no more of them than turns. |
| `AIMentor.AssistantTurns` | src/components/AIMentor.tsx:80-84 | The assistant turns of a transcript; each has the assistant role. |
| `AIMentor.AppendTurn` | src/components/AIMentor.tsx:75 | Appending a turn adds it to the user list or to the assistant list, according to its role. |
| `AIMentor.TurnsPartition` | src/components/AIMentor.tsx:4-8 | Every turn is either a user turn or an assistant turn. |
| `AIMentor.SettledTranscriptLength` | src/components/AIMentor.tsx:11-17 | Once no reply is pending, the transcript is the greeting plus two turns per send. |
| `AIMentor.OpeningIsReachable` | src/components/AIMentor.tsx:11-17 | The greeting alone, with no reply pending, satisfies the transcript invariant. |
| `AIMentor.SendKeepsReachable` | src/components/AIMentor.tsx:67-76 | A non-blank send keeps the transcript invariant, with the new reply queued last. |
| `AIMentor.ReplyKeepsReachable` | src/components/AIMentor.tsx:79-87 | Delivering the oldest pending reply keeps the transcript invariant. |
| `AIMentor.Mentor.constructor` | src/components/AIMentor.tsx:11-19 | The transcript is exactly the English greeting; the input is empty, the language is "en", and nothing is pending. |
| `AIMentor.Mentor.EditInput` | src/components/AIMentor.tsx:203 | Typing replaces the input and changes nothing else. |
| `AIMentor.Mentor.ChooseLanguage` | src/components/AIMentor.tsx:110-130 | A language button sets the code and changes nothing else. |
| `AIMentor.Mentor.Send` | src/components/AIMentor.tsx:66-79 | Blank input changes nothing. Otherwise the send appends a user turn with the input and the current language, clears the input, and queues the reply with the text and language captured at send time. |
| `AIMentor.Mentor.DeliverReply` | src/components/AIMentor.tsx:79-87 | A timer firing appends the assistant turn `getAIResponse(text, language)` for the oldest pending send, and changes nothing else. |
| `AIMentor.Mentor.Exchange` | src/components/AIMentor.tsx:66-87 | A send followed by its reply adds exactly two turns: the user's text, then the selector's reply in the same language. |
| `Gamification.AnswerPoints` | src/components/Gamification.tsx:94-96 | An answer earns points only when it is the correct answer, and with non-negative points it earns between 0 and the question's points. |
| `Gamification.Earned` | src/components/Gamification.tsx:94-96 | A history of wrong answers only scores 0. |
| `Gamification.EarnedGrows` | src/components/Gamification.tsx:94-96 | With non-negative points, the score of a prefix of the answer history is at most the score of the whole history. |
| `Gamification.EarnedBounds` | src/components/Gamification.tsx:94-96 | With non-negative points, the score lies between 0 and the points of the questions answered. |
| `Gamification.QuizZone.constructor` | src/components/Gamification.tsx:84-87 | The quiz starts at question 0 with no selection, the result hidden and score 0. |
| `Gamification.QuizZone.HandleAnswer` | src/components/Gamification.tsx:91-97 | The selection becomes the answer and the result is shown. The score grows by the question's points iff the answer is correct, and otherwise it is unchanged. |
| `Gamification.QuizZone.ClickOption` | src/components/Gamification.tsx:149-150 | While the result is shown a click changes nothing. Otherwise it answers. So each question visit scores at most once. |
| `Gamification.QuizZone.NextQuestion` | src/components/Gamification.tsx:99-109 | The index advances by 1, or wraps to 0 from the last question. The selection and the result are cleared; the score is kept. |
| `Gamification.QuizZone.ButtonLabel` | src/components/Gamification.tsx:193 | The button reads "Restart Quiz" exactly on the last question and "Next Question" otherwise. |
| `Gamification.QuizZone.ProgressPercent` | src/components/Gamification.tsx:139 | The progress bar lies in (0, 100] and is full exactly on the last question. |
| `Gamification.QuizZone.Look` | src/components/Gamification.tsx:151-161 | Before the result, only the selected option is highlighted. After it, the correct option is green, and a wrong selected option is red. |
| `Gamification.AtMostOneWrongMark` | src/components/Gamification.tsx:151-161 | At most one option is marked wrong. |
| `Gamification.GamificationPage.constructor` | src/components/Gamification.tsx:6 | The page opens on the quiz tab with a fresh quiz. |
| `Gamification.GamificationPage.SelectSection` | src/components/Gamification.tsx:44-78 | A tab click makes that section the active one. Returning to the quiz tab mounts a fresh quiz; otherwise the quiz is kept. |
| `Gamification.OneSectionShows` | src/components/Gamification.tsx:76-78 | Exactly one section is rendered. |
| `Gamification.EarnedBadges` | src/components/Gamification.tsx:224 | The first min(3, n) badges, as a prefix. |
| `Gamification.LockedBadges` | src/components/Gamification.tsx:225 | The badges after the third, as a suffix. |
| `Gamification.SplitIsWholeList` | src/components/Gamification.tsx:224-225 | Earned followed by locked is the original list. |
| `Gamification.SplitIsDisjoint` | src/components/Gamification.tsx:224-225 | With distinct badges, no badge is both earned and locked. |
| `Gamification.DemoBadgeSplit` | src/components/Gamification.tsx:224-225 | The six demo badges split 3 earned / 3 locked, and the `search` icon falls back to Award. |
| `Gamification.DemoQuizIsPlayable` | src/lib/demoData.ts:71-135 | The demo question list is non-empty, and every question is worth positive points. |
| `Gamification.GetIcon` | src/components/Gamification.tsx:361-370 | The icon is one of the five glyphs the switch names. |
| `Gamification.IconFallback` | src/components/Gamification.tsx:361-370 | trophy/star/target/shield map to their own glyphs; every other name, `award` included, gives Award. |
| `Gamification.QuizDifficultyColor` | src/components/Gamification.tsx:111-115 | Green iff "easy", yellow iff "medium", red for everything else. |
| `Gamification.GameDifficultyColor` | src/components/Gamification.tsx:399-403 | Green iff "Easy", yellow iff "Medium", red for everything else. |
| `Gamification.QuizDifficultiesAreDistinct` | src/components/Gamification.tsx:111-115 | On the difficulty enum's names, red means hard and green means easy. |
| `Gamification.DifficultyHelpersAgree` | src/components/Gamification.tsx:399-403 | The two helpers agree on their own spellings. Each is case-sensitive: the game helper colours "easy" red. |
| `Dashboard.KindPositions` | src/components/Dashboard.tsx:6 | The positions of the transactions of one kind: each position holds that kind, they increase strictly, and every position of that kind is listed. |
| `Dashboard.OfKind` | src/components/Dashboard.tsx:6 | The filter keeps only transactions of the kind, all taken from the list; `OfKindAtPositions` and `OfKindIsFilter` state that it keeps all of them, in order. |
| `Dashboard.OfKindAtPositions` | src/components/Dashboard.tsx:6 | The filter is the list read off the kind's positions: same length, and its j-th element is the transaction at the j-th position, so order is kept. |
| `Dashboard.OfKindIsFilter` | src/components/Dashboard.tsx:6 | Every transaction of the kind is in the filtered list. |
| `Dashboard.Sum` | src/components/Dashboard.tsx:7 | The left fold of the amounts; with non-negative amounts it is non-negative. |
| `Dashboard.TotalIncome` | src/components/Dashboard.tsx:5-7 | `totalIncome`: with non-negative amounts it lies between 0 and the sum of all amounts. |
| `Dashboard.TotalExpenses` | src/components/Dashboard.tsx:9-11 | `totalExpenses`: with non-negative amounts it lies between 0 and the sum of all amounts. |
| `Dashboard.OfKindSumIsPart` | src/components/Dashboard.tsx:5-11 | With non-negative amounts, the sum over one kind lies between 0 and the sum over all transactions. |
| `Dashboard.NetSavings` | src/components/Dashboard.tsx:13 | `netSavings` equals the one-pass signed balance of all transactions. |
| `Dashboard.KindSumsAreBalance` | src/components/Dashboard.tsx:5-13 | The income sum minus the expense sum equals the one-pass signed balance. |
| `Dashboard.TotalsPartitionAmounts` | src/components/Dashboard.tsx:5-11 | Income plus expenses is the sum of all amounts: every transaction is counted in exactly one total. |
| `Dashboard.KindTotalAppend` | src/components/Dashboard.tsx:5-11 | One more transaction adds its amount to the total of its own kind only. |
| `Dashboard.Categories` | src/components/Dashboard.tsx:15-20 | The dictionary's key order: each category once. |
| `Dashboard.CategoriesOccur` | src/components/Dashboard.tsx:15-20 | A category is a key iff some expense has it. |
| `Dashboard.AbsentCategoryIsZero` | src/components/Dashboard.tsx:18 | A category with no expense totals 0. |
| `Dashboard.CategoriesAreThoseThatOccur` | src/components/Dashboard.tsx:15-20 | For every category: it is in the key order iff some expense has it. |
| `Dashboard.Grouped` | src/components/Dashboard.tsx:15-20 | The dictionary the reduce builds has an entry for the category of every expense; `GroupAppend` and `ExpensesByCategory` pin its values. |
| `Dashboard.AddExpense` | src/components/Dashboard.tsx:18 | The callback adds the transaction's category to the keys and keeps every other entry. An existing entry grows by the amount, and a new one starts at the amount. |
| `Dashboard.GroupedGrows` | src/components/Dashboard.tsx:18 | One more expense: a new category is appended to the key order, and the map is updated at that category only. |
| `Dashboard.GroupAppend` | src/components/Dashboard.tsx:18 | One reduce step: a new category is appended to the key order, and the map after one more expense is the callback applied to the map before it. |
| `Dashboard.GroupedKeys` | src/components/Dashboard.tsx:15-20 | The dictionary's keys are exactly the categories. |
| `Dashboard.ExpensesByCategory` | src/components/Dashboard.tsx:15-20 | The loop builds the key order and a map equal to the per-category sums of the expenses; its keys are exactly the categories with an expense. |
| `Dashboard.CategoryTotalsSumToExpenses` | src/components/Dashboard.tsx:15-20 | The per-category totals add up to the sum of the expenses. |
| `Dashboard.GroupedSumsToTotalExpenses` | src/components/Dashboard.tsx:9-20 | The dictionary's values add up to `totalExpenses`. |
| `Dashboard.CategoryWithinTotal` | src/components/Dashboard.tsx:15-20 | With non-negative amounts, each category total lies between 0 and the expense total. |
| `Dashboard.Entries` | src/components/Dashboard.tsx:22 | `Object.entries` lists each key with its value, in key order. |
| `Dashboard.Insert` | src/components/Dashboard.tsx:23 | Inserting into a descending list keeps it descending and adds one element. |
| `Dashboard.InsertAddsOne` | src/components/Dashboard.tsx:23 | Insertion adds exactly that element to the multiset. |
| `Dashboard.SortByAmount` | src/components/Dashboard.tsx:23 | The sort gives a descending permutation of its input. |
| `Dashboard.TopFive` | src/components/Dashboard.tsx:22-24 | At most 5 entries, exactly min(5, n), in descending order. |
| `Dashboard.TopFiveIsTop` | src/components/Dashboard.tsx:22-24 | The top five come from the input, and every excluded entry is at most every included one. |
| `Dashboard.CategoryEntries` | src/components/Dashboard.tsx:22 | The category entries pair each category with its total. |
| `Dashboard.TopExpenseCategories` | src/components/Dashboard.tsx:15-24 | The method builds the dictionary and returns the top five of its entries. |
| `Dashboard.TopEntriesAreCategoryTotals` | src/components/Dashboard.tsx:22-24 | Each shown entry is a real category with its true total. |
| `Dashboard.TopCategoriesAreLargest` | src/components/Dashboard.tsx:22-24 | A category left out of the top five totals no more than any shown one. |
| `Dashboard.Reverse` | src/components/Dashboard.tsx:61 | `reverse()` reverses the order. |
| `Dashboard.Recent` | src/components/Dashboard.tsx:61 | `slice(-8).reverse()` gives the last min(8, n) transactions, newest first. |
| `Dashboard.GoalProgress` | src/components/Dashboard.tsx:124 | Progress is non-negative for a non-negative amount. It is at most 100 iff the goal is not exceeded, and exactly 100 iff the goal is met. |
| `Dashboard.BarWidth` | src/components/Dashboard.tsx:136 | `Math.min(progress, 100)` never exceeds 100 or the progress. |
| `Dashboard.GoalBar` | src/components/Dashboard.tsx:124-141 | The bar is full iff the goal is reached. Up to the target the bar equals the percentage; beyond it the displayed percentage exceeds the bar. |
| `Dashboard.DemoTotals` | src/lib/demoData.ts:12-21 | On the demo transactions income is 4500, expenses 2110 and net savings 2390. |
| `CreditScore.Band` | src/components/CreditScore.tsx:21-26 | A score's band is the number of thresholds 580/670/740 it reaches (0..3). |
| `CreditScore.ScoreLabel` | src/components/CreditScore.tsx:21-26 | Excellent iff ≥740, Good iff 670..739, Fair iff 580..669, Poor iff <580. |
| `CreditScore.ScoreColor` | src/components/CreditScore.tsx:7-12 | Green iff ≥740, blue iff 670..739, yellow iff 580..669, red iff <580. |
| `CreditScore.ScoreBgColor` | src/components/CreditScore.tsx:14-19 | The gradient uses the same four intervals. |
| `CreditScore.HelpersReadTheBand` | src/components/CreditScore.tsx:7-26 | Label, colour and gradient are the band tables read at the score's band. |
| `CreditScore.ColourBandIsLabelBand` | src/components/CreditScore.tsx:7-26 | Two scores share a label iff they share a colour iff they share a gradient iff they are in the same band. |
| `CreditScore.LabelRank` | src/components/CreditScore.tsx:21-26 | The rank of a label is its position in Poor < Fair < Good < Excellent. |
| `CreditScore.LabelIsMonotone` | src/components/CreditScore.tsx:21-26 | A higher score never gets a lower label. |
| `CreditScore.DemoScoreIsGood` | src/components/CreditScore.tsx:52 | The demo score 720 is labelled Good and drawn in blue. |
| `CreditScore.MarkerSpansTheBar` | src/components/CreditScore.tsx:70 | The marker is at 0 for 300 and at 100 for 850. It lies in [0, 100] for scores in between, and it is strictly increasing. |
| `CreditScore.MarkerPosition` | src/components/CreditScore.tsx:70 | The marker is at least 0 for scores from 300 and at most 100 for scores up to 850. |
| `CreditScore.QuarterSegmentsMisplaceTheDemoScore` | src/components/CreditScore.tsx:63-70 | With the four equal segments as drawn, the demo score's marker (about 76.4 %) sits on green while its label is Good (blue). |
| `CreditScore.QuarterSegmentsPutPoorScoresOnBlue` | src/components/CreditScore.tsx:63-70 | Every score from 575 to 579 is labelled Poor (red), but its marker is at 50 % or more, so it sits on the blue segment. |
| `CreditScore.BandSegmentsMatchTheLabel` | src/components/CreditScore.tsx:63-70 | With segment boundaries at the thresholds' markers, the segment under the marker always has the label's colour. |
| `CreditScore.ImpactIcon` | src/components/CreditScore.tsx:28-32 | TrendingUp iff "positive", TrendingDown iff "negative", Minus for every other string. |
| `CreditScore.ImpactColor` | src/components/CreditScore.tsx:34-38 | Green card iff "positive", red iff "negative", gray otherwise. |
| `CreditScore.FactorBarColor` | src/components/CreditScore.tsx:114-117 | Green bar iff "positive", red iff "negative", gray otherwise. |
| `CreditScore.ImpactHelpersSplitAlike` | src/components/CreditScore.tsx:28-38 | Two impacts share an icon iff they share a card colour iff they share a bar colour. |
| `CreditScore.ImpactEnumIsSplitByName` | src/components/CreditScore.tsx:28-38 | On the impact enum, Minus means `neutral`, and the three impacts get three different card colours. |
| `CreditScore.DemoWeightsSumToHundred` | src/lib/demoData.ts:33-38 | The six demo factor weights sum to 100. |
| `FinancialHealth.HealthLabel` | src/components/FinancialHealth.tsx:19-24 | Excellent iff ≥80, Good iff 60..79, Fair iff 40..59, Needs Improvement iff <40. |
| `FinancialHealth.HealthColor` | src/components/FinancialHealth.tsx:7-11 | Green iff ≥80, yellow iff 60..79, red iff <60. |
| `FinancialHealth.HealthBgColor` | src/components/FinancialHealth.tsx:13-17 | The bar colour uses the same three intervals. |
| `FinancialHealth.LabelBandsRefineColourBands` | src/components/FinancialHealth.tsx:7-24 | Text colour and bar colour split the scores alike, and scores with the same label get the same colour. |
| `FinancialHealth.FairAndNeedsImprovementShareRed` | src/components/FinancialHealth.tsx:7-24 | Fair and Needs Improvement scores are both drawn red. |
| `FinancialHealth.MetricScoreColor` | src/components/FinancialHealth.tsx:158-162 | Green iff ≥80, yellow iff 60..79, red iff <60. |
| `FinancialHealth.MetricBarColor` | src/components/FinancialHealth.tsx:164-168 | The bar colour uses the same three intervals. |
| `FinancialHealth.MetricColoursAgreeWithIndex` | src/components/FinancialHealth.tsx:158-168 | The metric cards colour every score exactly as the index helpers do. |
| `FinancialHealth.DemoIndexIsGood` | src/lib/demoData.ts:44 | The demo index 72 is Good and drawn in yellow. |
| `FinancialHealth.ContributionScale` | src/components/FinancialHealth.tsx:205 | The contribution is 0 at score 0 and equals the weight at score 100. With a non-negative weight it is monotone in the score. |
| `FinancialHealth.Contribution` | src/components/FinancialHealth.tsx:205 | With a score in 0..100 and a non-negative weight, the contribution lies between 0 and the weight. |
| `FinancialHealth.ProductWithinWeight` | src/components/FinancialHealth.tsx:205 | With a score in 0..100 and a non-negative weight, `score * weight` lies between 0 and `100 * weight`. |
| `FinancialHealth.Breakdown` | src/components/FinancialHealth.tsx:99-118 | The card has four rows: income stability, expense management, savings discipline and debt management. Each row holds the report field of that name, with weights 25, 25, 30 and 20. |
| `FinancialHealth.WeightedTotal` | src/components/FinancialHealth.tsx:99-118 | When every row scores 100, the contributions add up to the sum of the weights. |
| `FinancialHealth.WeightedTotalIsBounded` | src/components/FinancialHealth.tsx:205 | With scores in 0..100 and non-negative weights, the contributions add up to between 0 and the sum of the weights. |
| `FinancialHealth.BreakdownIsOutOfHundred` | src/components/FinancialHealth.tsx:99-118 | The weights 25+25+30+20 sum to 100, so with scores in 0..100 the contributions add up to between 0 and 100. |
| `FinancialHealth.DemoBreakdownTotal` | src/lib/demoData.ts:43-50 | For the demo report the contributions add up to 73.15. |
| `FraudDetection.RiskColor` | src/components/FraudDetection.tsx:5-9 | Red iff "high", yellow iff "medium", green for everything else. |
| `FraudDetection.RiskBgColor` | src/components/FraudDetection.tsx:11-15 | The card background uses the same three-way split. |
| `FraudDetection.RiskIcon` | src/components/FraudDetection.tsx:17-21 | A shield iff the level is neither high nor medium, always drawn in the risk colour. |
| `FraudDetection.RiskHelpersSplitAlike` | src/components/FraudDetection.tsx:5-21 | Two levels share a colour iff they share a background iff they share an icon. |
| `FraudDetection.LowIsTheOnlySafeLevel` | src/components/FraudDetection.tsx:5-21 | On the risk enum, the shield means low and red means high. |
| `FraudDetection.StatusIcon` | src/components/FraudDetection.tsx:23-28 | Each of resolved, false_positive and reviewed gets its own icon iff it is that status. Every other status gets the clock. |
| `FraudDetection.StatusIconsTellStatusesApart` | src/components/FraudDetection.tsx:23-28 | The four statuses get four different icons, and the clock means pending. |
| `FraudDetection.IndexOf` | src/components/FraudDetection.tsx:111 | The position of the first occurrence of a character. |
| `FraudDetection.ReplaceFirst` | src/components/FraudDetection.tsx:111 | `replace` keeps the length, and leaves a string without the character unchanged. |
| `FraudDetection.ReplaceFirstAtIndex` | src/components/FraudDetection.tsx:111 | Only the character at the first occurrence is replaced. |
| `FraudDetection.ReplaceFirstRemovesOne` | src/components/FraudDetection.tsx:111 | The label has one underscore fewer and one space more, and nothing else changes. |
| `FraudDetection.ReplaceAfterPrefix` | src/components/FraudDetection.tsx:111 | Everything after the first occurrence, later occurrences included, is left alone. |
| `FraudDetection.StatusLabel` | src/components/FraudDetection.tsx:111 | The label has the status's length. A status without an underscore is shown as is; otherwise the first underscore becomes a space. |
| `FraudDetection.StatusLabels` | src/components/FraudDetection.tsx:111 | Only `false_positive` is rewritten, to "false positive"; the other statuses show their names unchanged. |
| `FraudDetection.FalsePositiveLabel` | src/components/FraudDetection.tsx:111 | "false_positive" becomes "false positive". |
| `FraudDetection.OnlyTheFirstUnderscoreIsReplaced` | src/components/FraudDetection.tsx:111 | "a_b_c" becomes "a b_c". |
| `FraudDetection.ReviewButtonOnlyWhenPending` | src/components/FraudDetection.tsx:125-129 | The Review Alert button shows iff the status is pending, which is iff the status icon is the clock. |
| `FraudDetection.ShowsReviewButton` | src/components/FraudDetection.tsx:125-129 | The button shows only on cards whose status icon is the clock. |
| `FraudDetection.DemoReviewButtons` | src/lib/demoData.ts:52-69 | Of the two demo alerts only the pending one has the button. |
| `FraudDetection.StatsAreConsistent` | src/components/FraudDetection.tsx:30-37 | The summary statistics `Stats` satisfy high + medium + low = 15 = resolved + pending. |
| `DemoData.TransactionAmountsArePositive` | src/lib/demoData.ts:11-22 | There are ten demo transactions, all with positive amounts. |
| `DemoData.GoalTargetsArePositive` | src/lib/demoData.ts:24-28 | Each of the three goals has a positive target, so the progress division is defined. |
| `DemoData.QuizQuestionsAreWellFormed` | src/lib/demoData.ts:71-135 | Six questions, each with four options, a valid answer index and positive points. |
| `DemoData.ConfidencesAreProbabilities` | src/lib/demoData.ts:52-69 | Every alert's confidence lies in [0, 1]. |
| `DemoData.ThereAreSixBadges` | src/lib/demoData.ts:137-144 | There are six badges. |
| `Types.NamesAreDistinct` | src/types/index.ts:1-108 | The wire names of each enum are pairwise distinct. |

## Findings

| source | as written | input that shows it | evidently intended | confidence | as-written member | corrected member |
|---|---|---|---|---|---|---|
| src/components/CreditScore.tsx:63-70 | The score bar has four equal `w-1/4` segments, red, yellow, blue and green, under a marker at `(score-300)/550*100` %. | Score 720, the demo score: it is labelled Good (blue), but its marker, at about 76.4 %, is over the green segment. Scores from 300 to 574 are Poor (red) and sit on red or yellow. Scores from 575 to 579 are also Poor but sit on blue (`CreditScore.QuarterSegmentsPutPoorScoresOnBlue`). | The segment under the marker has the colour of the score's label. That means boundaries at the markers of 580, 670 and 740: about 50.9 %, 67.3 % and 80 %. | medium, not executed | `CreditScore.QuarterSegmentsMisplaceTheDemoScore` | `CreditScore.BandSegmentsMatchTheLabel` |

## Left out

- Rendering, CSS layout and icon sizes are out of scope. Each helper's choice is modelled as the class string it returns, or as an `IconView` (glyph and colour class).
- The 1000 ms reply delay is not modelled. A send and a reply are two separate steps, `Mentor.Send` and `Mentor.DeliverReply`. Pending replies form a queue, oldest first.
- The `isTyping` flag is not modelled. It only drives the typing indicator.
- The quick-question prefill and the placeholder text are not modelled; they are UI prefill only.
- `AIMentor.GetAIResponse`: the model does not prove that each of the 14 reply texts is non-empty. A proof over all the long literals is too costly for the solver. The texts are the source's literals in `Reply.Text()`.
- Dates and locale formatting are left out: `new Date`, `toISOString`, `toLocaleString` and `toLocaleDateString`. The sample records are modelled without dates and identifiers.
- Floating-point formatting is left out: `toFixed`, percentage strings for CSS widths, `ai_confidence * 100`, and the category share bar (`src/components/Dashboard.tsx:97`). Marker, progress, contribution and confidence are exact `real`s.
- Integer fields: the source types these fields as `number`, which admits fractions and floating-point rounding, but the model uses `int`. The fields are the transaction `amount`, the goal's `targetAmount` and `currentAmount`, the credit factor's `weight`, the quiz question's `correctAnswer` and `points`, the credit `score` and the health report's five scores. The model's income, expense and per-category totals and the quiz score are therefore exact integer sums, and the goal progress `current/target*100` is an exact `real`. Every demo value in these fields is an integer, so the model agrees with the source on the demo data.
- `Dashboard.GoalProgress` requires a positive target. In JavaScript a zero target gives `Infinity` or `NaN`. The demo targets are all positive (`DemoData.GoalTargetsArePositive`).
- `Dashboard.Entries`: `Object.entries` lists integer-like keys first, in numeric order. A key such as `"__proto__"` does not become an own property. The model keeps plain insertion order, which is what the demo categories get.
- `Dashboard.AddExpense`: the source's accumulator `{}` inherits from `Object.prototype`. For a category named `constructor`, `toString`, `valueOf`, `hasOwnProperty` or another inherited property, `acc[t.category] || 0` reads an inherited function, and adding the amount to it builds a string, not a number. The model always adds the amount to the category's own total, or to 0. None of the demo categories is such a name.
- `Dashboard.SortByAmount`: the sort is implemented as a stable insertion sort, like `Array.prototype.sort`. Stability itself is not stated as a contract.
- `Gamification.AnswerPoints`: its contract does not say that a correct answer earns exactly the question's points; `Gamification.QuizZone.HandleAnswer` states that the score grows by the points iff the answer is correct.
- The hard-coded display numbers (350 points, the leaderboard, the game cards, the model accuracies and AI analytics) are shown, never computed.
- `src/components/APIShowcase.tsx` is not part of this model. It consists of clipboard I/O, 2000 ms timers and display strings. `src/components/LandingPage.tsx` is not part of this model either: it is static markup with one callback, which `App.Shell.GetStarted` models.
- `src/types/index.ts` has no behaviour of its own. Its shapes are the datatypes of the `Types` module.
- Only the demo health index (72) is classified; how that index is computed is not in the source. The breakdown of the same report adds up to 73.15 (`FinancialHealth.DemoBreakdownTotal`), so the index is a stored value and not this weighted sum.
