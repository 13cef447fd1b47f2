# AyurSutra rules in Dafny

AyurSutra is a Panchakarma (Ayurvedic therapy) management app: a FastAPI backend with a
wallet, bookable therapy slots and dosha-tagged content, and a Next.js frontend with a
dosha (Prakriti) quiz, a live therapy timer, notifications, the Panchabot assistant, a slot
browser, a daily tracker, a community page, a signup form, toasts and a sidebar.

This project states the small exact rules inside that code and proves what they promise:

- `Ledger` (`ledger.dfy`) — the booking and wallet state machine of the backend.
  - Three pure functions give each endpoint's effect and answer: `Register`, `Book` and `Cancel`.
  - The class `Backend` changes its three tables in place, and each of its methods is proved equal to its function.
  - It keeps a ledger invariant: no negative balance; balance plus confirmed spending equals the signup bonus; one confirmed booking per slot.
  - Book-then-cancel gives the wallet and the slot back.
- `EmailSchema` (`email.dfy`) — the signup e-mail pattern, written as a hand-made scan. It is proved equal to a reading of the pattern as a regular expression, including the trailing newline that `re.match` with `$` lets through.
- `Prakriti` (`prakriti.dfy`) — quiz scoring:
  - the tally loop;
  - rounded percentages;
  - a stable ranking sort proved to be a descending, tie-stable permutation;
  - primary and secondary dosha, label and recommendations;
  - the quiz page as a class.
- `Therapy` (`therapy.dfy`) — the three-step countdown: the tick as a function and the page as a class, plus the `mm:ss` clock with a parse-back round trip.
- `Notifications`, `Toasts`, `Sidebar`, `Slots`, `Diet`, `Community`, `Signup`, `Panchabot` — the list operations, filters, guards and small state machines of those pages.
- `Seqs`, `Text`, `Wrappers` — shared definitions:
  - `Array.prototype.filter` and its laws;
  - `String.prototype.trim` on ASCII;
  - `Option` and `Result`.

Both HTTP and the clock are replaced by values: the user id, "today", random ids and timer ticks are parameters or explicit steps.

## Model

| member | source | states |
|---|---|---|
| Ledger.Taken | backend/main.py:50-52 | the duplicate check holds exactly when a lookup by username or a lookup by e-mail finds a user; `Ledger.Register` refuses exactly those requests |
| Ledger.Register | backend/main.py:47-85 | e-mail checked first, then a taken username or e-mail (before the length checks), then username < 3, then password < 6; each failure leaves the database as it was; success exactly when none of these applies, and it appends exactly one user with balance SIGNUP_BONUS and the requested dosha (default "vata"), nothing else changes |
| Ledger.LoginLookup | backend/main.py:97-101 | a user whose username matches is found first; an e-mail match is used only when no username matches; none exactly when neither matches |
| Ledger.FindBy | backend/main.py:99-101 | the `.first()` lookup: a found index matches the key; none means no row matches |
| Ledger.AvailableSlots | backend/main.py:121-122 | exactly the slots whose `is_available` is true, unchanged |
| Ledger.ContentForDosha | backend/main.py:236-255 | with a non-empty dosha, exactly the rows tagged with it or "all"; without one (or with "", which Python reads as absent), every row |
| Ledger.ContentForDoshaInOrder | backend/main.py:236-255 | the kept rows come in table order, each kept row as often as in the table and every other row not at all |
| Ledger.Book | backend/main.py:145-175 | 404 exactly for a missing or unavailable slot, 400 exactly when balance < price, no change on any error; success exactly for a signed-in user, an available slot and a balance covering its price, and then it debits exactly the price, locks exactly that slot, appends one confirmed booking, leaves other users alone and answers the remaining balance |
| Ledger.Cancel | backend/main.py:203-233 | 404 exactly for a missing or foreign booking, 400 exactly for an already cancelled one, no change on any error; success exactly for the caller's own confirmed booking whose slot exists, and it marks the booking cancelled, frees its slot, refunds the price to its owner only and answers the refund |
| Ledger.BookPreservesInv | backend/main.py:159-171 | booking keeps the ledger invariant (balances ≥ 0, balance + committed = bonus, confirmed slots locked, at most one confirmed booking per slot) |
| Ledger.CancelPreservesInv | backend/main.py:219-229 | cancelling keeps the ledger invariant |
| Ledger.RegisterPreservesInv | backend/main.py:73-82 | signup keeps the ledger invariant: the new user starts with the bonus and no bookings |
| Ledger.CommittedAfterCancel | backend/main.py:226-229 | cancelling a confirmed booking lowers its owner's committed amount by exactly its price and no one else's |
| Ledger.BookThenCancel | backend/main.py:166-173 | booking then cancelling that booking answers the price and restores every balance and every slot; only the cancelled row remains |
| Ledger.ExactBalanceBooks | backend/main.py:159-170 | a balance equal to the price is accepted and leaves 0 |
| Ledger.CancelTwice | backend/main.py:219-223 | a second cancel of the same booking is refused with 400 and changes nothing |
| Ledger.ForeignBookingNotFound | backend/main.py:208-217 | another user's booking is answered 404, like a missing one, with no change |
| Ledger.Backend.constructor | backend/main.py:37-43 | the seeded database (slots only) satisfies the invariant |
| Ledger.Backend.Signup | backend/main.py:47-85 | the in-place insert makes exactly the state and answer of `Register` and keeps the invariant |
| Ledger.Backend.CreateBooking | backend/main.py:145-175 | the in-place updates make exactly the state and answer of `Book` and keep the invariant |
| Ledger.Backend.CancelBooking | backend/main.py:203-233 | the in-place updates make exactly the state and answer of `Cancel` and keep the invariant |
| EmailSchema.MatchesWhole | backend/schemas.py:13-18 | the pattern from `^` to the end of the string; an accepted string has at least six characters ("a@b.cc"); `EmailSchema.MatchesWholeIffRegex` ties it to the pattern read as a regular expression |
| EmailSchema.IsValidEmail | backend/schemas.py:13-18 | what `re.match` with `$` accepts, at least six characters; `EmailSchema.IsValidEmailIffRegex` ties it to the pattern and `EmailSchema.TrailingNewline` to the one optional newline |
| EmailSchema.ValidateEmail | backend/schemas.py:13-18 | Ok exactly for accepted addresses, returning the input unchanged; otherwise the "Invalid email format" error |
| EmailSchema.MatchesWholeIffRegex | backend/schemas.py:15 | the hand-written scan (first '@', last '.') accepts exactly the strings that some split into local run, domain run and ≥ 2 letters matches |
| EmailSchema.IsValidEmailIffRegex | backend/schemas.py:15-16 | the same with `$`'s optional trailing newline on both sides |
| EmailSchema.ScanImpliesRegex | backend/schemas.py:15 | the scan's cut is a split of the pattern |
| EmailSchema.RegexImpliesScan | backend/schemas.py:15 | every split of the pattern is the scan's cut |
| EmailSchema.AcceptedHasOneAt | backend/schemas.py:15 | an accepted address has exactly one '@' |
| EmailSchema.SplitHasOneAt | backend/schemas.py:15 | a string the pattern splits has exactly one '@' |
| EmailSchema.WholeMatchEndsInLetter | backend/schemas.py:15 | a string the whole pattern matches ends in an ASCII letter |
| EmailSchema.TrailingNewline | backend/schemas.py:16 | "a@b.cc\n" is accepted, "a@b.cc\n\n" is not, and the pattern alone does not match "a@b.cc\n" |
| EmailSchema.AcceptsShortAddress | backend/schemas.py:15 | "a@b.cc" matches the whole pattern |
| EmailSchema.AcceptsDottedAddress | backend/schemas.py:15 | "a.b+c@mail.in" is accepted |
| EmailSchema.RejectsMissingDot | backend/schemas.py:15 | "ab@cd" is refused |
| EmailSchema.RejectsEmptyLocalPart | backend/schemas.py:15 | "@cd.in" is refused |
| EmailSchema.RejectsOneLetterTopLevel | backend/schemas.py:15 | "ab@cd.e" is refused |
| EmailSchema.IndexOf | backend/schemas.py:15 | the index of the first occurrence, or none when the character is absent |
| EmailSchema.LastIndexOf | backend/schemas.py:15 | the index of the last occurrence, or none when the character is absent |
| Prakriti.Tally | frontend/app/prakriti-analysis.bak/page.tsx:169-173 | the `forEach` loop ends with each dosha's number of answers, summing to the number of answers |
| Prakriti.Tallies | frontend/app/prakriti-analysis.bak/page.tsx:169-175 | raw scores are non-negative and sum to the number of answers |
| Prakriti.AddOne | frontend/app/prakriti-analysis.bak/page.tsx:171 | `scores[answer]++` adds one to that dosha and changes no other |
| Prakriti.VotersPartition | frontend/app/prakriti-analysis.bak/page.tsx:169-175 | every answer is counted for exactly one dosha |
| Prakriti.Percent | frontend/app/prakriti-analysis.bak/page.tsx:176-180 | the nearest whole percentage, halves up, within 0..100 when score ≤ total |
| Prakriti.Percentages | frontend/app/prakriti-analysis.bak/page.tsx:176-180 | each percentage lies in 0..100 |
| Prakriti.Insert | frontend/app/prakriti-analysis.bak/page.tsx:182-184 | one insertion step of the stable sort adds exactly one element; `Prakriti.InsertKeeps`, `InsertDescending` and `InsertTiesInOrder` give the rest |
| Prakriti.SortByScore | frontend/app/prakriti-analysis.bak/page.tsx:182-184 | the sort keeps the length; `Prakriti.SortByScoreCorrect` proves it a stable, descending permutation |
| Prakriti.Ranked | frontend/app/prakriti-analysis.bak/page.tsx:182-184 | the three doshas, ranked; `Prakriti.RankedIsPermutation` and `RankedFirstIsPrimary` state the order |
| Prakriti.SortByScoreCorrect | frontend/app/prakriti-analysis.bak/page.tsx:182-184 | the insertion sort returns a permutation, in descending score, with ties in input order |
| Prakriti.SortByScorePermutes | frontend/app/prakriti-analysis.bak/page.tsx:182-184 | the sort is a permutation |
| Prakriti.SortByScoreMembers | frontend/app/prakriti-analysis.bak/page.tsx:182-184 | the sort keeps exactly the input's members |
| Prakriti.SortByScoreDescending | frontend/app/prakriti-analysis.bak/page.tsx:182-184 | the sort is in descending score |
| Prakriti.SortByScoreTies | frontend/app/prakriti-analysis.bak/page.tsx:182-184 | the sort keeps equal scores in input order (stability) |
| Prakriti.InsertKeeps | frontend/app/prakriti-analysis.bak/page.tsx:182-184 | one insertion adds exactly one element |
| Prakriti.InsertMembers | frontend/app/prakriti-analysis.bak/page.tsx:182-184 | one insertion keeps every member and adds the new one |
| Prakriti.InsertDescending | frontend/app/prakriti-analysis.bak/page.tsx:182-184 | insertion keeps a descending list descending |
| Prakriti.InsertTiesInOrder | frontend/app/prakriti-analysis.bak/page.tsx:182-184 | inserting an earlier element keeps ties in input order |
| Prakriti.RankedIsPermutation | frontend/app/prakriti-analysis.bak/page.tsx:182-186 | the ranking lists the three doshas once each, descending, ties vata-pitta-kapha |
| Prakriti.RankedFirstIsPrimary | frontend/app/prakriti-analysis.bak/page.tsx:186 | the first-ranked dosha has the top score and beats every earlier-listed dosha, and it is the only such dosha |
| Prakriti.ConstitutionLabel | frontend/app/prakriti-analysis.bak/page.tsx:189-194 | "P-S (Dual Constitution)" exactly when a secondary exists within 10 points, "P Dominant" otherwise, names capitalised |
| Prakriti.Analyze | frontend/app/prakriti-analysis.bak/page.tsx:175-194 | the scores are percentages within 0..100 and a secondary dosha scores at least 25; `Prakriti.AnalyzeCorrect` states the primary, the secondary and the label |
| Prakriti.AnalyzeCorrect | frontend/app/prakriti-analysis.bak/page.tsx:175-194 | the result's scores are the percentages, its primary is the top dosha with the vata-pitta-kapha tie-break, a secondary exists exactly when the runner-up reaches 25 and then differs from the primary and scores no higher, and the label follows the 10-point rule |
| Prakriti.CalculateResults | frontend/app/prakriti-analysis.bak/page.tsx:168-301 | `calculateResults` on the answers is `Analyze` of their tallies, with a primary dosha as above |
| Prakriti.CapitalizedNames | frontend/app/prakriti-analysis.bak/page.tsx:190-193 | the capitalised names are "Vata", "Pitta", "Kapha" |
| Prakriti.KeysWithin | frontend/app/prakriti-analysis.bak/page.tsx:303-307 | ids within 1..n number at most n, exactly n when all are present |
| Prakriti.AnswerCount | frontend/app/prakriti-analysis.bak/page.tsx:303-307 | however questions are re-answered, there are at most 12 answers, and 12 once each question has one |
| Prakriti.RangeSize | frontend/app/prakriti-analysis.bak/page.tsx:303-307 | the id range lo..hi-1 has hi - lo elements |
| Prakriti.Quiz.constructor | frontend/app/prakriti-analysis.bak/page.tsx:39-43 | the quiz starts on question 0 with no answers, no result, not loading |
| Prakriti.Quiz.HandleAnswer | frontend/app/prakriti-analysis.bak/page.tsx:303-321 | corrected (see ## Findings): the answer overwrites the entry of the current question's id; the index advances unless on the last question, where loading starts with all twelve answers, the last one included, pending |
| Prakriti.Quiz.PreviousQuestion | frontend/app/prakriti-analysis.bak/page.tsx:564-572 | the index goes back by one, only past the first question |
| Prakriti.Quiz.FinishAnalysis | frontend/app/prakriti-analysis.bak/page.tsx:314-320 | corrected (see ## Findings): after the delay the result is the analysis of the twelve pending answers, shown, loading off; the page as written scores only the first eleven |
| Prakriti.Quiz.Restart | frontend/app/prakriti-analysis.bak/page.tsx:323-328 | question 0, no answers, results hidden and cleared |
| Prakriti.AnswersScoredIntended | frontend/app/prakriti-analysis.bak/page.tsx:303-316 | the answers including the one just given: the new entry plus every earlier one |
| Prakriti.LastAnswerLostVote | frontend/app/prakriti-analysis.bak/page.tsx:303-316 | scoring without the last answer counts one answer fewer and one vote fewer for its dosha |
| Prakriti.VotersOfNewAnswer | frontend/app/prakriti-analysis.bak/page.tsx:169-173 | a new answer adds one voter to its own dosha only |
| Prakriti.ElevenAnswersScored | frontend/app/prakriti-analysis.bak/page.tsx:175-194 | 5/5/1 of 11 gives vata primary, "Vata-Pitta (Dual Constitution)" |
| Prakriti.TwelveAnswersScored | frontend/app/prakriti-analysis.bak/page.tsx:175-194 | 5/6/1 of 12 gives pitta primary, "Pitta-Vata (Dual Constitution)" |
| Prakriti.TieLabel | frontend/app/prakriti-analysis.bak/page.tsx:189-191 | the label of a 45/45 vata-pitta tie |
| Prakriti.PittaLeadLabel | frontend/app/prakriti-analysis.bak/page.tsx:189-191 | the label of pitta 50 against vata 42 |
| Prakriti.LastAnswerChangesPrimary | frontend/app/prakriti-analysis.bak/page.tsx:303-316 | with 5 vata, 5 pitta, 1 kapha and a last answer of pitta, the page as written shows vata, scoring every answer shows pitta |
| Therapy.SessionIsThirtyMinutes | frontend/app/therapy-tracking/page.tsx:31-67 | the three steps last 300 + 900 + 600 = 1800 seconds |
| Therapy.Ticked | frontend/app/therapy-tracking/page.tsx:79-103 | the countdown invariant is kept; with no interval running nothing changes; otherwise exactly one second elapses, the pause flag is kept, the session stays active exactly while the elapsed time is under the whole session, and the step never goes back |
| Therapy.Run | frontend/app/therapy-tracking/page.tsx:79-103 | any number of ticks keeps the countdown invariant |
| Therapy.SessionRunsThirtyMinutes | frontend/app/therapy-tracking/page.tsx:79-109 | after k ≤ 1800 ticks from start, k seconds have elapsed and the session is active exactly while k < 1800 |
| Therapy.SessionEnd | frontend/app/therapy-tracking/page.tsx:84-93 | after 1800 ticks the session is over, on the last step with 0 left |
| Therapy.Decimal | frontend/app/therapy-tracking/page.tsx:132 | `toString()` gives a non-empty digit string, one digit exactly below 10, two for 10..99 |
| Therapy.DecimalValue | frontend/app/therapy-tracking/page.tsx:132 | the digits read back as the number |
| Therapy.LeadingZero | frontend/app/therapy-tracking/page.tsx:132 | a leading '0' does not change the value read |
| Therapy.PadTwo | frontend/app/therapy-tracking/page.tsx:132 | `padStart(2, '0')`: at least two characters, the input at the end, zeros before it |
| Therapy.FormatTime | frontend/app/therapy-tracking/page.tsx:129-133 | at least five characters, with the seconds always two digits after the ':'; `Therapy.FormatTimeRoundTrip` and `FormatTimeShape` complete it |
| Therapy.FormatTimeRoundTrip | frontend/app/therapy-tracking/page.tsx:129-133 | reading the clock back as minutes:seconds gives the seconds it was given |
| Therapy.FormatTimeShape | frontend/app/therapy-tracking/page.tsx:129-133 | under 100 minutes the clock has five characters with ':' in the middle |
| Therapy.ClockOfDigits | frontend/app/therapy-tracking/page.tsx:132 | two digit runs joined by ':' read back as minutes × 60 + seconds |
| Therapy.WholeMinutes | frontend/app/therapy-tracking/page.tsx:129-133 | a whole number of minutes from 10 to 99 shows as its two digits and ":00" |
| Therapy.StepClocks | frontend/app/therapy-tracking/page.tsx:31-67 | the steps start at "05:00", "15:00" and "10:00" |
| Therapy.Session.constructor | frontend/app/therapy-tracking/page.tsx:21-28 | inactive, step 0, nothing reported |
| Therapy.Session.Start | frontend/app/therapy-tracking/page.tsx:105-109 | active, step 0, 300 seconds, side effects untouched |
| Therapy.Session.Tick | frontend/app/therapy-tracking/page.tsx:79-103 | the in-place updates give exactly `Ticked` of the old countdown |
| Therapy.Session.TogglePause | frontend/app/therapy-tracking/page.tsx:111-113 | flips the paused flag only |
| Therapy.Session.Stop | frontend/app/therapy-tracking/page.tsx:115-120 | inactive, unpaused, 0 left, step 0 |
| Therapy.Session.OpenSideEffectModal | frontend/app/therapy-tracking/page.tsx:232 | the report dialog opens and the countdown and the reported effects are kept |
| Therapy.Session.ReportSideEffect | frontend/app/therapy-tracking/page.tsx:122-127 | an effect is appended only when absent, so the list stays duplicate-free; the modal closes |
| Therapy.Session.ProgressPercentage | frontend/app/therapy-tracking/page.tsx:135-140 | 0 when inactive; during a session exactly the elapsed part of the current step times 100 over the step's duration, hence 0 at a step's start and always within 0..100 |
| Notifications.MarkAsRead | frontend/app/notifications.bak/page.tsx:104-110 | entries with the id become read, every other entry and field unchanged, same length and order |
| Notifications.MarkAllAsRead | frontend/app/notifications.bak/page.tsx:112-116 | every entry becomes read, nothing else changes |
| Notifications.Delete | frontend/app/notifications.bak/page.tsx:118-120 | no entry with the id remains |
| Notifications.UnreadCount | frontend/app/notifications.bak/page.tsx:174 | never more than the list length |
| Notifications.Filtered | frontend/app/notifications.bak/page.tsx:169-172 | never longer than the list, and on the unread tab only unread entries; `Notifications.FilteredTabs` pins each tab exactly |
| Notifications.MarkAsReadIdempotent | frontend/app/notifications.bak/page.tsx:104-110 | marking twice is marking once |
| Notifications.MarkAllClearsUnread | frontend/app/notifications.bak/page.tsx:112-116 | after marking all, nothing is unread |
| Notifications.MarkAbsentId | frontend/app/notifications.bak/page.tsx:104-110 | marking an id no entry has changes nothing |
| Notifications.MarkAsReadLowersUnread | frontend/app/notifications.bak/page.tsx:104-110 | with unique ids, marking an unread entry lowers the count by exactly one |
| Notifications.DeleteKeepsOthers | frontend/app/notifications.bak/page.tsx:118-120 | exactly the entries with another id stay, each as often as before, in their order |
| Notifications.FilteredTabs | frontend/app/notifications.bak/page.tsx:169-174 | the unread tab shows exactly the unread entries, each as often as in the list, in order, as many as the count; the other tabs show all |
| Notifications.UpdateSetting | frontend/app/notifications.bak/page.tsx:159-167 | that one flag takes the value, every other flag unchanged |
| Notifications.InitialFlags | frontend/app/notifications.bak/page.tsx:39-42 | every channel starts on except SMS for reminders and milestones |
| Text.ToLower | frontend/app/panchabot/page.tsx:107 | same length, each character lowercased |
| Text.ToLowerIdempotent | frontend/app/panchabot/page.tsx:107 | lowercasing twice is lowercasing once |
| Panchabot.Contains | frontend/app/panchabot/page.tsx:109-237 | `includes` is true exactly when the needle occurs at some position |
| Panchabot.Route | frontend/app/panchabot/page.tsx:106-282 | the answer's group has a keyword in the lowercased query, and no earlier group has one |
| Panchabot.RouteBy | frontend/app/panchabot/page.tsx:109-268 | a query mentioning a group and no earlier group gets that group's answer |
| Panchabot.HelpExactlyWithoutKeywords | frontend/app/panchabot/page.tsx:270-282 | the help text comes back exactly when no keyword occurs |
| Panchabot.RouteIgnoresCase | frontend/app/panchabot/page.tsx:107 | a query and its lowercase get the same answer |
| Panchabot.SplitAfterSpace | frontend/app/panchabot/page.tsx:109-237 | a space-free keyword inside a text cut after a space lies in one of the parts |
| Panchabot.TreatmentMentionsEat | frontend/app/panchabot/page.tsx:133-159 | "side effects of treatment" gets the diet answer, because "treatment" contains "eat" and the diet group is tried before the side-effect group |
| Panchabot.NoWordInsideWord | frontend/app/panchabot/page.tsx:133 | inside a run of letters a keyword starts a word only as its prefix, so "eat" does not start a word of "treatment" |
| Panchabot.WordSplitAfterSpace | frontend/app/panchabot/page.tsx:109-237 | a space-free keyword starting a word of a text cut after a space starts a word of one of the parts |
| Panchabot.WordMentionsMentions | frontend/app/panchabot/page.tsx:109-237 | a keyword found at a word start is found by `includes` too |
| Panchabot.RouteWords | frontend/app/panchabot/page.tsx:106-282 | corrected (see ## Findings): the answer's group has a keyword starting a word of the lowercased query, and no earlier group has one |
| Panchabot.RouteWordsBy | frontend/app/panchabot/page.tsx:109-268 | corrected (see ## Findings): a query with a keyword of a group at a word start, and none of an earlier group, gets that group's answer |
| Panchabot.RouteWordsByMentions | frontend/app/panchabot/page.tsx:109-268 | corrected (see ## Findings): a keyword of a group at a word start, with no keyword of an earlier group anywhere, gets that group's answer from the word-start routing |
| Panchabot.RouteWordsAgrees | frontend/app/panchabot/page.tsx:106-282 | where every keyword that occurs starts a word, the corrected routing answers as the page does |
| Panchabot.TreatmentQueryWordRoutes | frontend/app/panchabot/page.tsx:159-185 | corrected (see ## Findings): "side effects of treatment" gets the side-effect answer |
| Panchabot.QuickActionsRouteToOwnAnswer | frontend/app/panchabot/page.tsx:30-67 | each of the six quick-action questions gets the answer its label promises, from the page's routing and from the word-start routing alike |
| Panchabot.BenefitsQueryRoutes | frontend/app/panchabot/page.tsx:30-35 | the Abhyanga quick action gets the therapy-benefits answer; the word-start routing gives the same answer |
| Panchabot.DietQueryRoutes | frontend/app/panchabot/page.tsx:36-41 | the diet quick action gets the diet answer; the word-start routing gives the same answer |
| Panchabot.SideEffectsQueryRoutes | frontend/app/panchabot/page.tsx:42-47 | the side-effects quick action gets the side-effects answer; the word-start routing gives the same answer |
| Panchabot.PreparationQueryRoutes | frontend/app/panchabot/page.tsx:48-53 | the preparation quick action gets the preparation answer; the word-start routing gives the same answer |
| Panchabot.DoshaQueryRoutes | frontend/app/panchabot/page.tsx:54-59 | the dosha quick action gets the dosha answer; the word-start routing gives the same answer |
| Panchabot.RecoveryQueryRoutes | frontend/app/panchabot/page.tsx:60-66 | the recovery quick action gets the recovery answer; the word-start routing gives the same answer |
| Panchabot.Outgoing | frontend/app/panchabot/page.tsx:286 | a non-empty quick-action text is sent as it is, otherwise the trimmed input |
| Panchabot.Chat.constructor | frontend/app/panchabot/page.tsx:69-78 | the chat opens with the welcome message only |
| Panchabot.Chat.Type | frontend/app/panchabot/page.tsx:404-406 | the input line holds what was typed |
| Panchabot.Chat.SendMessage | frontend/app/panchabot/page.tsx:285-303 | corrected (see ## Findings): an empty outgoing text changes nothing; otherwise exactly one user message with that text is appended, the input is cleared, loading starts and the answer of the word-start routing is pending |
| Panchabot.Chat.EnabledSendSends | frontend/app/panchabot/page.tsx:411 | an enabled Send button means not loading and a non-blank input, so the text sent is the trimmed input and is never empty |
| Panchabot.Chat.DeliverReply | frontend/app/panchabot/page.tsx:88-104 | the pending answer is appended and loading ends |
| Slots.FilteredSlots | frontend/app/slots.bak/page.tsx:110-118 | never longer than the input, every slot shown is available |
| Slots.FilteredSlotsMembers | frontend/app/slots.bak/page.tsx:110-118 | "affordable" keeps exactly available slots within the balance, "today" exactly available slots dated today, any other key exactly the available slots; each shown slot as often as in the server's list |
| Slots.FilteredSlotsInOrder | frontend/app/slots.bak/page.tsx:110-118 | every filter keeps the server's order |
| Slots.UnknownFilterShowsAll | frontend/app/slots.bak/page.tsx:110-118 | an unknown key shows the same list as "all" |
| Slots.BookSlot | frontend/app/slots.bak/page.tsx:59-71 | nothing without a user, the warning exactly when balance < price, a request for that slot otherwise |
| Slots.ClientGuardMatchesServer | frontend/app/slots.bak/page.tsx:62 | the page sends a request for an open slot exactly when the server would accept it |
| Slots.EnabledButtonRequests | frontend/app/slots.bak/page.tsx:295 | an enabled Book button always requests; a button greyed for the balance would only have warned |
| Diet.Glasses | frontend/app/diet-lifestyle.bak/page.tsx:285-289 | eight glasses, glass i filled exactly when i < intake |
| Diet.GlassesShowIntake | frontend/app/diet-lifestyle.bak/page.tsx:285-297 | with intake in 0..8, the filled glasses number the intake |
| Diet.FilledGlasses | frontend/app/diet-lifestyle.bak/page.tsx:285-289 | the first `intake` of n glasses are exactly the filled ones |
| Diet.WaterTracker.constructor | frontend/app/diet-lifestyle.bak/page.tsx:38 | the counter starts at 0 |
| Diet.WaterTracker.AddWaterGlass | frontend/app/diet-lifestyle.bak/page.tsx:210-214 | one more glass below the goal, no change at the goal; 0 ≤ intake ≤ 8 is kept; the button is greyed out exactly when a click would change nothing |
| Diet.WaterTracker.ResetWaterIntake | frontend/app/diet-lifestyle.bak/page.tsx:216-218 | the counter goes back to 0 |
| Diet.TotalCalories | frontend/app/diet-lifestyle.bak/page.tsx:354 | the total is at least each meal's calories |
| Diet.TotalCaloriesAppend | frontend/app/diet-lifestyle.bak/page.tsx:354 | the total of two plans is the sum of their totals |
| Diet.PlanCalories | frontend/app/diet-lifestyle.bak/page.tsx:42-88 | the day's plan adds up to 1275 calories |
| Diet.Completed | frontend/app/diet-lifestyle.bak/page.tsx:423 | at most the number of activities |
| Diet.Remaining | frontend/app/diet-lifestyle.bak/page.tsx:433 | at most the number of activities |
| Diet.CompletedPlusRemaining | frontend/app/diet-lifestyle.bak/page.tsx:423-433 | completed plus remaining is the number of activities |
| Diet.Progress | frontend/app/diet-lifestyle.bak/page.tsx:443 | the nearest whole percentage of completed activities, within 0..100 |
| Diet.PlanProgress | frontend/app/diet-lifestyle.bak/page.tsx:90-146 | the fixed list shows 2 done, 4 to go and 33% |
| Community.FilteredPosts | frontend/app/community/page.tsx:172-174 | never longer than the input; a category shows only its posts |
| Community.FilteredPostsExactly | frontend/app/community/page.tsx:172-174 | "all" is every post; a category is exactly its posts, each as often as in the list, in order |
| Community.CommunityPage.constructor | frontend/app/community/page.tsx:40-46 | all categories, empty new-post form in "experience", no expert, dialogs closed |
| Community.CommunityPage.SelectCategory | frontend/app/community/page.tsx:261 | the chosen category becomes the filter |
| Community.CommunityPage.EditNewPost | frontend/app/community/page.tsx:457-482 | the form fields hold what was entered |
| Community.CommunityPage.OpenNewPostModal | frontend/app/community/page.tsx:274 | the new-post form opens |
| Community.CommunityPage.CloseNewPostModal | frontend/app/community/page.tsx:498 | the new-post form closes |
| Community.CommunityPage.HandleNewPost | frontend/app/community/page.tsx:181-190 | a blank title or body changes nothing; otherwise title and body are cleared and the form closes, the category kept |
| Community.CommunityPage.HandleBookConsultation | frontend/app/community/page.tsx:192-195 | the expert is selected and the dialog opens |
| Community.CommunityPage.ConfirmBooking | frontend/app/community/page.tsx:197-202 | the dialog closes and the selection is cleared; the booking was for the selected, available expert |
| Community.CommunityPage.CloseBookingModal | frontend/app/community/page.tsx:542 | the dialog closes, the selection stays |
| Signup.Updated | frontend/app/signup/page.tsx:30-35 | the named field takes the value, the others are unchanged |
| Signup.ValidateAsWritten | frontend/app/signup/page.tsx:41-56 | the page's own check: the username error exactly when the untrimmed username is < 3 characters, no error exactly when it and the password are long enough |
| Signup.Validate | frontend/app/signup/page.tsx:41-56 | corrected (see ## Findings): the username error exactly when the username the server will see (trimmed) is < 3 characters, the password error exactly for a valid username and a password < 6, none otherwise |
| Signup.RequestOf | frontend/app/contexts/AuthContext.tsx:84-90 | `signup` posts the username trimmed (never longer than typed), the e-mail trimmed and lowercased, the password and the dosha as typed |
| Signup.ClientChecksMatchServer | frontend/app/signup/page.tsx:41-61 | a form the page lets through is never refused by the server for its lengths, and one it stops would have been refused anyway |
| Signup.PaddedNameSlipsThrough | frontend/app/signup/page.tsx:41 | a username of at least 3 characters that trims to fewer passes the page's own check, and the server then refuses it as too short exactly when neither the name nor the e-mail is already registered |
| Signup.PaddedNameExample | frontend/app/contexts/AuthContext.tsx:87-88 | "ab " with "a@b.cc" and "secret" is such a form: 3 characters, 2 after trimming, an accepted e-mail |
| Signup.TakenNameReportedAsCreated | frontend/app/contexts/AuthContext.tsx:101-104 | a valid form whose name is taken is refused by the server (400), and the page as written still reports "Account Created!" |
| Signup.NoticeFor | frontend/app/signup/page.tsx:61-73 | corrected (see ## Findings): "Account Created!" exactly when the signup succeeded |
| Signup.NoticeFollowsServer | frontend/app/signup/page.tsx:61-73 | with the corrected notice, the page reports success exactly when the form passes its checks, the normalised e-mail is accepted and the name and e-mail are free |
| Signup.SignupPage.constructor | frontend/app/signup/page.tsx:14-20 | empty form with dosha "vata", not loading |
| Signup.SignupPage.HandleChange | frontend/app/signup/page.tsx:30-35 | the form becomes `Updated` with that field |
| Signup.SignupPage.Submit | frontend/app/signup/page.tsx:37-61 | corrected (see ## Findings): a failed check of the trimmed username or the password gives its error and leaves loading off; otherwise loading goes on and the form's request is sent |
| Signup.SignupPage.Settle | frontend/app/signup/page.tsx:61-76 | corrected (see ## Findings): loading goes off on success and failure alike, as the `finally` does, and the notice shown is success exactly when the signup succeeded (the page as written always shows success) |
| Toasts.WithId | frontend/app/components/ui/Toast.tsx:79-82 | the toast carries the given fields and the id |
| Toasts.ShowToast | frontend/app/components/ui/Toast.tsx:79-82 | exactly one toast more, at the end, earlier toasts unchanged |
| Toasts.RemoveToast | frontend/app/components/ui/Toast.tsx:84-86 | no toast with the id remains |
| Toasts.RemoveToastKeepsOthers | frontend/app/components/ui/Toast.tsx:84-86 | exactly the toasts with another id stay, each as often as before, in order |
| Toasts.RemoveAbsentId | frontend/app/components/ui/Toast.tsx:84-86 | removing an absent id changes nothing |
| Toasts.RemoveTwice | frontend/app/components/ui/Toast.tsx:84-86 | removing twice is removing once |
| Toasts.ShowThenRemove | frontend/app/components/ui/Toast.tsx:79-86 | showing under a fresh id then removing it gives the list back |
| Toasts.RemoveCommutes | frontend/app/components/ui/Toast.tsx:84-86 | removing two ids in either order gives the same list |
| Sidebar.ToggleSection | frontend/app/components/Sidebar.tsx:72-74 | the open section closes; any other section becomes the open one |
| Sidebar.HeaderClick | frontend/app/components/Sidebar.tsx:123 | while collapsed a header click changes nothing; otherwise it toggles |
| Sidebar.ToggleTwiceFromNone | frontend/app/components/Sidebar.tsx:72-74 | toggling a section twice from none open leaves none open |
| Sidebar.AfterClicks | frontend/app/components/Sidebar.tsx:123 | while collapsed no run of clicks changes the open section |
| Sidebar.OpenSectionWasClicked | frontend/app/components/Sidebar.tsx:72-74 | after any clicks the open section is the initial one or one that was clicked |
| Sidebar.AtMostOneShown | frontend/app/components/Sidebar.tsx:118-150 | among distinct section ids at most one shows its links |
| Sidebar.SidebarShowsAtMostOneSection | frontend/app/components/Sidebar.tsx:23-70 | at most one of the five sections is expanded at any time |
| Sidebar.IsCollapsed | frontend/app/components/Sidebar.tsx:20 | the parent's value when given, the sidebar's own otherwise |
| Sidebar.CollapseClick | frontend/app/components/Sidebar.tsx:100 | the button sets the negation through the parent's setter when given, through the sidebar's own otherwise |
| Sidebar.CollapseClickFlips | frontend/app/components/Sidebar.tsx:20-21 | the button flips the effective flag unless the parent passes a value without a setter; two clicks restore it |
| Seqs.Filter | frontend/app/components/ui/Toast.tsx:85 | never longer than the input, and every element kept passes; `Seqs.FilterMembers`, `FilterIsSubsequence` and `FilterMultiset` complete it |
| Seqs.FilterMembers | frontend/app/components/ui/Toast.tsx:85 | `filter` keeps exactly the elements that pass |
| Seqs.FilterIsSubsequence | frontend/app/components/ui/Toast.tsx:85 | `filter` keeps the original order |
| Seqs.FilterMultiset | frontend/app/components/ui/Toast.tsx:85 | `filter` keeps every occurrence of an element that passes and none of one that fails |
| Seqs.FilterCommutes | frontend/app/components/ui/Toast.tsx:85 | two filters in a row commute |
| Text.Trim | frontend/app/community/page.tsx:182 | `trim()` drops exactly leading and trailing white space; empty exactly for all-blank input |

## Left out

- HTTP, JSON, cookies, JWT creation, password hashing and the Gemini `/chat` call. The authenticated user is a user index, and a missing user is the `NotAuthenticated` answer.
- The generic 500 answer of `signup` (an exception from the database driver) is not modelled. The 500 of `cancel_booking` for a booking whose slot row has disappeared is modelled as `InternalError`.
- `SIGNUP_BONUS` is read from the environment with default 1000; the model fixes it at 1000.
- Money is a whole number: the `Float` wallet column and float rounding are not modelled.
- Ledger.Register: the request's missing dosha stands for an omitted field; an explicit JSON null, which the schema would pass through as null, is not modelled.
- Concurrent requests are not modelled; the ledger is sequential, so two racing bookings of one slot are out of scope.
- Every string is ASCII. `toLowerCase`, `trim`, `.length` and `len` are modelled on ASCII only.
- Prakriti.Percent: `Math.round((score / total) * 100)` is computed in floating point by the page; the model rounds the exact quotient half up.
- Diet.Progress: uses the same exact rounding as `Prakriti.Percent`, not floating point.
- Therapy.Session.ProgressPercentage is a real-number quotient, not JavaScript floating point.
- Time is not modelled:
  - Timers, intervals and delays are explicit steps: `Therapy.Session.Tick`, `Prakriti.Quiz.FinishAnalysis` and `Panchabot.Chat.DeliverReply`.
  - The toast auto-dismiss timer at frontend/app/components/ui/Toast.tsx:47-53 is the same `RemoveToast` call and needs no model of its own.
  - The clock is not read: "today" in the slot filter and the ids drawn at random or from `Date.now()` are parameters or dropped.
- Panchabot answers are named by a `Topic` instead of their long canned texts, and message ids and timestamps are dropped.
- Panchabot.QuickActionsRouteToOwnAnswer: each quick-action question is written as three pieces concatenated; the pieces spell the page's text exactly.
- Prakriti.AnalyzeCorrect: the recommendation lists are `RecommendationsFor(primary)`, four fixed lists of five per dosha; the result value does not repeat them.
- Preconditions that reflect controls the page disables or hides:
  - `!isLoading` on `Panchabot.Chat.SendMessage`;
  - `!loading` on `Signup.SignupPage.Submit`;
  - enabled experts and slots on the `Community` booking methods;
  - `currentQuestion > 0` on `Prakriti.Quiz.PreviousQuestion`;
  - `!isSessionActive` on `Therapy.Session.Start`;
  - `isSessionActive` on `Therapy.Session.TogglePause`, whose button is rendered only during a session.
- Prakriti.Analyze: requires at least one answer, as the page only scores after the last question.
- Signup.SignupPage.Settle: `accepted` stands for the boolean `signup` answers; the automatic login inside `signup` (frontend/app/contexts/AuthContext.tsx:100) is not modelled, so a refused login counts as a refused signup.
- Sidebar.CollapseClickFlips: a parent that passes a setter is assumed to pass back the value it was last given.
- Presentation: colours, icons, emoji, animations, the chart pages and the other non-core pages.

## Findings

| source | as written | input that shows it | evidently intended | confidence | as-written member | corrected member |
|---|---|---|---|---|---|---|
| frontend/app/prakriti-analysis.bak/page.tsx:303-316 | the delayed callback calls the `calculateResults` of the render in which the last `handleAnswer` ran, whose `answers` do not yet hold the answer just given, so the last answer is not scored | Q1–5 vata, Q6–10 pitta, Q11 kapha, Q12 pitta: as written vata is primary, with all twelve answers pitta is | score all twelve answers | not executed | Prakriti.LastAnswerChangesPrimary | Prakriti.Quiz.HandleAnswer, Prakriti.Quiz.FinishAnalysis |
| frontend/app/signup/page.tsx:41 | the page checks the length of the username as typed, while `signup` posts it trimmed and the server checks the trimmed length | username "ab ", e-mail "a@b.cc", password "secret" with no user registered yet: the page lets it through and the server answers 400 "Username must be at least 3 characters long" | check the length of the trimmed username, so every form the page lets through passes the server's length checks | not executed | Signup.PaddedNameSlipsThrough | Signup.Validate, Signup.SignupPage.Submit |
| frontend/app/signup/page.tsx:61-73 | `signup` catches every error and answers `false`, and `handleSubmit` ignores that answer, so its `catch` never runs and "Account Created!" is shown whatever the server said | a valid form whose username is already registered: the server answers 400 and the page reports "Account Created!" | show the failure toast when `signup` answers `false` | not executed | Signup.TakenNameReportedAsCreated | Signup.NoticeFor, Signup.SignupPage.Settle |
| frontend/app/panchabot/page.tsx:133 | `query.includes('eat')` matches "eat" anywhere, also inside "treatment", "great", "heat" or "create", and the diet group is tried before every group but the first | "side effects of treatment" gets the diet answer instead of the side-effect answer | match a keyword only where a word begins, so that "side effect" still matches "side effects" but "treatment" no longer mentions eating | not executed | Panchabot.TreatmentMentionsEat | Panchabot.RouteWords, Panchabot.TreatmentQueryWordRoutes |
