# TrustMission front-end rules in Dafny

This project models the rules of the TrustMission web front end, a React application on a Supabase back end. Users register through a step-by-step wizard, pass one quiz a day for seven days for a reward, refer other users, and ask to withdraw their balance. Administrators approve accounts, process withdrawal requests and appointments, edit quizzes and change platform settings.

The model covers the following parts of the front end:

- the registration wizards (legacy and modern) and their validators: age, password, e-mail, phone, referral code, the KYC photos, the contract latch, and the step cursor with its data merge;
- the account context: referral-code generation and the uniqueness loop, the new profile, the login gates and the profile update mapping;
- the daily quiz unlocking, the dashboard and progress views, both quiz screens (answer sheet, cursor, timer, scoring) and the ledger credit after a passed quiz;
- the withdrawal threshold, the amount bounds, the IBAN and BIC shape checks and their normalisation;
- the referral card with its global cap;
- the admin consoles (users, withdrawal requests, appointments), the admin overview counters, the settings page, the quiz editor and the admin list;
- the notification hook with its unread counter;
- the page navigation of the mobile front end;
- the demonstration data, as fixtures the lemmas check.

The model follows these conventions:

- Money is in integer cents: 7.15 € is 715. The settings page is the exception and uses exact `real` euros, because its summary is the value the page shows.
- Time is in integer milliseconds.
- Each database table is a `map` from id to row.
- Each query or update outcome is a parameter: an `Option` for a result, a `bool` for success.
- A component whose state its handlers change is a `class`; each handler is a method that states the whole new state.
- Pure checks and computations are functions, and lemmas relate them to one another.

## Model

| member | source | states |
|---|---|---|
| Common.TrimStart | project/src/components/registration/steps/PersonalInfo.tsx:52 | `trim` drops a leading run of whitespace only: what remains is a suffix of the input starting with a non-space |
| Common.TrimEnd | project/src/components/registration/steps/PersonalInfo.tsx:52 | the trailing half of `trim`: a prefix of the input, ending with a non-space, followed only by whitespace |
| Common.BlankIffAllSpace | project/src/components/admin/QuizManagement.tsx:552 | the `!s.trim()` test used by every form holds exactly for strings made of whitespace only |
| Common.ToUpper | project/src/components/registration/steps/ReferralCode.tsx:28 | `toUpperCase` keeps the length and maps each character on its own (ASCII letters up, everything else unchanged) |
| Common.ToLower | project/src/contexts/AuthContext.tsx:171 | `toLowerCase` keeps the length and lowers each ASCII capital, leaving the rest |
| Common.Digits | project/src/components/registration/steps/WhatsAppVerification.tsx:22 | `replace(/\D/g, '')` leaves only digits, never more characters than it was given |
| Common.DigitsKept | project/src/components/registration/steps/WhatsAppVerification.tsx:22 | every digit of the input is kept, in order and as often as it occurs, and nothing else: the result is the subsequence of the input's digits |
| Common.ReplaceFirst | project/src/components/modern/ModernQuiz.tsx:62 | a one-character string pattern removes exactly one character when it occurs and changes nothing when it does not |
| Common.ReplaceFirstRemovesFirst | project/src/components/modern/ModernQuiz.tsx:62 | when the character occurs, the one removed is its first occurrence and everything before and after it is kept in place |
| Common.RemovedAtCons | project/src/components/modern/ModernQuiz.tsx:62 | a first character other than the pattern stays in front of the removal |
| Common.ReadShow | project/src/components/modern/ModernQuiz.tsx:62 | reading back a decimal numeral gives the number written |
| Common.ParseIntShow | project/src/components/modern/ModernQuiz.tsx:62 | `parseInt` reads a numeral followed by anything that does not start with a digit (nor, after a lone 0, with `x` or `X`) as that number |
| Common.ParseIntShowInt | project/src/components/quiz/QuizPage.tsx:19 | `parseInt` inverts `String` on every integer, negative ones included |
| Common.ParseInt | project/src/components/modern/ModernQuiz.tsx:62 | `parseInt` without a radix is `NaN` exactly when no digit follows the leading whitespace and sign, where after a `0x` or `0X` prefix the digits are hexadecimal |
| Common.ParseIntHexExamples | project/src/components/quiz/QuizPage.tsx:19 | the hexadecimal prefix: "0x3" reads as 3, "-0X1a" as -26, and "0x" alone as `NaN` |
| Common.HexExample | project/src/components/quiz/QuizPage.tsx:19 | a signed `0x` prefix followed by hexadecimal digits only reads as their value, negated after a minus |
| Common.HexPrefixAll | project/src/components/quiz/QuizPage.tsx:19 | a run of hexadecimal digits is read to its end |
| Common.HexEmpty | project/src/components/quiz/QuizPage.tsx:19 | a `0x` prefix with nothing after it reads as `NaN` |
| Common.HexThree | project/src/components/quiz/QuizPage.tsx:19 | "0x3" reads as 3, so the route parameter "0x3" names quiz 3 |
| Common.HexMinusTwentySix | project/src/components/quiz/QuizPage.tsx:19 | "-0X1a" reads as -26: the sign comes before the prefix and the digits may be small letters |
| Common.PadTwo | project/src/components/modern/ModernQuiz.tsx:96 | `padStart(2, '0')` makes a short string two characters long and leaves a longer one alone |
| Common.FilterBy | project/src/components/admin/UserManagement.tsx:55-58 | a status filter keeps exactly the rows whose key is the wanted value, and never more rows than it was given |
| Common.FilterBySubsequence | project/src/components/admin/UserManagement.tsx:55-58 | the filter keeps the rows it selects in their original order |
| Common.CountByThree | project/src/components/admin/UserManagement.tsx:119-121 | with three distinct statuses, the three tab counts add up to the number of rows |
| Common.SubsetCard | project/src/components/dashboard/QuizProgress.tsx:40-42 | a set of ids drawn from another set is no larger than it |
| Unlock.DayTestIsInstantTest | project/src/components/modern/ModernDashboard.tsx:161-167 | the whole-day test `floor((now - createdAt) / day) >= unlock_day - 1` holds exactly from the unlock instant, `unlock_day - 1` days after registration, on |
| Unlock.UnlockInstantDays | project/src/components/dashboard/QuizProgress.tsx:33-38 | the unlock date shown is exactly `unlock_day - 1` whole days after registration; one millisecond earlier is one day fewer |
| Dashboard.PassedQuizIds | project/src/components/modern/ModernDashboard.tsx:76-90 | the completed list holds exactly the quiz ids of the user's passed completions |
| Dashboard.StatusOf | project/src/components/modern/ModernDashboard.tsx:153-171 | a passed quiz is completed whatever the date; without a user every other quiz is locked; a quiz is available exactly when a user exists, it is not passed and its unlock instant is reached |
| Dashboard.AvailableStaysAvailable | project/src/components/modern/ModernDashboard.tsx:161-167 | an open quiz stays open as time passes |
| Dashboard.DayOneOpenAtRegistration | project/src/components/modern/ModernDashboard.tsx:166 | the day-1 quiz is open at the instant of registration |
| Dashboard.DayThreeExample | project/src/components/modern/ModernDashboard.tsx:161-167 | a day-3 quiz is locked one day after registration and up to the last millisecond before two days, then available |
| Dashboard.InsertByDay | project/src/components/modern/ModernDashboard.tsx:68 | one insertion step of `order('unlock_day')` adds the row and loses none |
| Dashboard.InsertKeepsSorted | project/src/components/modern/ModernDashboard.tsx:68 | inserting into a list ordered by unlock day keeps it ordered |
| Dashboard.SortByDay | project/src/components/modern/ModernDashboard.tsx:68 | the ordering is a permutation of the rows, sorted by unlock day |
| Dashboard.ListedQuizzes | project/src/components/modern/ModernDashboard.tsx:63-74 | the listed quizzes are exactly the active rows, as many times as in the table, ordered by unlock day |
| Dashboard.CardClickAsWritten | project/src/components/modern/ModernDashboard.tsx:536 | as written, a card click reports the quiz's row id, and only for an available card |
| Dashboard.CardClickAsWrittenOpensOtherDay | project/src/components/modern/ModernQuiz.tsx:62 | a row with id "3f2a" and unlock day 1, clicked at registration, makes the quiz screen parse day 3 instead of day 1 |
| Dashboard.CardClick | project/src/components/modern/ModernDashboard.tsx:536-540 | the click fires exactly for a non-passed quiz whose unlock instant is reached, and reports "J" plus its unlock day, which the quiz screen parses back to that day |
| Dashboard.AvailableCounter | project/src/components/modern/ModernDashboard.tsx:444 | the counter is 0 once all missions are done, otherwise it and the number of passed quizzes add up to seven; it goes negative only with more than seven passes |
| Dashboard.AppointmentButtonShown | project/src/components/modern/ModernDashboard.tsx:476-491 | the booking button appears exactly when all missions are done and the fetched `appointment_enabled` setting is true |
| QuizProgress.StatusOf | project/src/components/dashboard/QuizProgress.tsx:15-31 | a passed built-in quiz is completed; otherwise it is available exactly from its unlock instant on |
| QuizProgress.UnlockDate | project/src/components/dashboard/QuizProgress.tsx:33-38 | the date under a locked quiz lies exactly `unlockDay - 1` whole days after registration |
| QuizProgress.UnlockDateIsOpening | project/src/components/dashboard/QuizProgress.tsx:33-38 | the date shown is the first instant at which an unpassed quiz is available: one millisecond earlier it is locked |
| QuizProgress.AgreesWithDashboard | project/src/components/dashboard/QuizProgress.tsx:15-31 | with the same passed quizzes and registration instant, the progress card and the mission dashboard (ModernDashboard.tsx:153-171) give every quiz the same status |
| QuizProgress.StartQuizOffered | project/src/components/dashboard/QuizProgress.tsx:131 | the Start Quiz button appears exactly on unpassed quizzes whose unlock instant is reached |
| QuizProgress.ProgressPercentage | project/src/components/dashboard/QuizProgress.tsx:40-42 | the bar reads 100 exactly when seven quizzes are recorded as passed, and stays within 0..100 exactly while at most seven are |
| QuizProgress.Elements | project/src/components/dashboard/QuizProgress.tsx:40 | the set of passed ids holds exactly the ids of the list |
| QuizProgress.DistinctElements | project/src/components/dashboard/QuizProgress.tsx:40 | a list of distinct ids has as many ids as entries |
| QuizProgress.SubsetOfSameSize | project/src/components/dashboard/QuizProgress.tsx:41 | a set of built-in ids as large as the whole list is the whole list |
| QuizProgress.QuizIdCount | project/src/components/dashboard/QuizProgress.tsx:41 | the built-in list has seven quiz ids |
| QuizProgress.FullProgressIffAllPassed | project/src/components/dashboard/QuizProgress.tsx:40-42 | with distinct built-in ids recorded, the bar is full exactly when every built-in quiz has been passed |
| Scoring.Ceil | project/src/components/quiz/QuizPage.tsx:88 | `Math.ceil` is the least integer not below its argument |
| Scoring.RatioRuleInIntegers | project/src/components/modern/ModernQuiz.tsx:121 | `correct / total >= 0.7` holds exactly when there is a question and ten times the correct answers reach seven times the questions |
| Scoring.PercentRuleIsRatioRule | project/src/components/modern/ModernQuiz.tsx:172-173 | the results screen's `score >= 70` gives the same verdict as the submission's ratio test |
| Scoring.CeilRuleInIntegers | project/src/components/quiz/QuizPage.tsx:88 | `correct >= Math.ceil(total * 0.7)` is the same integer inequality, for any number of questions |
| Scoring.RulesAgree | project/src/components/quiz/QuizPage.tsx:88 | on a quiz with questions, the legacy ceiling rule and the modern ratio rule (ModernQuiz.tsx:121) agree |
| Scoring.RulesDifferWithoutQuestions | project/src/components/quiz/QuizPage.tsx:88 | on a quiz without questions the ceiling rule passes and the ratio rule fails |
| Scoring.PassMarkExamples | project/src/components/quiz/QuizPage.tsx:149 | 2 of 2, 1 of 1 and 7 of 10 pass; 1 of 2, 0 of 1 and 6 of 10 fail |
| Countdown.TickNext | project/src/components/modern/ModernQuiz.tsx:46-53 | one tick takes one second off the clock and never goes below zero |
| Countdown.AfterTicksCountsDown | project/src/components/modern/ModernQuiz.tsx:35-53 | a clock started at `t` reads `t - k` after `k <= t` ticks |
| Countdown.SubmitsOnLastSecond | project/src/components/modern/ModernQuiz.tsx:48-50 | a clock started at `t` seconds submits on tick number `t` and on no earlier tick |
| Countdown.IndexOf | project/src/components/modern/ModernQuiz.tsx:96 | the position found holds the first occurrence of the character, and there is none when no position is found |
| Countdown.IndexOfAfter | project/src/components/modern/ModernQuiz.tsx:96 | the first `:` of a display is the one after the minutes |
| Countdown.PadTwoValue | project/src/components/modern/ModernQuiz.tsx:95-96 | the seconds field is two digits that read back as the seconds |
| Countdown.ClockRoundTrip | project/src/components/modern/ModernQuiz.tsx:93-97 | the `m:ss` display reads back as the number of seconds left, so no two clock values look the same |
| Countdown.FormatExamples | project/src/components/quiz/QuizPage.tsx:63-67 | five minutes read "5:00", 65 seconds read "1:05", none read "0:00" |
| ModernQuiz.UnlockDayOfMissionName | project/src/components/modern/ModernQuiz.tsx:62 | the mission name `J<n>` is read back as day `n`, for every integer `n` |
| ModernQuiz.CorrectCount | project/src/components/modern/ModernQuiz.tsx:116-118 | the score never exceeds the number of questions |
| ModernQuiz.CorrectCountIsMatching | project/src/components/modern/ModernQuiz.tsx:116-118 | the score is the number of positions whose selected answer is that question's correct answer |
| ModernQuiz.UnansweredNeverScores | project/src/components/modern/ModernQuiz.tsx:116-118 | while correct answers are option indices, the blank -1 never scores, so the score is at most the number of answered questions |
| ModernQuiz.BlankSheet | project/src/components/modern/ModernQuiz.tsx:85 | the sheet starts with one -1 per question |
| ModernQuiz.BlankSheetScoresZero | project/src/components/modern/ModernQuiz.tsx:85 | an untouched sheet scores nothing |
| ModernQuiz.AnswerKeyScoresAll | project/src/components/modern/ModernQuiz.tsx:116-118 | a sheet holding every correct answer scores every question |
| ModernQuiz.Percent | project/src/components/modern/ModernQuiz.tsx:138 | the percentage is defined exactly when there are questions, is never negative, and reaches 70 exactly when the ratio rule passes |
| ModernQuiz.SubmissionReport | project/src/components/modern/ModernQuiz.tsx:113-144 | a recorded completion reports the ratio verdict; a pass needs questions and seven tenths of them right; a failed completion call reports a fail with 0 |
| ModernQuiz.ResultsScreenAgrees | project/src/components/modern/ModernQuiz.tsx:168-173 | the results screen shows the verdict the recorded submission reported |
| ModernQuiz.QuizRun.constructor | project/src/components/modern/ModernQuiz.tsx:33-37 | the quiz opens on the first question with a blank sheet and 300 seconds on the clock |
| ModernQuiz.QuizRun.SelectAnswer | project/src/components/modern/ModernQuiz.tsx:99-103 | only the current question's slot takes the chosen option; every other slot and the cursor are unchanged |
| ModernQuiz.QuizRun.Next | project/src/components/modern/ModernQuiz.tsx:105-111 | with the button disabled on a blank answer (line 311), an answered question advances the cursor, or submits on the last question; the cursor stays within the list |
| ModernQuiz.QuizRun.Tick | project/src/components/modern/ModernQuiz.tsx:46-53 | a tick counts the clock down by one to 0 and signals the submission when it runs out; the submission the interval makes as written is `TimeoutSubmitAsWritten`, the intended one `Submit` (see Findings) |
| ModernQuiz.QuizRun.Submit | project/src/components/modern/ModernQuiz.tsx:113-144 | the button submission: without a user nothing happens; otherwise the results are shown with the report of the questions and the sheet as they stand |
| ModernQuiz.QuizRun.TimeoutSubmitAsWritten | project/src/components/modern/ModernQuiz.tsx:43-57 | the countdown's submission as written: without a user nothing happens; otherwise it reports on no questions and an empty sheet, a fail, with a `NaN` percentage once the completion is recorded |
| ModernQuiz.TimeoutIgnoresAnsweredSheet | project/src/components/modern/ModernQuiz.tsx:43-57 | a fully correct sheet passes by the button and on the results screen, while the report on no questions, which the countdown makes as written, is a fail with a `NaN` percentage |
| QuizPage.FindQuiz | project/src/components/quiz/QuizPage.tsx:19 | a found quiz is a built-in one whose id is `parseInt` of the route parameter (or of "0"); no quiz is found when none has that id |
| QuizPage.Guard | project/src/components/quiz/QuizPage.tsx:21-43 | the page leaves for the dashboard without a quiz or a user, for a passed quiz, and for a quiz whose unlock instant is not reached, in that order |
| QuizPage.GuardAgreesWithProgress | project/src/components/quiz/QuizPage.tsx:21-43 | the page stays open exactly on a quiz the progress card (QuizProgress.tsx:15-31) shows as available |
| QuizPage.SheetCorrect | project/src/components/quiz/QuizPage.tsx:84-86 | the score never exceeds the number of questions |
| QuizPage.EmptySheetScoresZero | project/src/components/quiz/QuizPage.tsx:15 | the initial empty sheet scores nothing |
| QuizPage.EmptySheetFails | project/src/components/quiz/QuizPage.tsx:88 | so an untouched quiz with questions is failed |
| QuizPage.Credit | project/src/components/quiz/QuizPage.tsx:90-101 | a pass adds the reward to quiz earnings, balance and withdrawable amount, appends the quiz id, and touches no other field |
| QuizPage.CreditKeepsDifferences | project/src/components/quiz/QuizPage.tsx:92-94 | a credit keeps balance minus quiz earnings and balance minus withdrawable amount |
| QuizPage.CreditKeepsLedger | project/src/components/quiz/QuizPage.tsx:90-101 | a credit of a non-negative reward keeps the balance equal to its sources and at least the withdrawable amount |
| QuizPage.CreditCompletes | project/src/components/quiz/QuizPage.tsx:97 | after the credit the progress card shows the quiz as completed, at any time |
| QuizPage.QuizSession.constructor | project/src/components/quiz/QuizPage.tsx:14-17 | the page opens on the first question with an empty sheet and 300 seconds |
| QuizPage.QuizSession.SelectAnswer | project/src/components/quiz/QuizPage.tsx:69-73 | only the current position takes the chosen option |
| QuizPage.QuizSession.Next | project/src/components/quiz/QuizPage.tsx:75-81 | with the button disabled on an unset answer (line 274), an answered question advances below the last and submits on the last |
| QuizPage.QuizSession.Tick | project/src/components/quiz/QuizPage.tsx:48-56 | a tick counts down by one to 0 and signals the submission when it runs out; the submission the interval makes as written is `TimeoutSubmitAsWritten`, the intended one `SubmitQuiz` (see Findings) |
| QuizPage.QuizSession.SubmitQuiz | project/src/components/quiz/QuizPage.tsx:83-111 | the verdict is the integer form of the ceiling rule; a pass credits the user when the update is saved, a fail changes nothing; the results screen shows the same verdict (for the button submission) |
| QuizPage.QuizSession.TimeoutSubmitAsWritten | project/src/components/quiz/QuizPage.tsx:45-59 | the countdown's submission as written scores the first render's empty sheet: the quiz is failed, the user is not credited, and the results are shown |
| QuizPage.AnswerKeyScoresAll | project/src/components/quiz/QuizPage.tsx:84-86 | a sheet with the correct option at every position scores every question |
| QuizPage.TimeoutIgnoresAnsweredSheet | project/src/components/quiz/QuizPage.tsx:45-59 | a fully correct sheet passes by the ceiling rule, which the results screen shows, while the empty sheet the countdown scores as written fails |
| Auth.AlphabetLayout | project/src/contexts/AuthContext.tsx:71 | the code alphabet has 36 characters, the capitals then the digits |
| Auth.CodeOf | project/src/contexts/AuthContext.tsx:73-75 | one code character per random draw |
| Auth.GenerateReferralCode | project/src/contexts/AuthContext.tsx:70-77 | the loop builds the code spelled by the eight draws, which is eight characters from `A`-`Z` and `0`-`9` |
| Auth.PositionOf | project/src/contexts/AuthContext.tsx:71 | every code character has a position in the alphabet |
| Auth.EveryCodeGenerable | project/src/contexts/AuthContext.tsx:70-77 | every eight-character code over the alphabet can come out of the generator |
| Auth.ClaimedIffHeld | project/src/contexts/AuthContext.tsx:237-243 | while codes are unique, the `maybeSingle` lookup finds a row exactly when some user holds the code |
| Auth.FindUnusedCode | project/src/contexts/AuthContext.tsx:231-253 | the retry loop makes between one and ten checks; every candidate it passed over is held; a code it returns is the last one checked and is free; it gives up exactly when the first ten candidates are all held |
| Auth.NewProfile | project/src/contexts/AuthContext.tsx:256-277 | the new row is pending, holds the generated code, a 15-euro welcome bonus as its whole balance, nothing withdrawable, three referral places, and no empty used code |
| Auth.NewProfileLedger | project/src/contexts/AuthContext.tsx:270-274 | a new profile's balance is the sum of its sources and bounds what may be withdrawn |
| Auth.LoginGate | project/src/contexts/AuthContext.tsx:130-166 | login is granted exactly to a signed-in account whose profile exists and is approved; an account signed in but refused is signed out again |
| Auth.OnlyApprovedLogIn | project/src/contexts/AuthContext.tsx:152-155 | pending and rejected accounts are refused and signed out |
| Auth.LowerCaseFixed | project/src/contexts/AuthContext.tsx:171 | lower-casing leaves an address without capitals unchanged |
| Auth.AdminCredentialsAccepted | project/src/contexts/AuthContext.tsx:168-176 | admin login succeeds exactly for the built-in address and password; an address off the admin list fails at once |
| Auth.AdminListIsNotEnough | project/src/contexts/AuthContext.tsx:64-67 | the support address on the admin list, and a re-cased admin address, can never log in |
| Auth.MockAdmin | project/src/contexts/AuthContext.tsx:178-198 | the admin user installed is approved with an empty, consistent ledger |
| Auth.LocalMatchesTable | project/src/contexts/AuthContext.tsx:334-357 | for updates with no empty string and none of the unmapped keys, the stored row and the local user end the same |
| Auth.EmptyNameDiverges | project/src/contexts/AuthContext.tsx:334 | an empty first name is not written to the table but does reach the local user |
| Auth.UpdatesIdempotent | project/src/contexts/AuthContext.tsx:327-361 | the same update applied twice is applied once, to the row and to the local user |
| Auth.EmptyUpdateChangesNothing | project/src/contexts/AuthContext.tsx:331-357 | an update with no keys changes neither the row nor the local user |
| Auth.AuthState.constructor | project/src/contexts/AuthContext.tsx:80-83 | the context starts with no user, no admin flag and no session over the given tables |
| Auth.AuthState.Register | project/src/contexts/AuthContext.tsx:213-325 | a rejected or user-less sign-up fails with its own error; any failure leaves both tables unchanged, and a duplicate e-mail is reported only when it is in use; the code search fails exactly when all ten candidates are taken, and the e-mail check fails exactly when a free code was found and the address is in use; registration succeeds exactly when the sign-up gave a new id, one of the ten candidates is free, the address is unused and the profile insert succeeds; success adds exactly one pending profile under that id, with the first free candidate as its code, adds one unpaid referral row exactly when the upper-cased used code names one user and its insert succeeds, and closes the session; a failure after the sign-up leaves the new account signed in, since the code throws without signing out |
| Auth.AuthState.Login | project/src/contexts/AuthContext.tsx:130-166 | success exactly as the login gate grants, installing that profile as a non-admin user; a refusal keeps the user and ends the session when the password sign-in succeeded |
| Auth.AuthState.AdminLogin | project/src/contexts/AuthContext.tsx:168-211 | only the built-in pair installs the mock admin user and the admin flag; nothing else changes |
| Auth.AuthState.UpdateUser | project/src/contexts/AuthContext.tsx:327-361 | nothing happens without a user or for the admin; a successful write updates the row through the table mapping and the local user with every supplied key; a failed write changes nothing |
| Auth.Holder | project/src/contexts/AuthContext.tsx:301-309 | the referrer found by the lookup holds the used code |
| Validators.AgeReachedOnBirthday | project/src/components/registration/steps/PersonalInfo.tsx:23-32 | the computed age reaches `n` exactly from the `n`-th birthday on |
| Validators.AgeMonotone | project/src/components/registration/steps/PersonalInfo.tsx:23-32 | the computed age never decreases as the current date moves forward |
| Validators.AgeExamples | project/src/components/registration/steps/PersonalInfo.tsx:26-29 | on the 18th birthday the age is 18; on the day before, and a month before, it is 17 |
| Validators.HasSome | project/src/components/registration/steps/PersonalInfo.tsx:37-40 | a one-character-class regex test holds exactly when some character is in the class |
| Validators.ValidatePassword | project/src/components/registration/steps/PersonalInfo.tsx:34-44 | each of the five requirements holds exactly when the password has eight characters, a capital, a small letter, a digit, a special character respectively |
| Validators.StrongPasswordExample | project/src/components/registration/steps/PersonalInfo.tsx:47 | `Passw0rd!` meets every requirement |
| Validators.WeakPasswordExamples | project/src/components/registration/steps/PersonalInfo.tsx:47 | a password without a digit, or without a special character, is refused |
| Validators.EmailLikeHasAtThenDot | project/src/components/registration/steps/PersonalInfo.tsx:68 | an address that passes the e-mail pattern has an `@` followed later by a `.` |
| Validators.EmailAcceptedExamples | project/src/components/registration/steps/PersonalInfo.tsx:68 | `a@b.c` passes, and the unanchored pattern lets surrounding text pass too |
| Validators.EmailRefusedExamples | project/src/components/registration/steps/PersonalInfo.tsx:68 | `a@b`, `a@.c` and `@b.c` are refused |
| Validators.FormatPhone | project/src/components/registration/steps/WhatsAppVerification.tsx:20-30 | a number with digits and no leading `+` becomes `+` and its digits; anything else is left as typed |
| Validators.DigitsOfAllDigits | project/src/components/registration/steps/WhatsAppVerification.tsx:22 | removing non-digits from a string of digits changes nothing |
| Validators.DigitsOfPlus | project/src/components/registration/steps/WhatsAppVerification.tsx:26 | the `+` the formatter adds is not a digit |
| Validators.FormatPhoneKeepsDigits | project/src/components/registration/steps/WhatsAppVerification.tsx:20-41 | formatting keeps the digits, so it never changes whether a number is valid |
| Validators.FormatPhoneIdempotent | project/src/components/registration/steps/WhatsAppVerification.tsx:32-34 | formatting a formatted number again changes nothing |
| Validators.NoDigitsInSpaces | project/src/components/registration/steps/WhatsAppVerification.tsx:49 | whitespace holds no digits |
| Validators.ValidPhoneNotBlank | project/src/components/registration/steps/WhatsAppVerification.tsx:49-57 | a valid number is never blank, so the blank check never refuses a valid number |
| Validators.PhoneExamples | project/src/components/registration/steps/WhatsAppVerification.tsx:20-30 | "49" becomes "+49", "+4 9" keeps its space, "ab" is left alone |
| Validators.TenDigitsValid | project/src/components/registration/steps/WhatsAppVerification.tsx:38-41 | ten digits are a valid number |
| Validators.NineDigitsInvalid | project/src/components/registration/steps/WhatsAppVerification.tsx:38-41 | nine are not |
| Validators.ReferralSubmit | project/src/components/registration/steps/ReferralCode.tsx:16-29 | skipping sends the empty code; a blank code sends nothing; otherwise the input is sent upper-cased, with no small letter left |
| Validators.ReferralNotTrimmed | project/src/components/registration/steps/ReferralCode.tsx:24-28 | the blank check trims, the sent code does not: " ab12 " is sent as " AB12 " |
| Validators.SampleCodeNotBlank | project/src/components/registration/steps/ReferralCode.tsx:24 | " ab12 " is not blank |
| Validators.SampleCodeUpper | project/src/components/registration/steps/ReferralCode.tsx:28 | " ab12 " upper-cases to " AB12 " |
| Validators.UploadLimitExamples | project/src/components/registration/steps/KYCVerification.tsx:152-161 | an image of exactly 10 MiB is accepted, one byte more is not, and a PDF never is |
| PersonalInfo.ValidateForm | project/src/components/registration/steps/PersonalInfo.tsx:49-86 | each failing field gets exactly one message, "required" before the format message; the form is passed on, unchanged, exactly when no message is recorded, which is exactly when every check passes |
| PersonalInfo.FieldCheck | project/src/components/registration/steps/PersonalInfo.tsx:66-75 | a field has no message exactly when it is present and well formed; a missing value gets the required message, a malformed one the format message |
| WhatsAppStep.HandleContinue | project/src/components/registration/steps/WhatsAppVerification.tsx:43-68 | the first failing check, in the order no WhatsApp, blank, invalid, unconfirmed, sets its message; the step proceeds exactly when all pass, handing on the number as typed |
| WhatsAppStep.ProceedIffValidAndConfirmed | project/src/components/registration/steps/WhatsAppVerification.tsx:43-68 | the step proceeds exactly when WhatsApp is declared, the number has 10 to 15 digits and the confirmation is given |
| WhatsAppStep.ProceedShowsConfirmation | project/src/components/registration/steps/WhatsAppVerification.tsx:161 | the step is passed only from a screen that showed the confirmation checkbox |
| WhatsAppStep.ShortNumberRefused | project/src/components/registration/steps/WhatsAppVerification.tsx:54-57 | a declared, confirmed nine-digit number is refused as invalid |
| KYC.AllPhotosIffEverySlot | project/src/components/registration/steps/KYCVerification.tsx:29-33 | the three-photo test holds exactly when every slot the step offers holds a photo |
| KYC.SubmitPhotos | project/src/components/registration/steps/KYCVerification.tsx:191-195 | the photo map is passed on, unchanged, exactly when all three photos are present |
| KYC.EnabledContinueSubmits | project/src/components/registration/steps/KYCVerification.tsx:365-366 | pressing an enabled Continue always passes the photos on |
| KYC.RemovalBlocksSubmit | project/src/components/registration/steps/KYCVerification.tsx:183-189 | removing one of the three photos makes the step refuse to continue |
| KYC.UploadCheck | project/src/components/registration/steps/KYCVerification.tsx:146-161 | without a file or a slot nothing happens; a non-image is refused before size is looked at; an image over 10 MiB is refused; otherwise the upload starts |
| KYC.Step.constructor | project/src/components/registration/steps/KYCVerification.tsx:19-23 | the step opens on the earlier photos, or none, with no camera, pending photo, error or upload |
| KYC.Step.StartCamera | project/src/components/registration/steps/KYCVerification.tsx:35-61 | the error is cleared and the camera opens on the slot when access is granted; otherwise the error is set and no camera is open; the photos are unchanged |
| KYC.Step.CapturePhoto | project/src/components/registration/steps/KYCVerification.tsx:71-86 | with an open camera and a drawable frame, the frame becomes the pending photo; otherwise nothing changes |
| KYC.Step.ConfirmPhoto | project/src/components/registration/steps/KYCVerification.tsx:88-95 | a non-empty pending photo is stored under the open slot and both the pending photo and the camera are cleared; otherwise nothing changes |
| KYC.Step.RetakePhoto | project/src/components/registration/steps/KYCVerification.tsx:97-99 | only the pending photo is dropped; the camera stays open |
| KYC.Step.CancelCapture | project/src/components/registration/steps/KYCVerification.tsx:249 | the camera closes and nothing else changes |
| KYC.Step.RemovePhoto | project/src/components/registration/steps/KYCVerification.tsx:183-189 | the slot is emptied and every other slot is kept |
| KYC.Step.BeginUpload | project/src/components/registration/steps/KYCVerification.tsx:146-163 | a file that passes the checks marks its slot as uploading; a refused one changes nothing |
| KYC.Step.FinishUpload | project/src/components/registration/steps/KYCVerification.tsx:165-173 | the compressed image is stored under the uploading slot, nothing is stored when compression failed, and the uploading mark is cleared either way |
| KYC.Step.Continue | project/src/components/registration/steps/KYCVerification.tsx:191-195 | the photos are passed on, as they are, exactly when the button is enabled: all three present and no upload running |
| Contract.AtBottomMeansNearEnd | project/src/components/registration/steps/ContractSignature.tsx:77 | the bottom test holds exactly when the lower edge of the window is within ten pixels of the end of the text |
| Contract.Step.constructor | project/src/components/registration/steps/ContractSignature.tsx:13-15 | the step opens unread, with the acceptance carried over from earlier data |
| Contract.Step.HandleScroll | project/src/components/registration/steps/ContractSignature.tsx:75-83 | the contract becomes read exactly when it was read already or the window reaches the bottom; reading is never undone and acceptance is untouched |
| Contract.Step.ChangeAcceptance | project/src/components/registration/steps/ContractSignature.tsx:85-87 | with the checkbox disabled until the contract is read (line 178), a tick counts only once it is read; acceptance given this way always follows reading |
| Contract.Step.Submit | project/src/components/registration/steps/ContractSignature.tsx:89-93 | the step hands on `contractAccepted: true` exactly when the contract is both read and accepted |
| Contract.UnreadContractRefused | project/src/components/registration/steps/ContractSignature.tsx:178-193 | from a fresh step, whatever is ticked, Submit refuses until the bottom has been reached |
| Contract.ReadAndAcceptCompletes | project/src/components/registration/steps/ContractSignature.tsx:75-93 | scrolling to the bottom and ticking the box completes the step |
| RegistrationFlow.Merge | project/src/components/registration/RegistrationFlow.tsx:47 | every key the step hands on overrides the form data, and every key it does not hold is kept |
| RegistrationFlow.MergeNothing | project/src/components/registration/RegistrationFlow.tsx:47 | a step that hands on no keys changes nothing |
| RegistrationFlow.MergeIdempotent | project/src/components/registration/RegistrationFlow.tsx:47 | handing on the same data twice is the same as once |
| RegistrationFlow.LaterKeysWin | project/src/components/registration/RegistrationFlow.tsx:47-52 | a later step wins on a key both hold, a key only the earlier one holds survives, and two merges are one merge of the combined data |
| RegistrationFlow.Submission | project/src/components/registration/RegistrationFlow.tsx:64-70 | `register` receives the merged data with the used code taken from the referral code and the signature from the contract acceptance |
| RegistrationFlow.RunCarriesStepData | project/src/components/registration/RegistrationFlow.tsx:46-70 | after the five steps, `register` receives each step's own data and a signed contract |
| RegistrationFlow.SkippedReferralIsNotLookedUp | project/src/components/registration/RegistrationFlow.tsx:64-70 | a skipped referral step hands on the empty code, which `register` neither stores (AuthContext.tsx:266) nor looks up (line 292) |
| RegistrationFlow.Flow.constructor | project/src/components/registration/RegistrationFlow.tsx:17-34 | the flow opens on step 1 with the initial form data, not completed |
| RegistrationFlow.Flow.Next | project/src/components/registration/RegistrationFlow.tsx:46-75 | the step's data is merged in; below step 5 the cursor advances; at step 5 exactly the merged data is submitted, and the flow completes when `register` returns |
| RegistrationFlow.Flow.Back | project/src/components/registration/RegistrationFlow.tsx:56-62 | one step back, or leave the flow exactly from step 1; the data is kept |
| ModernRegistration.PersonalValidProceeds | project/src/components/modern/ModernRegistration.tsx:120-130 | whatever the legacy personal step (PersonalInfo.tsx:49-79) accepts lets the wizard's first step proceed |
| ModernRegistration.BlankNamesProceed | project/src/components/modern/ModernRegistration.tsx:123 | the wizard tests only for empty fields: names of spaces and an address without `@` pass its first step, which the legacy step refuses |
| ModernRegistration.ShortNumberProceeds | project/src/components/modern/ModernRegistration.tsx:136 | step 4 does not count digits: a three-digit number proceeds, while the legacy WhatsApp step refuses it even when confirmed |
| ModernRegistration.ModernSubmission | project/src/components/modern/ModernRegistration.tsx:88-98 | the wizard sends no used code exactly when the referral code is empty, and otherwise the same fields as the legacy flow |
| ModernRegistration.SubmissionsAgreeOnReferral | project/src/components/modern/ModernRegistration.tsx:95 | the two flows lead `register` to store the same used code and to make the same lookup |
| ModernRegistration.ErrorMessage | project/src/components/modern/ModernRegistration.tsx:106-117 | a thrown message mentioning "already registered" is shown as it is; otherwise the database's duplicate-e-mail message is shown as the friendly text and anything else as the generic text |
| ModernRegistration.NoMatchWithout | project/src/components/modern/ModernRegistration.tsx:110 | a text lacking some character of the phrase cannot contain the phrase |
| ModernRegistration.EmailTakenShown | project/src/contexts/AuthContext.tsx:281-283 | the duplicate-e-mail error `register` throws is shown verbatim, since it says "already registered" |
| ModernRegistration.MentionsAlreadyRegistered | project/src/contexts/AuthContext.tsx:282 | that error's text contains "already registered" |
| ModernRegistration.InternalFailuresGeneric | project/src/contexts/AuthContext.tsx:226-253 | a missing account and a code search that gave up are shown with the generic text |
| ModernRegistration.WithoutTriggerLetterGeneric | project/src/components/modern/ModernRegistration.tsx:110-116 | a thrown message without the letter y contains neither "already registered" nor the unique-constraint text, so the generic failure text is shown |
| ModernRegistration.Wizard.constructor | project/src/components/modern/ModernRegistration.tsx:14-17 | the wizard opens on step 1 with the initial form, no error, not completed |
| ModernRegistration.Wizard.Edit | project/src/components/modern/ModernRegistration.tsx:413-418 | an input handler merges its keys into the form and changes nothing else |
| ModernRegistration.Wizard.Continue | project/src/components/modern/ModernRegistration.tsx:66-118 | a disabled button (line 369) changes nothing; an enabled one advances below step 5 and at step 5 submits the form with the contract accepted; the wizard completes exactly on a `true` result, a `false` result shows the generic text and a thrown error its classified message |
| ModernRegistration.Wizard.Back | project/src/components/modern/ModernRegistration.tsx:76-82 | one step back, or leave exactly from step 1; form, error and completion are kept |
| Withdrawal.RemoveSpaces | project/src/components/withdrawal/WithdrawalPage.tsx:69 | `replace(/\s/g, '')` leaves no whitespace and never more characters than it was given |
| Withdrawal.RemoveSpacesKept | project/src/components/withdrawal/WithdrawalPage.tsx:69 | every character but whitespace is kept, in order and as often as it occurs: the result is the subsequence of the input's non-space characters |
| Withdrawal.RemoveSpacesOfSpaceFree | project/src/components/withdrawal/WithdrawalPage.tsx:69 | removing whitespace from text without any changes nothing |
| Withdrawal.UpperKeepsSpaceFree | project/src/components/withdrawal/WithdrawalPage.tsx:69 | upper-casing never creates whitespace |
| Withdrawal.NormalizedIsUpper | project/src/components/withdrawal/WithdrawalPage.tsx:129-130 | a normalised IBAN or BIC holds no small letter |
| Withdrawal.NormalizeIdempotent | project/src/components/withdrawal/WithdrawalPage.tsx:129-130 | normalising twice is normalising once |
| Withdrawal.NormalizeKeepsValidity | project/src/components/withdrawal/WithdrawalPage.tsx:68-76 | storing the normalised IBAN and BIC keeps a valid pair valid and an invalid one invalid |
| Withdrawal.ValidLengths | project/src/components/withdrawal/WithdrawalPage.tsx:68-76 | a valid IBAN has 15 to 34 characters once normalised, a valid BIC 8 or 11 |
| Withdrawal.BicExamples | project/src/components/withdrawal/WithdrawalPage.tsx:73-76 | an eight-letter bank code is a valid BIC even typed in small letters; seven letters are not |
| Withdrawal.LowerBic | project/src/components/withdrawal/WithdrawalPage.tsx:74-75 | "deutdeff" normalises to a BIC of the right shape |
| Withdrawal.Submit | project/src/components/withdrawal/WithdrawalPage.tsx:78-137 | each field gets at most one message, "required" before "invalid" and below-the-minimum before above-the-balance; the details are handed to `updateUser` exactly when no message is recorded, which is exactly when the form is valid, then with the amount between 50 euros and the withdrawable amount and the IBAN and BIC normalised |
| Withdrawal.NothingPassesBelowThreshold | project/src/components/withdrawal/WithdrawalPage.tsx:27-29 | with less than 50 euros withdrawable no form can pass |
| Withdrawal.AmountInput | project/src/components/withdrawal/WithdrawalPage.tsx:110-111 | an amount that is not a number becomes 0, any other is taken as it is |
| Withdrawal.InitialForm | project/src/components/withdrawal/WithdrawalPage.tsx:14-19 | the form opens on the holder of the user object's withdrawal details when there is one and on the trimmed full name otherwise, on their IBAN and BIC when the user object carries details and on empty bank fields without them, and on the whole withdrawable amount |
| Withdrawal.InitialAmount | project/src/components/modern/ModernWithdrawal.tsx:22 | the modern page opens on at most the balance and at most 50 euros, and on exactly 50 euros when a withdrawal is possible |
| Withdrawal.Payload | project/src/components/modern/ModernWithdrawal.tsx:45-51 | the inserted row carries the user, amount and holder as entered and the IBAN and BIC normalised, free of whitespace and small letters |
| Withdrawal.ModernSubmit | project/src/components/modern/ModernWithdrawal.tsx:37-62 | a row is sent exactly when there is a user, and the page shows "submitted" exactly when there is a user and the insert succeeds |
| Withdrawal.ModernSendsUncheckedIban | project/src/components/modern/ModernWithdrawal.tsx:37-51 | the modern page tests no IBAN or BIC shape: a request with IBAN "x" is accepted by the browser and inserted |
| Withdrawal.BrowserBoundsMatchForm | project/src/components/modern/ModernWithdrawal.tsx:183-187 | what the browser's amount constraints let through lies between 50 euros and the balance, as the legacy form demands |
| Withdrawal.Shortfall | project/src/components/dashboard/EarningsOverview.tsx:92 | below the threshold the amount still needed is positive and makes up exactly 50 euros with what is withdrawable |
| Withdrawal.OverviewAgreesWithForm | project/src/components/dashboard/EarningsOverview.tsx:14 | the overview's button is enabled exactly when a withdrawal is possible, and then leads to a form that a valid entry passes |
| Withdrawal.SampleFormValid | project/src/components/withdrawal/WithdrawalPage.tsx:78-105 | an entry with a well-formed IBAN and BIC and 50 euros passes whenever 50 euros are withdrawable |
| Withdrawal.UpperAlnumNormalized | project/src/components/withdrawal/WithdrawalPage.tsx:69 | text of capitals and digits is already normalised and, when not empty, not blank |
| Withdrawal.IbanChars | project/src/components/withdrawal/WithdrawalPage.tsx:70 | the sample IBAN has 22 characters, two capitals then two digits |
| Withdrawal.SampleIban | project/src/components/withdrawal/WithdrawalPage.tsx:68-71 | the sample IBAN is present and valid |
| Withdrawal.BicChars | project/src/components/withdrawal/WithdrawalPage.tsx:75 | the sample BIC has eight characters, the first six capitals |
| Withdrawal.SampleBic | project/src/components/withdrawal/WithdrawalPage.tsx:73-76 | the sample BIC is present and valid |
| Withdrawal.SampleHolder | project/src/components/withdrawal/WithdrawalPage.tsx:81 | a one-letter holder name is not blank |
| Referral.ProgressWidth | project/src/components/dashboard/ReferralSection.tsx:88 | the bar's width lies within 0..100, is full exactly when the count reaches the cap, and below that is the count's share of the cap |
| Referral.CardFor | project/src/components/dashboard/ReferralSection.tsx:12-17 | there is a card exactly when there is a user; it shows the user's referral count against the cap and a link ending in the user's code; the limit panel replaces the share actions exactly when no more referrals are allowed (line 95); the bar is drawn exactly for a positive cap (line 79) |
| Referral.SectionFor | project/src/components/dashboard/ReferralSection.tsx:16 | the cap applied is the platform setting, not the user's own field |
| Referral.ZeroCapIsUnlimited | project/src/components/dashboard/ReferralSection.tsx:17 | with a cap of 0 every user can refer, sees the share actions and no bar |
| Referral.FullBarIffLimitReached | project/src/components/dashboard/ReferralSection.tsx:17-88 | under a positive cap, the bar is full exactly when referring is no longer possible |
| Referral.CapIsGlobal | project/src/components/dashboard/ReferralSection.tsx:16 | changing the user's own `maxReferrals` changes nothing on the card |
| Referral.FixtureCapExamples | project/src/data/mockData.ts:231 | under the platform cap of 3, the demonstration user with two referrals may still refer, and a third referral reaches the limit |
| Fixtures.UniformRewardTotal | project/src/data/mockData.ts:101-213 | quizzes that share one reward pay it once per quiz |
| Fixtures.QuizSchedule | project/src/data/mockData.ts:101-213 | there are seven built-in quizzes with ids and unlock days 1 to 7 in order, each paying the platform quiz reward (line 233) |
| Fixtures.QuizTotal | project/src/components/dashboard/QuizProgress.tsx:147 | the seven quizzes together pay 50.05 euros, the total the progress card promises |
| Fixtures.AnswersAreOptionIndices | project/src/data/mockData.ts:101-213 | every correct answer is an index into its question's options |
| Fixtures.FixtureLedgers | project/src/data/mockData.ts:3-99 | every demonstration user's balance is the sum of its sources and bounds the withdrawable amount |
| Fixtures.FixtureEarnings | project/src/data/mockData.ts:3-99 | quiz earnings are the quiz reward once per passed quiz; approved users may withdraw their whole balance; the pending user has nothing |
| Fixtures.FixtureMissions | project/src/data/mockData.ts:3-99 | exactly the user who passed seven quizzes has the missions flag, and that user's progress bar is full |
| AdminTables.Filtered | project/src/components/admin/UserManagement.tsx:55-58 | the 'all' tab shows the list as it is; a status tab shows exactly the rows with that status, as many as its count, in list order |
| AdminTables.SubsequenceOfItself | project/src/components/admin/UserManagement.tsx:56 | the 'all' tab keeps every row in place |
| AdminTables.RowsOf | project/src/components/admin/UserManagement.tsx:41-47 | a fetch lists one row per listed id, each the table's row under that id, and so exactly the rows of the table |
| AdminTables.NewestFirstKeepsStamps | project/src/components/admin/UserManagement.tsx:79-86 | an update that changes only existing rows and leaves their time stamps alone keeps the earlier newest-first order the answer to the same query |
| AdminTables.NewestFirstRows | project/src/components/admin/UserManagement.tsx:41-44 | the rows of a newest-first listing are in descending stamp order, one per row of the table |
| AdminTables.FilteredKeepsDescending | project/src/components/admin/UserManagement.tsx:55-58 | a status tab of a newest-first list is newest first |
| AdminTables.SubsequenceKeepsDescending | project/src/components/admin/UserManagement.tsx:55-58 | dropping rows from a list in stamp order leaves a list in stamp order |
| AdminTables.SubsequenceMembers | project/src/components/admin/UserManagement.tsx:55-58 | a row of a filtered list is a row of the list |
| UserManagement.TabCountsAddUp | project/src/components/admin/UserManagement.tsx:119-121 | the pending, approved and rejected counts add up to the whole list |
| UserManagement.Reject | project/src/components/admin/UserManagement.tsx:79-82 | rejecting writes the status and nothing else, so the ledger is untouched and the account no longer offers the review buttons (line 327) |
| UserManagement.Console.Shown | project/src/components/admin/UserManagement.tsx:55-58 | the list shown is the whole list on the 'all' tab, and exactly the rows with the tab's status otherwise |
| UserManagement.Console.constructor | project/src/components/admin/UserManagement.tsx:29-32 | the console opens on the 'all' tab with nothing listed or selected |
| UserManagement.Console.Fetch | project/src/components/admin/UserManagement.tsx:38-53 | a successful fetch lists the whole table, exactly its rows, each once, newest first by `created_at`; a query error keeps the old list |
| UserManagement.Console.SetFilter | project/src/components/admin/UserManagement.tsx:125 | a tab click changes the tab and nothing else |
| UserManagement.Console.Select | project/src/components/admin/UserManagement.tsx:202-233 | the eye button opens a row's detail view and the close button clears it; nothing else changes |
| UserManagement.Console.RejectUser | project/src/components/admin/UserManagement.tsx:77-93 | a successful update rejects the row with that id, and only it; the list is fetched again and the detail view closes, and a refetched rejected row no longer offers the review buttons; an update error changes nothing; the same newest-first order answers the refetch, since no time stamp changes |
| UserManagement.Console.ApproveUser | project/src/components/admin/UserManagement.tsx:60-75 | on success the table is the one the database function leaves, the list is fetched again newest first and the detail view closes; an error changes nothing |
| WithdrawalManagement.TabCountsAddUp | project/src/components/admin/WithdrawalManagement.tsx:99-101 | the pending, approved and rejected counts add up to the whole list |
| WithdrawalManagement.Decide | project/src/components/admin/WithdrawalManagement.tsx:62-69 | a decision writes the new status, the notes when given, and the processing instant; amount, bank details and owner are untouched, and the request no longer offers the buttons (lines 198, 288) |
| WithdrawalManagement.Console.Shown | project/src/components/admin/WithdrawalManagement.tsx:55-58 | the whole list on the 'all' tab, exactly the rows with the tab's status otherwise |
| WithdrawalManagement.Console.constructor | project/src/components/admin/WithdrawalManagement.tsx:26-29 | the console opens on the 'all' tab with nothing listed or selected |
| WithdrawalManagement.Console.Fetch | project/src/components/admin/WithdrawalManagement.tsx:35-53 | a successful fetch lists exactly the table's rows, each once, newest first by `requested_at`; an error keeps the old list |
| WithdrawalManagement.Console.SetFilter | project/src/components/admin/WithdrawalManagement.tsx:105 | a tab click changes the tab and nothing else |
| WithdrawalManagement.Console.Select | project/src/components/admin/WithdrawalManagement.tsx:191-232 | opening or closing the detail view changes nothing else |
| WithdrawalManagement.Console.ProcessWithdrawal | project/src/components/admin/WithdrawalManagement.tsx:60-80 | a successful update decides the row with that id, and only it, which then holds the new status and offers no buttons; the list is fetched again and the detail view closes; an update error changes nothing; no balance is touched; the same newest-first order answers the refetch, since no time stamp changes |
| AppointmentManagement.TabCountsAddUp | project/src/components/admin/AppointmentManagement.tsx:105-107 | the pending, confirmed and cancelled counts add up to the whole list |
| AppointmentManagement.Decide | project/src/components/admin/AppointmentManagement.tsx:61-68 | a decision writes the new status, the notes when given, and the update instant; date, time and message are untouched, and the appointment no longer offers the buttons (lines 159, 267) |
| AppointmentManagement.Console.Shown | project/src/components/admin/AppointmentManagement.tsx:54-57 | the whole list on the 'all' tab, exactly the rows with the tab's status otherwise |
| AppointmentManagement.Console.constructor | project/src/components/admin/AppointmentManagement.tsx:25-28 | the console opens on the 'all' tab with nothing listed or selected |
| AppointmentManagement.Console.Fetch | project/src/components/admin/AppointmentManagement.tsx:34-52 | a successful fetch lists exactly the table's rows, each once, newest first by `created_at`; an error keeps the old list |
| AppointmentManagement.Console.SetFilter | project/src/components/admin/AppointmentManagement.tsx:111 | a tab click changes the tab and nothing else |
| AppointmentManagement.Console.Select | project/src/components/admin/AppointmentManagement.tsx:182-213 | opening or closing the detail view changes nothing else |
| AppointmentManagement.Console.UpdateAppointment | project/src/components/admin/AppointmentManagement.tsx:59-79 | a successful update decides the row with that id, and only it, which then holds the new status and offers no buttons; the list is fetched again and the detail view closes; an update error changes nothing; the same newest-first order answers the refetch, since no time stamp changes |
| AdminDashboard.Recent | project/src/components/admin/AdminDashboard.tsx:93-97 | the recent list is a prefix of the rows, five long or the whole list when shorter |
| AdminDashboard.RecentAreNewest | project/src/components/admin/AdminDashboard.tsx:93-97 | the first five of a list in stamp order are in stamp order, and no row left out is later than a row kept |
| AdminDashboard.RecentListsAreNewest | project/src/components/admin/AdminDashboard.tsx:54-97 | with the users sorted by `created_at` and the requests by `requested_at`, both descending, the dashboard's two recent lists are the five newest users and the five newest requests |
| AdminDashboard.SizeOf | project/src/components/admin/AdminDashboard.tsx:89-90 | a query result counts its rows, and a failed query counts 0 |
| AdminDashboard.Fetch | project/src/components/admin/AdminDashboard.tsx:50-98 | with the users result, the statistics count all, pending and approved accounts, sum their balances, count the pending withdrawal requests (0 when that query failed), the pending appointments and the quizzes, and the recent users are the first five; without it the statistics and recent users stay as they were; the recent requests are the first five whenever that query answered |
| AdminDashboard.PendingAndApprovedWithinTotal | project/src/components/admin/AdminDashboard.tsx:77-79 | pending plus approved accounts never exceed the total |
| AdminDashboard.EarningsByStatus | project/src/components/admin/AdminDashboard.tsx:80 | the total earnings are exactly the sum of the pending, approved and rejected accounts' totals |
| AdminDashboard.FilteredEarningsStep | project/src/components/admin/AdminDashboard.tsx:80 | the total over one status grows by the first account's balance exactly when that account has the status |
| AdminDashboard.EarningsNonNegative | project/src/components/admin/AdminDashboard.tsx:80 | without negative balances the total earnings shown are never negative |
| AdminDashboard.AlertIffSomethingPending | project/src/components/admin/AdminDashboard.tsx:210 | the "Action Required" banner appears if and only if some account, withdrawal request or appointment is pending |
| AdminSettings.KeysOfDefaults | project/src/components/admin/AdminSettings.tsx:8-29 | the defaults hold exactly the eight keys of the settings form |
| AdminSettings.Decode | project/src/components/admin/AdminSettings.tsx:55-61 | a stored string becomes what it parses to, or stays the raw text when parsing throws; a non-string value is kept as is |
| AdminSettings.CollectHasKey | project/src/components/admin/AdminSettings.tsx:53-62 | a key is in the fetched map if and only if some fetched row has it |
| AdminSettings.CollectHasLastRow | project/src/components/admin/AdminSettings.tsx:53-62 | a fetched key holds the decoded value of the last row with that key |
| AdminSettings.Merge | project/src/components/admin/AdminSettings.tsx:64 | the merged settings have the keys of both; fetched keys override and every other key keeps its value |
| AdminSettings.MergeLaws | project/src/components/admin/AdminSettings.tsx:64 | merging nothing changes nothing, and merging the same fetch twice is merging it once |
| AdminSettings.UnparsableKeptRaw | project/src/components/admin/AdminSettings.tsx:56-60 | a stored text that does not parse reaches the form unchanged |
| AdminSettings.Coerce | project/src/components/admin/AdminSettings.tsx:100-101 | a number input stores its parsed value, or 0 when it does not parse; a checkbox stores its checked state; other inputs store their text |
| AdminSettings.Updates | project/src/components/admin/AdminSettings.tsx:109-112 | one upsert per key, in the key order, each carrying that key's current value |
| AdminSettings.Page.constructor | project/src/components/admin/AdminSettings.tsx:20-30 | the page starts from the defaults (3 referrals, 50 minimum withdrawal, 7.15 per quiz, 20 per referral, 15 welcome bonus, appointments on) with no "saved" notice |
| AdminSettings.Page.Fetch | project/src/components/admin/AdminSettings.tsx:45-70 | a successful read lays the collected rows over the current settings; a failed read keeps them; every form key keeps a value |
| AdminSettings.Page.InputChange | project/src/components/admin/AdminSettings.tsx:96-103 | only the edited key changes, to the coerced input value; every other key is untouched |
| AdminSettings.Page.Save | project/src/components/admin/AdminSettings.tsx:105-130 | the settings are untouched; when every upsert is accepted one upsert per key is sent, in key order, every key of the form among them, and "saved" is raised; otherwise the sending stops right after the first rejected upsert and the notice stays as it was |
| AdminSettings.TotalQuizEarnings | project/src/components/admin/AdminSettings.tsx:370 | the quiz earnings shown are seven times the quiz reward |
| AdminSettings.MaximumBaseEarnings | project/src/components/admin/AdminSettings.tsx:376 | the maximum base earnings are the welcome bonus plus the seven quiz rewards |
| AdminSettings.DefaultSummary | project/src/components/admin/AdminSettings.tsx:20-29 | with the defaults the summary reads 50.05 and 65.05 euros, and each default equals the demonstration platform settings (project/src/data/mockData.ts:230-233) converted from cents |
| QuizManagement.FormFor | project/src/components/admin/QuizManagement.tsx:253-259 | a new quiz opens with empty texts, the 7.15 reward, day 1 and active; an edited quiz keeps its texts and its active flag (false included), and its reward and unlock day unless they are 0, so the form never shows a zero reward or day |
| QuizManagement.ChangeQuizForm | project/src/components/admin/QuizManagement.tsx:294-300 | only the edited field changes; a number that does not parse becomes 0 |
| QuizManagement.SaveQuiz | project/src/components/admin/QuizManagement.tsx:262-282 | saving an edited quiz overwrites its row with every form field and touches no other row; saving a new quiz adds exactly one row under the new id |
| QuizManagement.SaveUntouchedQuiz | project/src/components/admin/QuizManagement.tsx:253-273 | opening a quiz and saving it untouched rewrites it unchanged, except that a zero reward or unlock day becomes its default, and reopening it shows the same form |
| QuizManagement.Toggle | project/src/components/admin/QuizManagement.tsx:92-97 | the row gets the negation of the status the card showed; no other row changes |
| QuizManagement.ToggleLaws | project/src/components/admin/QuizManagement.tsx:92-97 | toggling from the stored status flips it, toggling twice restores the table, and a toggle from a stale status writes the row back as it was |
| QuizManagement.SomeBlank | project/src/components/admin/QuizManagement.tsx:557 | true exactly when some option is empty after trimming |
| QuizManagement.Validate | project/src/components/admin/QuizManagement.tsx:552-560 | a blank question is reported first; otherwise a blank option is reported; the form is ready exactly when the question and every option are non-blank |
| QuizManagement.TopOrderIndex | project/src/components/admin/QuizManagement.tsx:566-571 | the descending query limited to one row returns nothing for a quiz without questions, and otherwise one index that is the largest of the quiz's indices |
| QuizManagement.MaxOf | project/src/components/admin/QuizManagement.tsx:570 | the largest index is one of the indices and no index exceeds it |
| QuizManagement.NextOrderIndexAboveAll | project/src/components/admin/QuizManagement.tsx:573-575 | a new question goes one past the current highest index, so above every existing one, or at 1 when the quiz has none or the query failed |
| QuizManagement.Submit | project/src/components/admin/QuizManagement.tsx:548-585 | an invalid form raises the alert of its first failed check and stores nothing; a valid one inserts the question, options and answer as typed under the quiz with the next order index |
| QuizManagement.StoredQuestionIsComplete | project/src/components/admin/QuizManagement.tsx:552-585 | every inserted question has non-blank text and options and an index above the quiz's existing questions |
| QuizManagement.EmptyFormRefused | project/src/components/admin/QuizManagement.tsx:541-555 | the form as it opens is refused with "Please enter a question" |
| QuizManagement.QuestionEditor.constructor | project/src/components/admin/QuizManagement.tsx:541-545 | the question form opens with an empty question, four empty options and the first option chosen |
| QuizManagement.QuestionEditor.QuestionChange | project/src/components/admin/QuizManagement.tsx:619 | typing changes the question text only |
| QuizManagement.QuestionEditor.OptionChange | project/src/components/admin/QuizManagement.tsx:599-603 | only option `index` takes the new text; there are still four options and the question and chosen answer are kept |
| QuizManagement.QuestionEditor.SelectCorrect | project/src/components/admin/QuizManagement.tsx:633-637 | the radio button makes that option the answer and changes nothing else |
| AdminManagement.NameOr | project/src/components/admin/AdminManagement.tsx:54-55 | a present, non-empty name is kept; a missing or empty one gives the fallback |
| AdminManagement.AdminOf | project/src/components/admin/AdminManagement.tsx:51-58 | an administrator keeps the row's id, email and dates; a missing first name reads "Admin" and a missing last name "User", so neither is ever empty |
| AdminManagement.FetchAdmins | project/src/components/admin/AdminManagement.tsx:28-61 | a failed read shows the single demonstration entry of the primary administrator; a successful one shows one administrator per row, in order |
| AdminManagement.PrimaryAdminKept | project/src/components/admin/AdminManagement.tsx:164 | no row of admin@trustmission.com offers removal, and after a failed read no row does |
| AdminManagement.CheckPassword | project/src/components/admin/AdminManagement.tsx:383-394 | a mismatch with the confirmation is reported first; otherwise a password under 8 characters is refused; it is accepted exactly when both checks pass |
| AdminManagement.PasswordCheckOrder | project/src/components/admin/AdminManagement.tsx:386-400 | a mismatch is reported with its own alert even for a short password, a matching password under eight characters gets the length alert, an accepted one the alert naming the administrator's e-mail, and the current password never changes the outcome |
| Notifications.MarkRead | project/src/hooks/useNotifications.ts:50-52 | the list keeps its length; exactly the notifications with that id become read and the rest are unchanged |
| Notifications.MarkAllRead | project/src/hooks/useNotifications.ts:71 | the list keeps its length and every notification becomes read, with nothing else changed |
| Notifications.AllReadNothingUnread | project/src/hooks/useNotifications.ts:71-72 | a list with every notification read has 0 unread, so the counter of 0 matches it |
| Notifications.UnreadAfterMarkRead | project/src/hooks/useNotifications.ts:50-53 | with distinct ids, marking an unread notification lowers the unread number by exactly one, and marking an id with no unread notification leaves it unchanged |
| Notifications.CounterDriftsOnReadTarget | project/src/hooks/useNotifications.ts:53 | marking an already read notification still lowers the counter, which then disagrees with the list |
| Notifications.Hook.constructor | project/src/hooks/useNotifications.ts:15-17 | the hook starts with no notifications, a counter of 0 and loading |
| Notifications.Hook.Fetch | project/src/hooks/useNotifications.ts:20-39 | without a user, or with an empty user id (`!user?.id`), nothing changes; with one, a successful read replaces the list and sets the counter to its unread number, a failed read keeps both, and loading ends either way |
| Notifications.Hook.MarkAsRead | project/src/hooks/useNotifications.ts:41-57 | a successful update marks that id read and lowers the counter by one but never below 0, whether or not a user is signed in; a failed one changes nothing; the counter stays in step when the target was unread and ids are distinct |
| Notifications.Hook.MarkAllAsRead | project/src/hooks/useNotifications.ts:59-76 | with a user whose id is not empty and a successful update every notification is read and the counter is 0, in step with the list; otherwise nothing changes |
| Notifications.Hook.Prepend | project/src/hooks/useNotifications.ts:78-104 | with a user whose id is not empty, a created or pushed notification goes first and the counter grows by one, staying in step when the new one is unread; without such a user or without a row nothing changes (realtime handler at lines 110-125) |
| ModernApp.BackOf | project/src/components/modern/ModernApp.tsx:63-71 | mission, withdrawal and referral go back to the dashboard, the quiz to its mission, registration and the enterprise page to sign-in; sign-in and the dashboard stay |
| ModernApp.BackReachesHome | project/src/components/modern/ModernApp.tsx:63-71 | two back actions always reach sign-in or the dashboard and a third changes nothing; a back action stays put exactly on those two pages |
| ModernApp.Render | project/src/components/modern/ModernApp.tsx:90-174 | every page gets its own screen: the mission and quiz pages get the chosen mission, the withdrawal page the withdrawable amount or 0 without a user; sign-in, registration, dashboard, referral and enterprise pages get their screens with handlers only |
| ModernApp.RenderDistinguishesPages | project/src/components/modern/ModernApp.tsx:90-174 | no two pages render the same screen |
| ModernApp.App.constructor | project/src/components/modern/ModernApp.tsx:14-15 | the app opens on sign-in with mission J1 |
| ModernApp.App.Login | project/src/components/modern/ModernApp.tsx:18-21 | signing in shows the dashboard and keeps the mission |
| ModernApp.App.Logout | project/src/components/modern/ModernApp.tsx:23-25 | signing out shows sign-in and keeps the mission |
| ModernApp.App.RegisterStart | project/src/components/modern/ModernApp.tsx:27-29 | registration opens and the mission is kept |
| ModernApp.App.RegistrationComplete | project/src/components/modern/ModernApp.tsx:31-33 | a finished registration returns to sign-in, not to the dashboard |
| ModernApp.App.MissionClick | project/src/components/modern/ModernApp.tsx:35-38 | the clicked mission is recorded and its page opens |
| ModernApp.App.StartQuiz | project/src/components/modern/ModernApp.tsx:40-42 | the quiz of the chosen mission opens |
| ModernApp.App.QuizTimerFired | project/src/components/modern/ModernApp.tsx:44-49 | when the timer set after a quiz fires, the dashboard is shown |
| ModernApp.App.WithdrawClick | project/src/components/modern/ModernApp.tsx:51-53 | the withdrawal page opens and the mission is kept |
| ModernApp.App.SponsorClick | project/src/components/modern/ModernApp.tsx:55-57 | the referral page opens and the mission is kept |
| ModernApp.App.EnterpriseClick | project/src/components/modern/ModernApp.tsx:59-61 | the enterprise page opens and the mission is kept |
| ModernApp.App.Back | project/src/components/modern/ModernApp.tsx:63-71 | the page becomes the back target of the page before, and the mission is kept |
| ModernApp.App.Redirect | project/src/components/modern/ModernApp.tsx:74-88 | once loading is over, an approved user on sign-in is sent to the dashboard; in every other case the page stays |

## Left out

- The bodies of the database functions `approve_user` and `complete_quiz` are not part of this model. Approval is modelled only as the table the call leaves behind, supplied as a parameter. The quiz screen's completion call is modelled only as its success flag.
- Supabase queries, inserts, upserts and `auth.*` calls, and the client setup: each call's outcome is a parameter, and tables are maps. The JOIN columns some fetches add (user names beside a request) are not modelled.
- The realtime subscription of the notification hook and all async interleavings: only the insert handler's effect is modelled, by `Notifications.Hook.Prepend`.
- Timers: `setInterval` is one `Tick` per second. The delays of `setTimeout` are left out: the three-second return after a quiz (`ModernApp.App.QuizTimerFired` is the timer firing), the two-second reset of the settings page's "saved" notice, and the reset of the "copied" indicator.
- Validators.Age: the birth date is read as the calendar date it names. `new Date("YYYY-MM-DD")` parses it as midnight UTC while `getFullYear`, `getMonth` and `getDate` read local time, so west of UTC the code sees the day before; that shift is not modelled.
- The time stamps of the console queries: rows with equal `created_at` or `requested_at` may come in any order, which the model allows.
- Common.Digits: its own ensures give the shape of the result only; that every digit is kept, in order, is stated by Common.DigitsKept, outside the function, because the concrete phone examples unfold the function and a multiset clause in its contract makes them too costly.
- Withdrawal.RemoveSpaces: likewise, its own ensures give the shape only; Withdrawal.RemoveSpacesKept states that every other character is kept, in order.
- Common.ReplaceFirst: its own ensures give the length only; Common.ReplaceFirstRemovesFirst states that the first occurrence is the one removed.
- Withdrawal.Submit and Withdrawal.InitialForm: the details are only handed to `updateUser` (project/src/components/withdrawal/WithdrawalPage.tsx:124-131). Its mapping to table columns (project/src/contexts/AuthContext.tsx:334-347) has no entry for `withdrawalDetails`, so the `users` row gets an empty update and only the in-memory user receives the details (line 356); a reload loses them. The useAuth `User` (project/src/contexts/AuthContext.tsx:5-26, built at lines 95-115) has no `withdrawalDetails`, so on a fresh load `InitialForm` is reached with `details == None`; the model states both functions for any details the user object may carry.
- QuizPage.Guard, QuizPage.Credit, QuizPage.QuizSession.SubmitQuiz, QuizProgress.StatusOf, QuizProgress.ProgressPercentage and Referral.CardFor run on `Records.Account`, the `User` of project/src/types/index.ts, which carries `completedQuizzes` and `referredUsers`. The legacy screens take their user from `useAuth`, whose `User` (project/src/contexts/AuthContext.tsx:5-26) has neither field, so as written `user.completedQuizzes.includes` and `user.referredUsers.length` throw for a signed-in user; those screens are also not routed (project/src/App.tsx:11-14). The model describes the screens on a user that carries the two fields, which the context never supplies.
- Dashboard.AppointmentButtonShown: the fetched `appointment_enabled` value is `JSON.parse`d and tested for truthiness; the model abstracts it to a boolean (`None` when absent), so a stored number or non-empty string that would be truthy is not modelled.
- Dashboard.ListedQuizzes: `.order('unlock_day')` leaves rows with the same day in no promised order, and the model promises none either.
- `Date.now`, `Date.setDate` and `toLocaleDateString`: instants are integer inputs and dates are `(year, month, day)` values; locale formatting is not modelled.
- Floating point, `parseFloat` and `toFixed`: amounts are cents or exact reals, and a parsed number is an input (`None` for NaN).
- `Math.random`: the random draws of the referral-code generator are an input sequence.
- The camera, canvas, image compression, file reading, the clipboard, `window.open` links (WhatsApp support, mail, app stores) and `navigator.userAgent`.
- `JSON.parse` and `JSON.stringify`: the parse result of a stored setting is an input, and the JSON text of an upsert is not built.
- The regex engine: each pattern is written as explicit character predicates. Case mapping covers ASCII only, and string lengths count characters, not UTF-16 code units.
- ISO 7064 MOD 97-10 check digits: the code does not verify them, so the IBAN check here is the shape check alone.
- ModernApp.Render: the `default` branch of `renderPage` (project/src/components/modern/ModernApp.tsx:175-182) cannot be reached with the closed `Page` type, so it is not modelled.
- `deleteQuiz` and `deleteQuestion` of the quiz editor: confirm-gated removals followed by a reload; not modelled.
- The listing fetches of the quiz editor (`fetchQuizzes`, `fetchQuestions`): plain reads, not modelled.
- AddAdminModal and the remove action of the admin list: they only raise alerts. Only the visibility of the remove button is modelled.
- `fetchStats` of the settings page, which only counts rows for display cards.
- The mock appointments fixture and the presentation-only pages (landing page, mission detail, modern referral page, headers).
- `|| 0` applied to a missing `total_balance`: rows always carry a number here.
- AdminSettings.TotalQuizEarnings: requires the quiz reward to be a number; the page would render whatever a non-numeric stored value gives.
- AdminSettings.MaximumBaseEarnings: requires the quiz reward and the welcome bonus to be numbers, for the same reason.
- Notifications.Hook.MarkAsRead: `markAsRead` does not check for a signed-in user, unlike the other handlers of the hook, and the model does what the code does.
- `register` throws on failure and never returns false. The modern wizard's `false` branch is still modelled, as `Returned(false)` in ModernRegistration.Wizard.Continue.
- The modern wizard checks only that fields are non-empty on its first step and does not count phone digits on its fourth. The model does what the code does; ModernRegistration.BlankNamesProceed and ModernRegistration.ShortNumberProceeds show the difference from the legacy steps.

## Findings

| source | as written | input that shows it | evidently intended | confidence | as-written member | corrected member |
|---|---|---|---|---|---|---|
| project/src/components/modern/ModernDashboard.tsx:536 | a quiz card reports the quiz's row id to `onMissionClick`, while the quiz screen reads the mission as "J" followed by the unlock day (project/src/components/modern/ModernQuiz.tsx:62) | a quiz row with id "3f2a" and unlock day 1, clicked on the day of registration: the quiz screen parses day 3 and opens another quiz | the card reports "J" plus the quiz's unlock day, which the quiz screen parses back to that day | not executed | Dashboard.CardClickAsWritten (Dashboard.CardClickAsWrittenOpensOtherDay) | Dashboard.CardClick |
| project/src/components/quiz/QuizPage.tsx:45-59 | the countdown's effect depends on `[showResults]` only, so the interval set up on the first render calls that render's `handleSubmitQuiz`, which scores the first render's empty `selectedAnswers` | a one-question quiz answered correctly and left to time out: it is failed and not credited, while the results screen, which recomputes from the live sheet, shows it as passed | the timed-out quiz is scored on the sheet as it stands, credited on a pass, with the verdict the results screen shows | not executed | QuizPage.QuizSession.TimeoutSubmitAsWritten (QuizPage.TimeoutIgnoresAnsweredSheet) | QuizPage.QuizSession.SubmitQuiz |
| project/src/components/modern/ModernQuiz.tsx:43-57 | the countdown's effect depends on `[showResults, quiz]`; the quiz row is set (line 73) before the questions are fetched, so the interval calls the `handleSubmit` of the render with no questions and an empty sheet | any quiz left to time out, even with every question answered correctly: `complete_quiz` is asked for 0 out of 0 and `onComplete` receives a fail with `NaN`, while the results screen shows the live verdict | the timed-out quiz is scored on its questions and the sheet as they stand | not executed | ModernQuiz.QuizRun.TimeoutSubmitAsWritten (ModernQuiz.TimeoutIgnoresAnsweredSheet) | ModernQuiz.QuizRun.Submit |
