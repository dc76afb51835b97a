# Privacy exposure checker: a Dafny model of its core

The system rates how much personal information (PII) a social-media profile
exposes. A browser extension scans a profile's posts, bio and highlights. Its
detector finds phone numbers, card numbers, e-mail addresses, IBANs, names
and more. A limiter stops the same profile from being scanned more than 400
times an hour. The backend turns the findings into an exposure score: a
profile starts at 100 and loses points per finding. The web front end shows
the scans on an interactive dashboard, on a per-scan details page and on a
history page where scans can be deleted. The backend's `/register` and
`/login` endpoints manage the user accounts.

The model has one module per core source file, plus a module of shared
JavaScript idioms:

| module | file | models |
|---|---|---|
| `ExposureScore` | `score.dfy` | the weights, multipliers and `calculate_score` loop of the backend |
| `PiiDetector` | `pii_detector.dfy` | `trim`, the four validators and the result loop of `detectPII` |
| `RateLimiter` | `rate_limiter.dfy` | the local-storage limiter (class `ScanStore`) and `formatTimeRemaining` |
| `Dashboard` | `dashboard.dfy` | filters, statistics, per-category counts, the family block and the filter buttons (class `DashboardFilters`) |
| `ScanDetails` | `scan_details.dfy` | the grouping of a scan's items into cards, with their colours and totals |
| `ScanHistory` | `scan_history.dfy` | score colour and risk label, statistics, and the delete dialog (class `ScanHistoryPage`) |
| `Accounts` | `accounts.dfy` | the users table with its unique constraints, and `register` and `login` (class `UserStore`) |
| `Common` | `common.dfy` | the scan row shared by the dashboard and the history page, `x \|\| 0` and `x \|\| 1`, `Math.round` of a mean, ASCII lower-casing, the title-cased label, decimal numerals, `filter`, a stable sort |

Loops in the source are methods with loop invariants: `calculate_score`,
`isValidCreditCard`, `detectPII`, `getAllScans`, the dashboard counters, and
the grouping reduce of the details page. Each is proved equal to a
specification function, and the properties are lemmas about that function.
State that the source changes in place is kept in the fields of a class:
the local-storage entry, the dashboard's filter state, the history page's
list and dialog, and the users table.

The score is shown as a mark out of 100, but `calculate_score` neither
rounds it nor keeps it within 0 to 100
(`WebApp/Backend/score_calculation.py:68`). The model follows the code and
uses exact reals: `ExposureScore.EmailThriceInHighlight` and
`ExposureScore.ThreeCreditCardsGoNegative` show a fractional and a negative
result.

## Model

| member | source | states |
|---|---|---|
| ExposureScore.Weight | WebApp/Backend/score_calculation.py:1-29 | the weight of a listed type is its table entry; an unlisted type weighs 0 (the `.get` default); no weight exceeds 40 |
| ExposureScore.SourceMultiplier | WebApp/Backend/score_calculation.py:31-35 | an unknown source multiplies by 1.0; every multiplier lies between 1.0 and 1.5 |
| ExposureScore.OccurrenceMultiplier | WebApp/Backend/score_calculation.py:37-47 | the count multiplier lies between 1.0 and 1.5 for every count |
| ExposureScore.OccurrenceMultiplierMonotone | WebApp/Backend/score_calculation.py:37-47 | a larger count never gets a smaller multiplier |
| ExposureScore.DeductionBounds | WebApp/Backend/score_calculation.py:56-66 | one finding takes between 0 and 90 points, and nothing at all for an unknown type |
| ExposureScore.CalculateScore | WebApp/Backend/score_calculation.py:49-68 | the loop, with its early return on an empty list and its skip of non-positive counts, returns 100 minus the sum of the deductions, unrounded and unclamped |
| ExposureScore.ScoreAtMostHundred | WebApp/Backend/score_calculation.py:50-51 | an empty list scores 100, and no list scores more |
| ExposureScore.OnlyPositiveOccurrencesCount | WebApp/Backend/score_calculation.py:61-63 | findings whose counts are all zero or negative leave the score at 100, whatever their types |
| ExposureScore.ScorePermutationInvariant | WebApp/Backend/score_calculation.py:53-66 | two finding lists that are permutations of each other score the same |
| ExposureScore.AppendNeverRaises | WebApp/Backend/score_calculation.py:53-66 | reporting one more finding never raises the score, and a finding with a non-positive count changes nothing |
| ExposureScore.ScoreLowerBound | WebApp/Backend/score_calculation.py:53-68 | n findings leave at least 100 - 90n: the only lower bound, since nothing clamps the score |
| ExposureScore.TotalDeductionAppend | WebApp/Backend/score_calculation.py:53-66 | the deductions of two lists added one after the other are the sum of their deductions |
| ExposureScore.OneCreditCardInPost | WebApp/Backend/score_calculation.py:1-68 | one card number seen once in a post scores exactly 60 |
| ExposureScore.EmailThriceInHighlight | WebApp/Backend/score_calculation.py:1-68 | an e-mail seen three times in highlights scores 70.75, so the result is not rounded |
| ExposureScore.ThreeCreditCardsGoNegative | WebApp/Backend/score_calculation.py:1-68 | three cards each seen five times in highlights score -170, so the result has no floor at 0 |
| ExposureScore.UnknownTypeAndSource | WebApp/Backend/score_calculation.py:57-59 | an unknown type deducts nothing whatever its count, and an unknown source multiplies by 1 |
| PiiDetector.Trim | CSC_Extension/src/utils/piiDetector.js:139 | the trimmed text neither starts nor ends with JavaScript white space |
| PiiDetector.TrimIsSlice | CSC_Extension/src/utils/piiDetector.js:139 | the trimmed text is a slice of the match, and everything cut off on either side is white space |
| PiiDetector.TrimIdempotent | CSC_Extension/src/utils/piiDetector.js:139 | trimming twice is trimming once |
| PiiDetector.WithoutIgnoresDropped | CSC_Extension/src/utils/piiDetector.js:89 | removing a class of characters gives the same text with or without a removed character inserted anywhere |
| PiiDetector.PhoneDigitsIgnoreNonDigits | CSC_Extension/src/utils/piiDetector.js:89-91 | a space, dash, bracket or any other non-digit inserted anywhere leaves the counted digits unchanged |
| PiiDetector.PhoneWithoutSeparators | CSC_Extension/src/utils/piiDetector.js:88-95 | for text without a slash or a dot, neither the date nor the decimal exclusion applies, and the text is accepted exactly when it has 6 to 15 digits |
| PiiDetector.PhoneOfDigits | CSC_Extension/src/utils/piiDetector.js:88-95 | a string made only of digits is accepted exactly when it has 6 to 15 of them |
| PiiDetector.DateIsNotPhone | CSC_Extension/src/utils/piiDetector.js:93 | a day/month/year date is rejected as a phone number although it has enough digits |
| PiiDetector.IsValidCreditCard | CSC_Extension/src/utils/piiDetector.js:97-118 | the right-to-left loop with its parity flag accepts exactly the numbers with 13 to 19 digits, after removing spaces and hyphens, whose Luhn sum is a multiple of 10 |
| PiiDetector.CardSeparatorsIgnored | CSC_Extension/src/utils/piiDetector.js:99 | a space or hyphen inserted anywhere in a card number does not change the verdict |
| PiiDetector.LuhnDetectsSingleDigitError | CSC_Extension/src/utils/piiDetector.js:102-117 | changing a single digit of a number that passes the Luhn check makes it fail |
| PiiDetector.ValidEmailShape | CSC_Extension/src/utils/piiDetector.js:120-124 | an accepted address has exactly one `@` and ends in at least two ASCII letters |
| PiiDetector.IbanSeparatorsIgnored | CSC_Extension/src/utils/piiDetector.js:126-130 | a space or hyphen inserted anywhere in an IBAN does not change the length verdict |
| PiiDetector.ValidatePII | CSC_Extension/src/utils/piiDetector.js:143-161 | the switch applies the validator of the match's type (phone, card, e-mail, IBAN, the stop-word test for names) and accepts every other type |
| PiiDetector.DetectPII | CSC_Extension/src/utils/piiDetector.js:132-176 | the nested loops return the results of collecting the trimmed matches in pattern order and then in match order |
| PiiDetector.DetectInPattern | CSC_Extension/src/utils/piiDetector.js:138-167 | the inner loop over one pattern's matches extends the collected results by that pattern's matches, and the set of seen values is the set of values in the results |
| PiiDetector.CollectValues | CSC_Extension/src/utils/piiDetector.js:163-166 | the values in the results are exactly the values of the candidates that passed their validator |
| PiiDetector.CollectDistinct | CSC_Extension/src/utils/piiDetector.js:163-166 | no two results share a value |
| PiiDetector.CollectSound | CSC_Extension/src/utils/piiDetector.js:163-166 | every result carries the caller's source and a value that passed its own type's validator |
| PiiDetector.CollectIsFirstValidated | CSC_Extension/src/utils/piiDetector.js:135-169 | the results are the candidates that are the first, in scan order, to validate with their value; a later repeat of a value is dropped even under another type |
| PiiDetector.DetectPIIResults | CSC_Extension/src/utils/piiDetector.js:132-176 | the detector's results differ pairwise in value, and each passed its validator and names the caller's source |
| RateLimiter.Recent | CSC_Extension/src/utils/rateLimiter.js:16 | the kept timestamps are all after the cutoff, and there are no more of them than before |
| RateLimiter.RecentMembers | CSC_Extension/src/utils/rateLimiter.js:16 | a timestamp is kept exactly when it was in the list and is after the cutoff |
| RateLimiter.RecentLater | CSC_Extension/src/utils/rateLimiter.js:12-20 | filtering at a cutoff and then at a later one is filtering at the later one |
| RateLimiter.PruneOnStep | CSC_Extension/src/utils/rateLimiter.js:14-19 | examining one more profile adds it to the pruned map exactly when its recent list is not empty |
| RateLimiter.ScanStore.GetAllScans | CSC_Extension/src/utils/rateLimiter.js:6-25 | the loop over the profiles returns every profile's scans of the last hour and drops empty lists; missing or unparsable data gives the empty map; no list returned is empty |
| RateLimiter.ScanStore.GetScanHistoryForProfile | CSC_Extension/src/utils/rateLimiter.js:27-30 | the profile's pruned history, or none, and every timestamp in it is from the last hour |
| RateLimiter.ScanStore.RecordScan | CSC_Extension/src/utils/rateLimiter.js:32-39 | the stored map becomes the pruned map with `now` appended to the profile's list, without consulting the limit |
| RateLimiter.ScanStore.CanScan | CSC_Extension/src/utils/rateLimiter.js:41-44 | a scan is allowed exactly when the profile has fewer than 400 recent scans |
| RateLimiter.ScanStore.GetRemainingScans | CSC_Extension/src/utils/rateLimiter.js:46-49 | the remaining count is between 0 and 400, positive exactly when a scan is allowed, and adds up to 400 with the recent scans while they do not exceed 400 |
| RateLimiter.ScanStore.GetTimeUntilNextScan | CSC_Extension/src/utils/rateLimiter.js:51-63 | the wait is 0 below the limit, and otherwise the time until the oldest recent scan is an hour old, rounded up to whole minutes and never negative |
| RateLimiter.MinOf | CSC_Extension/src/utils/rateLimiter.js:58 | `Math.min` of a non-empty list is one of its elements and no larger than any of them |
| RateLimiter.CeilDiv | CSC_Extension/src/utils/rateLimiter.js:62 | `Math.ceil` of a quotient is the least whole number of units that covers the amount |
| RateLimiter.NoDataNoHistory | CSC_Extension/src/utils/rateLimiter.js:7-8 | missing data and data that fails to parse both read as an empty history for every profile |
| RateLimiter.AllScansRecent | CSC_Extension/src/utils/rateLimiter.js:12-20 | every list read back is non-empty and holds only timestamps of the last hour |
| RateLimiter.HistoryForMembers | CSC_Extension/src/utils/rateLimiter.js:6-30 | a timestamp is in a profile's history exactly when it was stored for that profile and is newer than an hour |
| RateLimiter.PruneLater | CSC_Extension/src/utils/rateLimiter.js:12-20 | pruning at one time and reading again later gives what reading at the later time gives |
| RateLimiter.PruneIdempotent | CSC_Extension/src/utils/rateLimiter.js:12-20 | reading the history twice at the same time gives the same map |
| RateLimiter.RecordThenHistory | CSC_Extension/src/utils/rateLimiter.js:32-39 | after a scan is recorded, the profile's history has gained exactly `now`, even at the limit |
| RateLimiter.RecordLeavesOthers | CSC_Extension/src/utils/rateLimiter.js:32-39 | recording a scan for one profile leaves every other profile's history as it read before |
| RateLimiter.NoWaitBelowLimit | CSC_Extension/src/utils/rateLimiter.js:51-54 | the wait is never negative, and it is 0 while the profile is below the limit |
| RateLimiter.WaitBounds | CSC_Extension/src/utils/rateLimiter.js:51-63 | at the limit, with recent timestamps none of which lies in the future, the wait is between 1 and 60 minutes |
| RateLimiter.WaitOver | CSC_Extension/src/utils/rateLimiter.js:58-62 | once the oldest recent scan is an hour old the wait is 0 |
| RateLimiter.FormatTimeRemainingRoundTrip | CSC_Extension/src/utils/rateLimiter.js:65-71 | the displayed text determines the wait: it reads back as 0 for any wait that is not positive and as the exact number of minutes otherwise, in each of the "min", "h" and "h min" forms |
| RateLimiter.RoundTripMinutes | CSC_Extension/src/utils/rateLimiter.js:67 | a wait under an hour reads back from its "N min" text |
| RateLimiter.RoundTripHours | CSC_Extension/src/utils/rateLimiter.js:68-70 | a whole number of hours reads back from its "Nh" text |
| RateLimiter.RoundTripHoursMinutes | CSC_Extension/src/utils/rateLimiter.js:68-70 | hours and leftover minutes read back from their "Nh Mmin" text |
| RateLimiter.ParseHoursMinutes | CSC_Extension/src/utils/rateLimiter.js:70 | two digit runs around "h " and before "min" read back as 60 times the hours plus the minutes |
| Dashboard.FilteredPiiDetails | WebApp/Frontend/src/pages/DashboardInteractive.tsx:311-326 | the filtered list is no longer than the full list, and it is the full list when neither filter is set |
| Dashboard.FilteredPiiDetailsMembers | WebApp/Frontend/src/pages/DashboardInteractive.tsx:311-326 | a detail is shown exactly when it is in the list, its lower-cased type equals a set category, and its type's risk level equals a set risk filter |
| Dashboard.FiltersCommute | WebApp/Frontend/src/pages/DashboardInteractive.tsx:311-326 | applying the risk filter before the category filter gives the same list |
| Dashboard.CountByRisk | WebApp/Frontend/src/pages/DashboardInteractive.tsx:358-366 | the counting loop ends with the four counters of the specification tally |
| Dashboard.TallyByBucket | WebApp/Frontend/src/pages/DashboardInteractive.tsx:358-366 | each counter holds the `occurrences \|\| 1` total of exactly the details of its risk level, unknown types counting as low |
| Dashboard.TallySumsToTotal | WebApp/Frontend/src/pages/DashboardInteractive.tsx:358-373 | the four counters add up to the total PII count |
| Dashboard.UnknownTypeCountedLowButNotFiltered | WebApp/Frontend/src/pages/DashboardInteractive.tsx:318-322 | a detail of an unknown type counts as low risk, yet the "low" risk filter does not show it |
| Dashboard.StatsWithoutScans | WebApp/Frontend/src/pages/DashboardInteractive.tsx:329-342 | without scans every statistic is 0 and the risk level is "N/A", whatever the details |
| Dashboard.StatsBuckets | WebApp/Frontend/src/pages/DashboardInteractive.tsx:358-380 | with scans, the risk counters add up to the total PII count, and the critical and low counters are the totals of their own buckets |
| Dashboard.ScoreChange | WebApp/Frontend/src/pages/DashboardInteractive.tsx:352-354 | the change is the latest score minus the one before; it is 0 with one scan and also when the previous score is 0 or missing |
| Dashboard.StatsAverage | WebApp/Frontend/src/pages/DashboardInteractive.tsx:348-356 | scores in [0, 100] give an average in [0, 100] within half a point of the mean on either side, and the risk level is the band of that average |
| Dashboard.RiskBandMonotone | WebApp/Frontend/src/pages/DashboardInteractive.tsx:356 | a higher average never lands in a riskier band |
| Dashboard.CountCategories | WebApp/Frontend/src/pages/DashboardInteractive.tsx:383-388 | the loop builds a dictionary with distinct keys in first-insertion order, and each key's count is the `occurrences \|\| 1` total of exactly the details of that category |
| Dashboard.CountOfBump | WebApp/Frontend/src/pages/DashboardInteractive.tsx:387 | one update adds the detail's count to its own category and leaves every other category's count as it was |
| Dashboard.CategoryCountOf | WebApp/Frontend/src/pages/DashboardInteractive.tsx:383-388 | the count read for any name, 0 when it has no entry, is the total of the details of that category |
| Dashboard.CategoryCountsExact | WebApp/Frontend/src/pages/DashboardInteractive.tsx:383-388 | every entry of the dictionary holds the total of its own category |
| Dashboard.CountStep | WebApp/Frontend/src/pages/DashboardInteractive.tsx:386-387 | one update of the dictionary bumps an existing entry in place, or appends a new entry at the end |
| Dashboard.CategoryNamesDistinct | WebApp/Frontend/src/pages/DashboardInteractive.tsx:383-388 | no category appears twice |
| Dashboard.CategoryNamesExact | WebApp/Frontend/src/pages/DashboardInteractive.tsx:383-388 | the entries name exactly the categories of the details, a missing type counting as "unknown" |
| Dashboard.CategoryCountsSum | WebApp/Frontend/src/pages/DashboardInteractive.tsx:383-388 | the category counts add up to the total PII count |
| Dashboard.PiiCategoriesCorrect | WebApp/Frontend/src/pages/DashboardInteractive.tsx:382-409 | the categories are the dictionary's entries reordered by non-increasing count, and their counts add up to the total PII count |
| Dashboard.UnknownCategoryNotSelectable | WebApp/Frontend/src/pages/DashboardInteractive.tsx:311-326 | a detail without a type is counted under "unknown", but selecting that category does not show it |
| Dashboard.UnknownTypeLabel | WebApp/Frontend/src/pages/DashboardInteractive.tsx:390-397 | every type missing from the configuration is labelled by title-casing its key, so "a_b" is shown as "A B" |
| Dashboard.FamilyAvgScoreMembers | WebApp/Frontend/src/pages/DashboardInteractive.tsx:258-261 | a member without scans does not change the family average, and a family with no scans averages 0 |
| Dashboard.FamilyAvgScoreNoScans | WebApp/Frontend/src/pages/DashboardInteractive.tsx:258-261 | when no member has scans the family average is 0 |
| Dashboard.FamilyAvgScoreBounds | WebApp/Frontend/src/pages/DashboardInteractive.tsx:233-261 | scores in [0, 100] give member and family averages in [0, 100] |
| Dashboard.SortedByScoreCorrect | WebApp/Frontend/src/pages/DashboardInteractive.tsx:263 | the members sorted by score are in ascending order of average and are a permutation of the members |
| Dashboard.LowestScoreMemberCorrect | WebApp/Frontend/src/pages/DashboardInteractive.tsx:263-264 | there is a lowest member exactly when some member has scans; it has scans and no member with scans averages less |
| Dashboard.HighestScoreMemberCorrect | WebApp/Frontend/src/pages/DashboardInteractive.tsx:263-265 | there is a highest member exactly when some member has scans; it has scans and no member with scans averages more |
| Dashboard.FamilyTotalsAppend | WebApp/Frontend/src/pages/DashboardInteractive.tsx:256-257 | the family's scan and PII totals grow member by member by that member's counts |
| Dashboard.Toggle | WebApp/Frontend/src/pages/DashboardInteractive.tsx:427-434 | a click clears the selection exactly when the clicked value was selected |
| Dashboard.ToggleTwice | WebApp/Frontend/src/pages/DashboardInteractive.tsx:427-434 | clicking the same button twice ends with nothing selected, unless it was selected to start with |
| Dashboard.DashboardFilters.HandleCategoryClick | WebApp/Frontend/src/pages/DashboardInteractive.tsx:427-429 | toggles the category, keeping the risk filter and the time period |
| Dashboard.DashboardFilters.HandleRiskFilterClick | WebApp/Frontend/src/pages/DashboardInteractive.tsx:431-434 | toggles the risk filter and clears the category, keeping the time period |
| Dashboard.DashboardFilters.ClearFilters | WebApp/Frontend/src/pages/DashboardInteractive.tsx:440-446 | after clearing, no filter is active |
| ScanDetails.AssetsFallback | WebApp/Frontend/src/pages/ScanDetails.tsx:140-142 | an unknown type gets no icon and the gray background and border; a known type gets an icon and no gray |
| ScanDetails.SameTypesAsRiskLevels | WebApp/Frontend/src/pages/ScanDetails.tsx:7-30 | the card colours cover exactly the types that the dashboard gives risk levels |
| ScanDetails.TonesFollowRiskLevels | WebApp/Frontend/src/pages/ScanDetails.tsx:7-30 | red cards are exactly the critical types, orange and yellow cards are high and medium types, and low-risk types are green |
| ScanDetails.GreenAboveLowRisk | WebApp/Frontend/src/pages/ScanDetails.tsx:7-30 | the colours are coarser than the risk levels: a high-risk and a medium-risk type both get green cards |
| ScanDetails.GroupByType | WebApp/Frontend/src/pages/ScanDetails.tsx:131-138 | the reduce creates one group per type key, in order of first occurrence, holding exactly the items of that key in list order |
| ScanDetails.GroupsPartition | WebApp/Frontend/src/pages/ScanDetails.tsx:131-138 | every item is in the group of its own case-sensitive key and in no other, the keys are distinct, and no group is empty |
| ScanDetails.FirstOccurrencesMembers | WebApp/Frontend/src/pages/ScanDetails.tsx:131-138 | the group keys are exactly the types that occur |
| ScanDetails.FirstOccurrencesDistinct | WebApp/Frontend/src/pages/ScanDetails.tsx:131-138 | no type gets two cards |
| ScanDetails.ItemsOfTypeMembers | WebApp/Frontend/src/pages/ScanDetails.tsx:133-136 | an item is in a group exactly when it is among the items and has that group's key |
| ScanDetails.GroupSizesSum | WebApp/Frontend/src/pages/ScanDetails.tsx:131-155 | the cards' "N found" counts add up to the number of items |
| ScanDetails.TotalAtLeastFound | WebApp/Frontend/src/pages/ScanDetails.tsx:143-155 | with no negative counts, a card's total occurrences are at least its "N found" count |
| ScanDetails.GroupTotalsSum | WebApp/Frontend/src/pages/ScanDetails.tsx:131-143 | the cards' totals add up to the scan's total occurrence count |
| ScanDetails.NewGroupTotal | WebApp/Frontend/src/pages/ScanDetails.tsx:133-143 | the card an item opens holds that item's `occurrences \|\| 1` alone |
| ScanHistory.BandsMonotone | WebApp/Frontend/src/pages/ScanHistory.tsx:43-55 | a higher score never gets a more alarming colour or risk label |
| ScanHistory.ColourAgreesWithRiskLabel | WebApp/Frontend/src/pages/ScanHistory.tsx:43-55 | the score colour and the risk label's colour disagree exactly for scores in [30, 40), which are labelled "High Risk" but coloured red |
| ScanHistory.StatsCorrect | WebApp/Frontend/src/pages/ScanHistory.tsx:69-75 | an empty history gives 0, 0 and no last scan; otherwise the last scan is the newest and the average is the mean rounded to the nearest whole number, in [0, 100] for scores in [0, 100] |
| ScanHistory.WithoutScanMembers | WebApp/Frontend/src/pages/ScanHistory.tsx:93 | deleting keeps exactly the scans with another id |
| ScanHistory.WithoutAbsentScan | WebApp/Frontend/src/pages/ScanHistory.tsx:93 | deleting an id that no scan has leaves the list unchanged |
| ScanHistory.WithoutScanTwice | WebApp/Frontend/src/pages/ScanHistory.tsx:93 | deleting the same id twice is deleting it once |
| ScanHistory.WithoutOneScan | WebApp/Frontend/src/pages/ScanHistory.tsx:93 | with unique ids, deleting an id that is present removes exactly one scan |
| ScanHistory.ScanHistoryPage.OpenDeleteModal | WebApp/Frontend/src/pages/ScanHistory.tsx:78-80 | the dialog opens for the scan, not yet deleting, and the list is kept |
| ScanHistory.ScanHistoryPage.CloseDeleteModal | WebApp/Frontend/src/pages/ScanHistory.tsx:82-84 | every field of the dialog is reset and the list is kept |
| ScanHistory.ScanHistoryPage.ConfirmDelete | WebApp/Frontend/src/pages/ScanHistory.tsx:86-99 | without an id (or with id 0) nothing changes; a successful delete removes the scans with that id and closes the dialog; a failed one keeps the list and leaves the dialog open, no longer deleting |
| Accounts.FindUser | WebApp/Backend/main.py:42 | the lookup finds nothing exactly when no row has the username, and otherwise a row of the table with that username |
| Accounts.UserStore.Register | WebApp/Backend/main.py:40-52 | the handler leaves the table and response that the register specification gives, and keeps ids, usernames and e-mails unique |
| Accounts.UserStore.Login | WebApp/Backend/main.py:54-60 | the handler answers as the login specification does |
| Accounts.RegisterKeepsValid | WebApp/Backend/models.py:5-15 | registration keeps every id below the next id, and ids, usernames and e-mails unique |
| Accounts.RegisterRefusals | WebApp/Backend/main.py:42-46 | a taken username is refused first, whatever the terms flag; then a request without accepted terms; a refusal or a failed commit leaves the table unchanged |
| Accounts.RegisterSuccess | WebApp/Backend/main.py:45-52 | registration succeeds exactly when the username and e-mail are free and the terms are accepted, and then adds exactly one row with the request's fields, the password hash, the role "user" and the next id |
| Accounts.FindUserAppend | WebApp/Backend/main.py:42 | a newly added row with a new username is found by that name, and lookups of other names are unchanged |
| Accounts.LoginRefusal | WebApp/Backend/main.py:54-60 | an unknown username and a wrong password both get the same 401 "Invalid credentials"; a success returns the bearer token for the username, with the user's id |
| Accounts.RegisterThenLogin | WebApp/Backend/main.py:40-60 | a user who has just registered can log in with the same credentials and gets the new id, and logins under other names are unaffected |
| Common.OrOne | WebApp/Frontend/src/pages/DashboardInteractive.tsx:361 | `x \|\| 1` gives 1 for a missing count and for 0, and the count otherwise |
| Common.MeanScore | WebApp/Frontend/src/pages/DashboardInteractive.tsx:348-350 | the rounded mean of no scores is 0; otherwise it is within half a point of the mean of `score \|\| 0` |
| Common.MeanScoreBounds | WebApp/Frontend/src/pages/ScanHistory.tsx:72 | the rounded mean of scores within bounds stays within those bounds |
| Common.TitleLabelAt | WebApp/Frontend/src/pages/ScanDetails.tsx:151 | the label has the key's length: underscores become spaces, the first character of each word is upper-cased, and every other character is kept |
| Common.TitleLabelExamples | WebApp/Frontend/src/pages/DashboardInteractive.tsx:396 | "iban" is labelled "Iban" and "a_b" is labelled "A B" |
| Common.ParseNatToString | CSC_Extension/src/utils/rateLimiter.js:67-70 | the decimal numeral printed for a count reads back as that count |
| Common.ToLowerIdempotent | WebApp/Frontend/src/pages/DashboardInteractive.tsx:315 | lower-casing twice is lower-casing once |
| Common.FilterMembers | WebApp/Frontend/src/pages/ScanHistory.tsx:93 | an element survives `filter` exactly when it is in the list and satisfies the predicate |
| Common.SortByKeyCorrect | WebApp/Frontend/src/pages/DashboardInteractive.tsx:408 | the sort returns its input reordered by non-decreasing key |

## Left out

- The regular-expression table of `detectPII` (`CSC_Extension/src/utils/piiDetector.js:2-85`) and the engine that runs it: the model takes each pattern's matches as input, in table order. The e-mail pattern and the phone's date and decimal exclusions are written out as explicit decompositions of the text.
- The full-name stop-word expression (`piiDetector.js:156-157`): it is the parameter `hasStopWord`, because its word list and its case-insensitive, Unicode-aware word boundaries are regular-expression matters.
- `console.log` in `detectPII`: it has no effect on the result.
- Floating point: the score, its multipliers and every division are exact reals or integers; IEEE rounding of weight × multiplier products is not modelled.
- The backend route that stores scan results, and the score column of `WebApp/Backend/models.py:27`, are not part of this model.
- `JSON.stringify` and `JSON.parse` in the limiter: the stored entry is a value, and `Unparsable` stands for a parse that throws and is caught.
- `Date.now()` is the parameter `now`; `async`, `await` and the fetches of every page are not modelled.
- `String.prototype.toLowerCase` and the regular expression `\b\w` are modelled on ASCII letters only.
- JavaScript objects used as dictionaries: the model keeps insertion order, but `Object.entries` lists integer-like keys first, and the inherited keys of `{}` are not modelled. This matters in the details reduce (an item of type `constructor`) and in the limiter: for a profile named `constructor` or `__proto__`, `allScans[profileUsername]` (`CSC_Extension/src/utils/rateLimiter.js:29`, `:34`) is an inherited object, so `getScanHistoryForProfile` returns it rather than `[]` and `recordScan` throws at `.push` (`:37`) before storing anything. Such a profile is never recorded; for `constructor` the history has length 1, so it is never limited, and for `__proto__` the length is undefined, so `canScan` is always false. By contrast `RateLimiter.HistoryIn` gives `[]` and `RateLimiter.ScanStore.RecordScan` records the scan.
- Dashboard dates: the date parsing, the newest-first sort of `stats`, the time-period filter `filteredScans` (`DashboardInteractive.tsx:301-309`) and `scoreEvolution` are not modelled; `stats` takes the scans already filtered and newest first.
- The dashboard's fetching of the family members' scans and PII (`DashboardInteractive.tsx:221-231`): members arrive with their scans and PII totals.
- Icons and colour classes are modelled only for the details page cards; the dashboard's icons and colours and the family history page are left out.
- The history page's short render with `isDeleting` true: `ConfirmDelete` states only the state after the request settles.
- CORS, the `/data` route and the database session: the users table is a list in insertion order, and `.first()` returns the earliest matching row.
- The race between the username check and the insert of two concurrent registrations; the column lengths; `created_at`; whether a failed commit consumes an id.
- `hash_password`, `verify_password` and `create_access_token` are parameters.
- Accounts.RegisterThenLogin: it assumes a password check that accepts every password against its own hash, which the hashing library promises and the model cannot see.
- Dashboard.StatsBuckets: states the bucket totals for the critical and low counters only; the high and medium counters follow from `Dashboard.TallyByBucket` in the same way.
- Dashboard.FilteredPiiDetails: its own contract states only the length bound and the no-filter case; which details are kept is stated by `Dashboard.FilteredPiiDetailsMembers`.
- Common.SortByKeyCorrect: stability of the sort (equal keys keep their order) is not stated.
