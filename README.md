# modentca-be core, modelled in Dafny

This project models the self-contained logic of the modentca back end, an
Express and Mongoose service behind a children's tooth-brushing app. There are
five pieces:

- **Check-in window and ledger** (`time_utils.dfy`, `checkin.dfy`):
  - the morning (04:00–13:00) and evening (16:00–22:00) windows of the local day;
  - `checkIn`, which runs the window check and then the duplicate check, and on
    success appends one Checkin record and one +5 PointHistory entry;
  - the point total, clamped to [0, 1800];
  - the two monthly histories.
- **Reward catalogue and redemption** (`reward.dfy`):
  - the catalogue handlers and the `new || old` merge of an update;
  - the redemption checks in their order: stock, availability, points;
  - the redemption history and the two response formatters.
- **Cariogram** (`cariogram.dfy`):
  - the deft band classification with its gaps;
  - the history record appended per check;
  - the filter built for the history query.
- **Firebase error table** (`firebase_errors.dfy`): the total map from an
  authentication error code to a message and an HTTP status.
- **Check-in validators** (`checkin_validation.dfy`):
  - the joi schemas for the check-in body, the admin check-in body, the report
    parameters and the status and history queries;
  - the middlewares that answer 422 or call `next()`.

`wrappers.dfy` holds the `Option` type.

How the model treats time and state:

- **Time.** The clock is read in one fixed time zone. An instant is a local
  calendar date plus the milliseconds since local midnight
  (`TimeUtils.LocalTime`). `TimeUtils.Rank` orders instants as the clock does.
  "Now" is always a parameter.
- **Collections.** Records are unbounded integers, sequences and maps.
  Collections the handlers append to are fields of the classes
  `Checkins.CheckinLedger`, `Rewards.RewardStore` and `Cariogram.CariogramLog`,
  updated by methods.
- **Concurrency.** Requests run one at a time.

Three behaviours of the code worth stating directly:

- the evening window ends at 22:00 (src/utils/timeUtils.js:38-57);
- both monthly histories sort ascending (src/controllers/checkinController.js:87-93, 133-139);
- an empty month answers 200 with `[]` (src/controllers/checkinController.js:107-110, 173-176).

## Model

| member | source | states |
|---|---|---|
| TimeUtils.ParseCheckinType | src/utils/timeUtils.js:17-38 | 'morning' and 'evening' are the only type strings that name a window |
| TimeUtils.WindowOn | src/utils/timeUtils.js:17-57 | a window lies on the local date of "now" and starts before it ends |
| TimeUtils.CheckInTime | src/utils/timeUtils.js:16-58 | morning is 04:00:00.000–13:00:00.000 and evening is 16:00:00.000–22:00:00.000 on the date of "now"; any other type yields nothing (undefined) |
| TimeUtils.CheckInTimeIgnoresTimeOfDay | src/utils/timeUtils.js:18-51 | the bounds depend only on the date of "now", never on its time of day |
| TimeUtils.WindowsAreOrdered | src/utils/timeUtils.js:17-57 | each window starts before it ends, and morning ends before evening starts |
| TimeUtils.InMonthQueryMeans | src/controllers/checkinController.js:83-92 | the `$gte startOf('month')`, `$lt endOf('month')` query admits exactly the instants of the current month except its last millisecond |
| Checkins.IsCheckinTimeAvailable | src/controllers/checkinController.js:273-277 | "now" is available iff it lies in the window of the type, both ends included |
| Checkins.ExistQueryMeans | src/controllers/checkinController.js:254-265 | the duplicate query matches a record iff it has the same user and type, the same date, and a time at or after the start and strictly before the end |
| Checkins.IsExistCheckin | src/controllers/checkinController.js:254-265 | true iff some stored record of that user and type lies in today's window with its end left out |
| Checkins.Decide | src/controllers/checkinController.js:12-70 | 500 iff the type is not morning/evening; otherwise 422 CHECKIN_TIME_NOT_AVAILABLE iff outside the window, 422 ALREADY_CHECKED_IN iff inside and a duplicate exists, else 201 with the record `{ userId, now, type }` |
| Checkins.CreditFor | src/controllers/checkinController.js:40-48 | the point entry of a check-in is +5, type 'in', for that user, with a snapshot of the record's time and type |
| Checkins.CheckInKeepsUnique | src/controllers/checkinController.js:26-38 | an admitted check-in keeps at most one record per user, type and window (end excluded) |
| Checkins.SecondCheckInRefused | src/controllers/checkinController.js:26-33 | after a check-in before the window's end, any later check-in of the same type that day is refused as ALREADY_CHECKED_IN |
| Checkins.CheckInAtWindowEndRepeats | src/controllers/checkinController.js:254-277 | a check-in at exactly the window's end is accepted but not seen by the duplicate query, so a second one at that instant is accepted too |
| Checkins.DoubleMorningCheckInAtOnePm | src/controllers/checkinController.js:254-277 | concretely: two morning check-ins at 13:00:00.000 are both created |
| Checkins.EntriesOf | src/controllers/checkinController.js:217-222 | the `$match` stage keeps exactly that user's entries |
| Checkins.PipelineIsFold | src/controllers/checkinController.js:215-229 | the `$match`/`$group $sum` pipeline equals a one-pass fold of that user's points |
| Checkins.GetTotalPoint | src/controllers/checkinController.js:215-245 | the total is in [0, 1800]: 0 with no entries or a negative sum, 1800 above it, otherwise the user's exact sum |
| Checkins.CheckInCreditsFive | src/controllers/checkinController.js:40-48 | a check-in raises its user's total by exactly 5 (within the clamp) and leaves every other user's total unchanged |
| Checkins.SortBy | src/controllers/checkinController.js:87-93 | `.sort(... 'asc')` gives a permutation of its input sorted ascending by the key |
| Checkins.CheckinsInMonth | src/controllers/checkinController.js:87-93 | the `find` keeps exactly the user's records inside the month query |
| Checkins.CheckInHistory | src/controllers/checkinController.js:79-118 | the history is sorted ascending by `checkinAt`, is a permutation of the matching records, and holds exactly them |
| Checkins.CheckInHistoryMeans | src/controllers/checkinController.js:83-93 | a record is in the history iff it is the user's and dated in the current month, save its last millisecond |
| Checkins.EntriesInMonth | src/controllers/checkinController.js:133-139 | the `find` keeps exactly the user's entries created inside the month query |
| Checkins.CheckInPointHistory | src/controllers/checkinController.js:127-178 | the point history is sorted ascending by `createdAt`, is a permutation of the matching entries, and holds exactly them |
| Checkins.CheckinLedger.CheckIn | src/controllers/checkinController.js:12-70 | the outcome is `Decide` on the stored records; on 201 one record and then its +5 entry are appended, otherwise nothing changes; uniqueness per window is kept |
| Checkins.CheckinLedger.TotalPoint | src/controllers/checkinController.js:188-207 | `checkInStatistic` reports the stored entries' total in [0, 1800]: 0 with no entries or a negative sum, 1800 above it, otherwise the exact sum |
| Rewards.FormatResponse | src/controllers/rewardController.js:272-281 | the view copies every field of the reward except `photo`, with the given id |
| Rewards.FormatResponseHidesOnlyPhoto | src/controllers/rewardController.js:272-281 | two rewards look the same through the formatter iff they differ at most in `photo` |
| Rewards.FormatRedemptionHistory | src/controllers/rewardController.js:283-307 | the view keeps id and createdAt; its reward is null iff the populated reward is missing, else `{ id, name, description }` |
| Rewards.GetReward | src/controllers/rewardController.js:13-39 | 404 iff the catalogue is empty; otherwise every reward, formatted, under its own id |
| Rewards.RedemptionsOf | src/controllers/rewardController.js:242-245 | the `find({ user })` keeps exactly that user's redemptions |
| Rewards.Populate | src/controllers/rewardController.js:246 | the populated reward is present iff it still exists, and is then that reward |
| Rewards.RedemptionHistory | src/controllers/rewardController.js:240-270 | 404 iff the user has no redemption; otherwise one view per redemption, in log order, with the reward's id, name and description or null if it was deleted |
| Rewards.Merge | src/controllers/rewardController.js:94-102 | an update keeps `photo` and `createdAt` and refreshes `updatedAt` |
| Rewards.MergeOverwritesOnlyTruthy | src/controllers/rewardController.js:96-100 | each field takes the request's value iff that value is truthy (non-empty string, non-zero number, `true`) |
| Rewards.FalsyNeverOverwrites | src/controllers/rewardController.js:96-100 | an update of empty strings, zeros and `false`, or of nothing, changes only `updatedAt` |
| Rewards.MergeCannotWithdraw | src/controllers/rewardController.js:98-100 | no typed update (numbers as numbers, booleans as booleans) can make an available reward unavailable or set a non-zero stock to 0 |
| Rewards.RedeemDecision | src/controllers/rewardController.js:181-217 | 404 iff no reward; 400 OUT_OF_STOCK iff stock is 0; 400 REWARD_NOT_AVAILABLE iff stocked but unavailable; 400 INSUFFICIENT_POINT iff the balance is below the price; otherwise redeemed |
| Rewards.OnlyZeroStockRefused | src/controllers/rewardController.js:195-217 | only a stock of exactly 0 is refused (a negative stock passes), and a balance equal to the price suffices |
| Rewards.RedeemAsWritten | src/controllers/rewardController.js:181-193 | as written: 404 iff the id is missing, otherwise 500, because the imported `getTotalPoint` is undefined |
| Rewards.RedeemAsWrittenNeverRedeems | src/controllers/rewardController.js:2-193 | as written, no redemption ever succeeds, even for a reward the intended checks accept |
| Rewards.RewardStore.StoreReward | src/controllers/rewardController.js:48-73 | 500 iff the name or the description is empty; otherwise a reward with a fresh id and `photo` null is added and returned formatted |
| Rewards.RewardStore.ShowReward | src/controllers/rewardController.js:147-171 | 404 iff the id is missing; otherwise exactly `FormatResponse` of that reward under its id |
| Rewards.RewardStore.UpdateReward | src/controllers/rewardController.js:81-111 | 404 iff the id is missing; otherwise that reward alone is replaced by the merge and returned formatted |
| Rewards.RewardStore.DeleteReward | src/controllers/rewardController.js:118-139 | 404 iff the id is missing; afterwards the catalogue is the old one without that id |
| Rewards.RewardStore.RedeemReward | src/controllers/rewardController.js:181-238 | the outcome is `RedeemDecision`; on success the stock drops by one, one deduction of the price and one redemption are recorded, otherwise nothing changes |
| Rewards.RedeemTouchesOnlyThatStock | src/controllers/rewardController.js:219 | a redemption changes only the stock (by −1) and `updatedAt` of that reward, and no other reward |
| Rewards.LastItemRedeemedOnce | src/controllers/rewardController.js:195-219 | with one item left, the first redemption succeeds and the next is refused as out of stock |
| Cariogram.Plus | src/controllers/cariogramController.js:65 | a sum is NaN iff one of its operands is, otherwise the exact sum |
| Cariogram.DeftScaleOf | src/controllers/cariogramController.js:67-79 | a label is given iff the value lies in that label's band, and none iff it lies in a gap between bands |
| Cariogram.BandsDisjoint | src/controllers/cariogramController.js:69-79 | no value lies in two bands |
| Cariogram.IntegersAreLabelled | src/controllers/cariogramController.js:69-79 | every whole number is labelled: 0-1, 2, 3-4, 5-6, 7 and up |
| Cariogram.ClassificationMonotone | src/controllers/cariogramController.js:69-79 | a larger value never gets a lower label |
| Cariogram.Assess | src/controllers/cariogramController.js:61-99 | classified (200) iff all three counts are numbers and their sum is in no gap, with def the sum and its band's label; otherwise 500 |
| Cariogram.WholeCountsClassified | src/controllers/cariogramController.js:65-79 | whole counts always get the label of their sum |
| Cariogram.CariogramLog.CheckCariogram | src/controllers/cariogramController.js:61-99 | on 200 exactly one record `{ userId, def, result }` is appended, otherwise the history is unchanged |
| Cariogram.BuildHistoryFilter | src/controllers/cariogramController.js:13-34 | for every combination of dates, a document matches iff it is the user's and lies within each given bound, both ends included |
| Cariogram.HistoryFilterAsWritten | src/controllers/cariogramController.js:16-34 | as written, a filter exists iff neither date is given, because `createDateTime` is undefined |
| Cariogram.DatedHistoryAsWrittenFails | src/controllers/cariogramController.js:16-34 | as written, a request with a start or end date gets no answer; an empty date string is ignored |
| Cariogram.FindHistory | src/controllers/cariogramController.js:36 | the `find(filter)` keeps exactly the stored records that match |
| CheckinValidation.FirstUnknown | src/validation/checkinValidation.js:12-14 | none iff every key is declared; otherwise an undeclared key of the body |
| CheckinValidation.EnumRule | src/validation/checkinValidation.js:6-10 | passes iff the value is one of the allowed strings; absent gives the required message, any other present value the invalid one |
| CheckinValidation.StringRule | src/validation/checkinValidation.js:23-27 | passes iff the value is a non-empty string; absent or empty gives the required message, a non-string the must-be-string one |
| CheckinValidation.PatternRule | src/validation/checkinValidation.js:53-72 | passes iff the value is a non-empty string the pattern matches; a non-matching string gives the invalid message |
| CheckinValidation.YearPatternMeans | src/validation/checkinValidation.js:55 | `^[0-9]{4}$` accepts exactly four ASCII digits |
| CheckinValidation.MonthPatternMeans | src/validation/checkinValidation.js:66 | the month pattern accepts exactly one or two digits denoting 1 to 12 |
| CheckinValidation.MonthPatternExamples | src/validation/checkinValidation.js:63-72 | '0', '00', '13' and '010' are rejected; '1', '01', '9', '09' and '12' accepted |
| CheckinValidation.ParseFormatDate | src/validation/checkinValidation.js:28 | a calendar date written 'YYYY-MM-DD' parses back to itself |
| CheckinValidation.FormatParseDate | src/validation/checkinValidation.js:28 | a string the strict 'YYYY-MM-DD' parse accepts is exactly how its date is written |
| CheckinValidation.ParseYearMonth | src/validation/checkinValidation.js:88 | an accepted 'YYYY-MM' string has a month from 1 to 12 |
| CheckinValidation.DateRule | src/validation/checkinValidation.js:28-33 | a string passes iff the format parses it, a number iff it is a valid timestamp, anything else fails the date type |
| CheckinValidation.ValidateCheckin | src/validation/checkinValidation.js:4-14 | a missing type gives TYPE_REQUIRED, and TYPE_MUST_BE_STRING is never produced |
| CheckinValidation.ValidateCheckinAccepts | src/validation/checkinValidation.js:4-14 | a body passes iff it is exactly `{ type: 'morning' }` or `{ type: 'evening' }` |
| CheckinValidation.ValidateCheckinErrors | src/validation/checkinValidation.js:6-13 | a present type other than the two gives TYPE_INVALID; a valid type with another key gives UNKNOWN_FIELD_FOUND |
| CheckinValidation.AdminDateRule | src/validation/checkinValidation.js:28-33 | the admin `date` passes iff it is a 'YYYY-MM-DD' calendar date or a valid timestamp |
| CheckinValidation.ValidateAdminCheckin | src/validation/checkinValidation.js:16-34 | type, userId and date are required in that order; a body passes iff all three are valid and no other key is present |
| CheckinValidation.ValidateReport | src/validation/checkinValidation.js:36-76 | the parameters pass iff regionType is one of the four, regionId a non-empty string, year four digits, month 1-12, and no other key is present |
| CheckinValidation.ReportRegionTypeFirst | src/validation/checkinValidation.js:38-47 | a missing or unlisted regionType is reported before anything else |
| CheckinValidation.ValidateStatusQuery | src/validation/checkinValidation.js:78-85 | the query passes iff `date` is absent, a 'YYYY-MM-DD' date or a valid timestamp, and no other key is present |
| CheckinValidation.ValidateHistoryQuery | src/validation/checkinValidation.js:87-94 | the query passes iff `date` is absent, a 'YYYY-MM' month or a valid timestamp, and no other key is present |
| CheckinValidation.Middleware | src/validation/checkinValidation.js:96-106 | the request goes on iff there is no error; otherwise 422 with the first error's message |
| CheckinValidation.CheckInMiddlewareMeans | src/validation/checkinValidation.js:96-106 | the check-in middleware passes on exactly the two well-formed bodies and rejects an empty one with TYPE_REQUIRED |
| FirebaseAuthErrors.CasesAMeans | src/utils/firebaseAuthErrorCodes.js:6-93 | the first run of cases answers exactly its codes, with a listed status and never UNKNOWN_ERROR |
| FirebaseAuthErrors.CasesBMeans | src/utils/firebaseAuthErrorCodes.js:94-181 | the second run answers exactly its codes, likewise |
| FirebaseAuthErrors.CasesCMeans | src/utils/firebaseAuthErrorCodes.js:182-269 | the third run answers exactly its codes, likewise |
| FirebaseAuthErrors.CasesDMeans | src/utils/firebaseAuthErrorCodes.js:270-345 | the fourth run answers exactly its codes, likewise |
| FirebaseAuthErrors.ErrorForMeans | src/utils/firebaseAuthErrorCodes.js:5-350 | every status is in {400, 401, 403, 404, 409, 410, 429, 500, 501, 503}; an unlisted code gives (UNKNOWN_ERROR, 500); a listed code never gives UNKNOWN_ERROR |
| FirebaseAuthErrors.EmailAlreadyInUse | src/utils/firebaseAuthErrorCodes.js:62-65 | 'auth/email-already-in-use' gives (EMAIL_EXISTS, 409) |
| FirebaseAuthErrors.WrongPassword | src/utils/firebaseAuthErrorCodes.js:162-165 | 'auth/wrong-password' gives (INVALID_PASSWORD, 401) |
| FirebaseAuthErrors.UserNotFound | src/utils/firebaseAuthErrorCodes.js:330-333 | 'auth/user-not-found' gives (USER_NOT_FOUND, 404) |
| FirebaseAuthErrors.AppDeleted | src/utils/firebaseAuthErrorCodes.js:250-253 | 'auth/app-deleted' gives 410 |
| FirebaseAuthErrors.NetworkRequestFailed | src/utils/firebaseAuthErrorCodes.js:258-261 | 'auth/network-request-failed' gives 503 |
| FirebaseAuthErrors.OperationNotSupported | src/utils/firebaseAuthErrorCodes.js:278-281 | 'auth/operation-not-supported-in-this-environment' gives 501 |
| FirebaseAuthErrors.QuotaExceeded | src/utils/firebaseAuthErrorCodes.js:294-297 | 'auth/quota-exceeded' gives 429 |

## Left out

- Persistence: Mongoose, ObjectIds, `populate`, `lean` and the JSON shaping of responses (`toObject`, `toISO`) are out of scope. Documents are values and ids are naturals; `Rewards.RewardStore.nextId` stands for id allocation.
- Clock and time zone: the clock is an input, and there is no daylight saving or time-zone conversion. The window check and the schema default of `checkinAt` read the same instant.
- Concurrency: `checkIn` and `redeemReward` read and then write without atomicity. The model runs them one at a time.
- Streaks, settlements and `reduceCheckInPoint` are not defined in the files modelled. A redemption's deduction is kept as a requested `Deduction` record.
- Checkins.CheckInPointHistory: the `if (!checkinPoint)` 404 branch is omitted. `find` always returns an array, so that branch cannot run.
- Checkins.CheckinLedger.TotalPoint: the 500 answer of `checkInStatistic` when the aggregate fails is not modelled, because the store cannot fail.
- Checkins.SortBy: the order among records with equal keys is not specified, and neither is the stability of the database sort.
- Rewards.GetReward: the catalogue is a map, so the response is not ordered.
- Rewards.Merge: request values are taken as already typed (a number, a boolean). The validator does not hand on joi's converted value, so a raw string such as `"0"` or `"false"` reaches the merge. As a non-empty string it is truthy and always overwrites, and Mongoose then casts it to 0 or `false`. That input is not expressible in `RewardPatch`, so `MergeCannotWithdraw` holds only for typed updates.
- Rewards.RewardStore.UpdateReward: a database error during the update gets no response in the source. That path is not modelled.
- Rewards.RewardStore.StoreReward: only the `required` checks of the schema are modelled. Casting non-numeric `point` or `stock` in the request body is not.
- Points, stock and prices are integers. Fractional values are not modelled.
- Cariogram.Assess: `Number(...)` on query strings is not modelled. Its result is an input, and JavaScript's double rounding is replaced by exact reals, so the band gaps stay visible.
- Cariogram.Assess: Infinity is not modelled.
- Cariogram.FindHistory: `getCariogramHistory` answers 404 on an empty result and then falls through to a second response, which Express refuses. The response sequence is not modelled; only the filter and the `find` are.
- CheckinValidation: joi's own type conversion is outside the model. A value is a string, a number or something else, and `@joi/date` parsing is exactly the strict formats.
- CheckinValidation.ValidateCheckin: the contract does not list every message. The exact accept condition and the error cases are in `ValidateCheckinAccepts` and `ValidateCheckinErrors`.
- FirebaseAuthErrors.ErrorForMeans: does not state that the messages of the listed codes are pairwise distinct. Comparing all 85 messages pairwise is out of the verifier's budget.
- Authentication, the other joi schemas, uploads, e-mail and the external proxies are outside the modelled core.

## Findings

| source | as written | input that shows it | evidently intended | confidence | as-written member | corrected member |
|---|---|---|---|---|---|---|
| src/controllers/rewardController.js:193 | `getTotalPoint` and `reduceCheckInPoint` are imported from the check-in controller, which exports neither, so the call at line 193 throws and every found reward answers 500 with nothing written | any existing reward, e.g. stock 5, available, price 10, with a user holding 10 points | check stock, availability and points, then decrement the stock, deduct the points and log the redemption | not executed | Rewards.RedeemAsWrittenNeverRedeems | Rewards.RewardStore.RedeemReward |
| src/controllers/cariogramController.js:20 | `createDateTime` is imported from the time utilities, which do not export it, so any request with a start or end date throws; the empty `catch` sends no response | `startDate=2024-01-01&endDate=2024-01-31` | filter the user's records to the given dates, both ends included | not executed | Cariogram.DatedHistoryAsWrittenFails | Cariogram.BuildHistoryFilter |
