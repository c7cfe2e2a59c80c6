# Patient risk scoring: a Dafny model

This project models the core of a small TypeScript client. The client fetches
patient records from a paginated API. It scores each record's blood pressure,
temperature and age, and sorts patient identifiers into three lists:

- high-risk patients, whose combined score is at least 4;
- fever patients;
- patients with data-quality issues.

The modules follow the program's structure:

- `Wrappers`: the `Option` type.
- `Numerals`: decimal numerals for naturals and integers.
- `JsParseInt`: JavaScript's `parseInt(s, 10)` as section 19.2.5 of ECMA-262 defines it. It skips leading white space, takes an optional sign, reads the longest run of digits and ignores the rest.
- `Strings`: `String.prototype.split` on a single character, and its inverse `Join`.
- `RiskRules`: the rules for blood pressure, fever and age, and `combineRisks`.
- `BloodPressureExamples`: worked readings, including ones that the lenient `parseInt` accepts.
- `Aggregator`: the classification loop of `main` and its early-return guard.
- `Fetch`: the retry loop of `fetchPatientData`. Request outcomes are supplied as a sequence, and the waits are recorded instead of slept.
- `Pagination`: `navigateApiPages`. Each page's response is what `fetchPatientData` produced for that page: data, or a thrown error.

The model follows what the code does, in particular:

- The diastolic scale is 0, 2, 3 (src/index.ts:152-160). A diastolic reading never scores `elevated`, so "135/95" scores 3.
- A bad-data field counts 0 in the sum, and such a record is still scored (src/index.ts:215-220, 243-264). It can appear in the data-quality list and also in the high-risk and fever lists.
- A blood-pressure reading need not match `digits/digits` (src/index.ts:109-120). `parseInt` accepts any digits after optional white space and sign, followed by any text, and pieces after the second slash are ignored. So "120abc/80" and "120/80/70" both score.
- `fetchPatientData` gives up one attempt early (src/index.ts:54); see "## Findings".

## Model

| member | source | states |
|---|---|---|
| RiskRules.SystolicRisk | src/index.ts:128-147 | Each systolic band maps to one level, both ways: below 120 is normal, 120-129 elevated, 130-139 stage one, 140 and above stage two |
| RiskRules.DiastolicRisk | src/index.ts:149-165 | A diastolic reading is never elevated; below 80 is normal, 80-89 stage one, 90 and above stage two, each band in both directions |
| RiskRules.AssessBloodPressure | src/index.ts:105-126 | A null or non-string reading is bad data. A string is bad data exactly when its split by "/" has fewer than two pieces, the first or second piece is empty, or either of them has no integer prefix; otherwise the score is at most stage two |
| RiskRules.BloodPressureOfReading | src/index.ts:109-125 | Any two integers written around a slash score the larger of their systolic and diastolic levels. Text may follow either numeral when it does not start with a digit, and the text after the systolic numeral holds no slash |
| RiskRules.BloodPressureWithoutSlash | src/index.ts:109-113 | A reading with no slash has no diastolic piece and is bad data |
| RiskRules.BloodPressureWithoutSystolic | src/index.ts:109-113 | A reading that starts with a slash has an empty systolic piece and is bad data |
| RiskRules.BloodPressureWithoutDigits | src/index.ts:115-120 | A reading with no digit in its first piece, the text before the first slash, fails `parseInt` and is bad data |
| RiskRules.BloodPressureWithoutDiastolic | src/index.ts:109-113 | A reading that ends at its only slash has an empty diastolic piece and is bad data |
| RiskRules.BloodPressureWithoutDiastolicDigits | src/index.ts:115-120 | A diastolic piece that starts with a character that is not a digit, white space or a sign fails `parseInt`, so the reading is bad data |
| RiskRules.BloodPressureOfPieces | src/index.ts:109-125 | Two slash-free texts that both parse, joined by a slash, score the larger of the systolic level of the first number and the diastolic level of the second |
| RiskRules.BloodPressureOfLooseNumerals | src/index.ts:109-125 | Leading white space, a "+" sign and leading zeros in front of either number do not change the score of a reading |
| RiskRules.LooseNumeral | src/index.ts:115-116 | A numeral padded with white space, an optional "+" and zeros parses to its value and holds no slash |
| BloodPressureExamples.WorkedReadings | src/index.ts:105-165 | "119/79" is normal, "125/79" elevated, "121/81" stage one, "135/95" and "145/95" stage two, and the malformed "120abc/80" and "120/80/70" are stage one |
| BloodPressureExamples.Reading119Over79 | src/index.ts:128-133 | "119/79" scores normal |
| BloodPressureExamples.Reading125Over79 | src/index.ts:134-136 | "125/79" scores elevated |
| BloodPressureExamples.Reading121Over81 | src/index.ts:155-157 | "121/81" scores stage one through its diastolic value |
| BloodPressureExamples.Reading135Over95 | src/index.ts:158-160 | "135/95" scores stage two through its diastolic value |
| BloodPressureExamples.Reading145Over95 | src/index.ts:140-142 | "145/95" scores stage two |
| BloodPressureExamples.ReadingWithTrailingText | src/index.ts:115-116 | "120abc/80" is accepted: `parseInt` ignores the text after 120 |
| BloodPressureExamples.ReadingWithThirdPiece | src/index.ts:109 | "120/80/70" is accepted: the destructuring ignores the third piece |
| BloodPressureExamples.BloodPressureOfText | src/index.ts:109-125 | A reading whose two pieces are given numerals followed by non-digit text scores the larger level |
| JsParseInt.ParseInt | src/index.ts:115-116 | A number is read exactly when the text, after its leading white space, starts with a digit or with one sign and a digit; the value is that of the digits that follow, negated after "-". A numeric result implies the text contains a digit |
| JsParseInt.ParseSigned | src/index.ts:115-116 | On text without leading white space, a number is read exactly when the text starts with a digit, or with one "+" or "-" and then a digit. The value is that of the leading digits, negated after "-" |
| JsParseInt.TrimStart | src/index.ts:115-116 | Exactly the leading white space is dropped: the dropped prefix is all white space, and what remains does not start with white space |
| JsParseInt.LeadingDigits | src/index.ts:115-116 | The digits read are the longest all-digit prefix of the text |
| JsParseInt.LeadingDigitsOfRun | src/index.ts:115-116 | A run of digits followed by a non-digit reads as exactly that run |
| JsParseInt.ParseIntRoundTrip | src/index.ts:115-116 | Parsing the decimal numeral of any integer, followed by any text that does not continue its digits, gives back that integer |
| JsParseInt.ParseIntSkipsWhiteSpace | src/index.ts:115-116 | White space in front of the text does not change the parsed value |
| JsParseInt.ParseIntOfPaddedDigits | src/index.ts:115-116 | White space and an optional "+" in front of a run of digits leave the run's value unchanged |
| JsParseInt.ParseSignedOfDigits | src/index.ts:115-116 | A run of digits, with or without a "+" in front, reads as its value |
| JsParseInt.ParseIntWithoutWhiteSpace | src/index.ts:115-116 | On text that does not start with white space, `parseInt` is the signed read alone |
| Numerals.NatToDecimal | src/index.ts:56 | The decimal numeral of a natural number is a non-empty run of digits whose value is that number, with no leading zero except for zero itself |
| Numerals.IntToDecimal | src/index.ts:56 | The numeral of an integer is that of its magnitude, with a "-" in front exactly when it is negative |
| Numerals.LeadingZeros | src/index.ts:115-116 | Zeros in front of a run of digits do not change its value |
| JsParseInt.TrimStartSkips | src/index.ts:115-116 | Trimming ignores any leading white space that was added in front |
| Strings.Split | src/index.ts:109 | The pieces contain no separator and join back to the original text; the first piece is a prefix of the text; when there are several pieces, a separator follows the first |
| Strings.SplitJoin | src/index.ts:109 | Splitting the join of separator-free pieces gives back those pieces |
| Strings.SplitWithoutSeparator | src/index.ts:109 | Text without the separator splits into itself alone |
| Strings.SplitAtFirstSeparator | src/index.ts:109 | The first separator ends the first piece; the rest splits independently |
| Strings.SplitExtendsFirstPiece | src/index.ts:109 | Separator-free text put in front extends only the first piece |
| RiskRules.AssessFever | src/index.ts:174-191 | A temperature is bad data exactly when it is not a number. At most 99.5 is no fever and 99.6-100.9 is a low fever. Anything else is a high fever, including the gap between 99.5 and 99.6 |
| RiskRules.FeverGap | src/index.ts:183-190 | 99.55 scores a high fever, while 99.6 and 100.9 score a low fever: the scale is not monotone |
| RiskRules.AssessAgeRisk | src/index.ts:200-213 | An age is bad data exactly when it is not a number. Under 40 scores 0, 40-65 inclusive scores 1, and above 65 scores 2, each band in both directions |
| RiskRules.AgeRiskMonotone | src/index.ts:205-212 | The age score never decreases as the age grows |
| RiskRules.CombineRisks | src/index.ts:215-220 | The sum is at least each numeric level, and is 0 when every assessment is bad data |
| RiskRules.CombineAppend | src/index.ts:215-220 | The sum over a concatenation is the sum of the two sums |
| RiskRules.CombineIgnoresBadData | src/index.ts:217 | A bad-data entry adds nothing, wherever it stands |
| RiskRules.CombineCommutes | src/index.ts:215-220 | The order of the risks does not change the sum |
| RiskRules.CombineThree | src/index.ts:215-220 | Three assessments sum to their numeric levels, bad data counting 0, and the sum is at most 7 |
| Aggregator.Score | src/index.ts:252-256 | A record's score is the sum of its three levels, bad data counting 0, and is at most 7 |
| Aggregator.Classify | src/index.ts:235-272 | Each list is the identifiers of the non-null records that belong in it, in input order, with every repeat after the first dropped; no list has duplicates |
| Aggregator.ClassifyMembership | src/index.ts:235-272 | An identifier is in a list exactly when some non-null record with that identifier belongs in it |
| Aggregator.ClassifyFromIsDedup | src/index.ts:235-272 | The single loop over all three lists builds each list as a separate pass would: the selected identifiers, deduplicated |
| Aggregator.Step | src/index.ts:236-271 | One iteration only extends each list, by at most one identifier: an identifier is listed afterwards exactly when it was listed before or the record belongs in that list. No duplicate is introduced |
| Aggregator.AddIf | src/index.ts:247-249 | The `includes`-then-`push` guard keeps the list as a prefix, adds the identifier only when the condition holds, and never adds a duplicate |
| Aggregator.ClassifyFrom | src/index.ts:235-272 | The loop keeps everything it has already listed, in order, and never introduces a duplicate |
| Aggregator.SelectedIds | src/index.ts:243-271 | An identifier is selected for a list exactly when some record with that identifier belongs in it |
| Aggregator.DedupFrom | src/index.ts:247-249 | The `includes`-then-`push` pattern keeps every element, introduces no duplicates and never reorders what is already listed |
| Aggregator.Dedup | src/index.ts:247-249 | A deduplicated list has the same members as its input and no repeats |
| Aggregator.ClassifyFromAppend | src/index.ts:235-272 | Running the loop over two batches equals running it over the first and carrying its lists into the second |
| Aggregator.StepUnchanged | src/index.ts:243-271 | A record whose identifier is already in every list it belongs to changes no list |
| Aggregator.ClassifyFromAbsorbs | src/index.ts:243-271 | Records already listed wherever they belong leave all lists unchanged |
| Aggregator.ClassifyReplay | src/index.ts:247-271 | Feeding the loop records it has already seen leaves all three lists unchanged |
| Aggregator.BadDataPatientCanBeHighRisk | src/index.ts:243-271 | A record with no blood pressure, a temperature above 100.9 and an age above 65 scores 4 and appears in all three lists |
| Aggregator.BadFeverIsNoFever | src/index.ts:266-271 | A record whose temperature is not a number, and whose identifier no other record shares, is never a fever patient, yet is always a data-quality issue |
| Aggregator.Report | src/index.ts:230-233 | No lists are produced exactly when there are no records or the first entry is null; otherwise the lists are those of the loop |
| Fetch.Message | src/index.ts:55-57 | An exhausted request's message ends with the last error's message; a rethrown error keeps its own message |
| Fetch.Backoff | src/index.ts:65 | Every wait is a whole number of seconds, at least one second |
| Fetch.BackoffDoubles | src/index.ts:65 | The first wait is 2 seconds and each following wait doubles the one before |
| Fetch.RetryFrom | src/index.ts:24-75 | From any attempt on: only the last attempt made may have succeeded, and a success returns its data. Otherwise the loop stops at the give-up attempt or the loop bound and throws the matching error. Each failure is followed by a wait of 2^attempt seconds, except a failure at the give-up attempt; when the loop runs past maxRetries, its last failure is waited on too |
| Fetch.FetchPage | src/index.ts:17-76 | Data is returned exactly when some attempt within the budget succeeds; the budget is maxRetries-1 attempts for maxRetries >= 2. Otherwise the error wraps attempt maxRetries-1's message, or rethrows the raw error (maxRetries = 1), or is the generic error (maxRetries <= 0). The waits are 2, 4, 8... seconds |
| Fetch.FetchPageIntended | src/index.ts:54-58 | When the give-up test is attempt = maxRetries, a failing request makes exactly maxRetries attempts, the number its error claims |
| Fetch.AsWrittenStopsEarly | src/index.ts:54-58 | With maxRetries = 3 and three failures, the code makes two attempts and one wait, yet claims three; the corrected loop makes all three |
| Fetch.SingleRetryRethrows | src/index.ts:51-75 | With maxRetries = 1, one failure is followed by a 2-second wait and the raw error |
| Fetch.NoRetriesNoAttempt | src/index.ts:24 | With maxRetries <= 0, nothing is requested and the generic error is thrown |
| Fetch.EmptyPageIsSuccess | src/index.ts:41-50 | An empty page is returned at once and is not retried |
| Pagination.WalkFrom | src/index.ts:83-94 | From any page on, every page before the stopping page was full. The walk stops at the first page that throws, is empty or is short. Without an error, it returns the records of all requested pages in order |
| Pagination.Navigate | src/index.ts:79-95 | Pages are requested from 1 up to the first page that throws or holds fewer than 20 records. A clean walk returns all records of those pages in order; an error discards what was gathered |
| Pagination.ThreePages | src/index.ts:83-94 | Pages of 20, 20 and 7 records give 47 records from three requests |
| Pagination.FullLastPage | src/index.ts:85-92 | A full last page costs one more request, which returns nothing |
| Pagination.EmptyFirstPage | src/index.ts:84-87 | An empty first page gives an empty result |

## Left out

- The HTTP request is not modelled: the URL, the API key, the headers and `response.ok`. Each attempt is an abstract outcome, data or an error message, because the network cannot be modelled.
- JSON decoding of `data.data` is not modelled; a successful attempt carries the decoded array.
- `setTimeout` is not modelled. The waits are returned as millisecond durations.
- `async`/`await` is not modelled; the functions are synchronous, because no call overlaps another.
- Console output is not modelled. This includes the final printout of the lists and the "Total Patients Processed" count.
- The POST submission of the results is not modelled. It is not part of the modelled core.
- Patient fields that the scoring never reads (name, gender, visit date, diagnosis, medications) are not modelled.
- Loose runtime typing is modelled only as tagged inputs. A number field may be null/undefined, NaN, a boolean or a real; a blood-pressure field may be missing, a non-string or a string. Other run-time types are not modelled.
- Temperatures and ages are exact reals. IEEE-754 rounding and ±Infinity are not modelled; Infinity would score like any value above the top band.
- JsParseInt.ParseInt: gives the exact integer. `parseInt` rounds numerals beyond 2^53 to the nearest double. The rounding preserves order, so no band is changed by it.
- Fetch.FetchPage: requires `maxRetries` to be an integer no larger than the number of supplied outcomes. The environment supplies one outcome per possible attempt; fractional retry counts are not modelled.
- The backoff wait is exact: for huge attempt numbers `Math.pow` overflows to Infinity; this is not modelled.
- A missing `patient_id` is not modelled; an identifier is always a string.
- The page walk takes one response per page; it does not call the fetch model itself. The page size is fixed at 20, as the source fixes it.
- Pagination.Navigate: the walk ends only because every page past the end of the supplied sequence is empty. Against a server that keeps returning full pages, the `while (true)` loop (src/index.ts:83) never ends, and a model over finitely many responses does not show that.

## Findings

| source | as written | input that shows it | evidently intended | confidence | as-written member | corrected member |
|---|---|---|---|---|---|---|
| src/index.ts:54-58 | The loop gives up when `attempt === maxRetries - 1` | maxRetries = 3, every attempt failing: 2 attempts are made, yet the error says "Failed after 3 attempts". With maxRetries = 1 the test never fires: the loop waits 2 s and rethrows the raw error | give up at `attempt === maxRetries`, making exactly maxRetries attempts | not executed | Fetch.AsWrittenStopsEarly | Fetch.FetchPageIntended |
