# Receipt processor core, modelled in Dafny

The service scores a receipt by a fixed set of rules. It files the score in an
in-memory store under a fresh id and serves the score back by id. This project
models three parts of it:

- **The scoring rules** (`Calculator`, `calculator.dfy`).
  - The seven rules of `points.go` and their sum, as exact integer arithmetic over amounts in cents.
  - The two counting loops stay loops: `RetailerNamePoints` and `TrimmedDescriptionPoints`.
  - Each loop is proved against a specification function (`AlnumCount`, `DescriptionPoints`).
  - Lemmas prove the properties of those functions, plus the rule and whole-receipt examples of the calculator's tests.
- **The score store** (`Memory`, `memory.dfy`). The class `Memory.Engine` holds:
  - the `storage` map;
  - the operation timeout;
  - the id source.

  `Save` and `Get` take the caller's context, the current time and the outcome of the races against that context as explicit inputs. The outcome is an `Interruption`: either no race was lost, or the context won at the submission, payload or result hand-off at a given time. `Admissible` limits the outcomes to those the Go runtime can produce. The owner's halves (`ServeSave`, `ServeGet`) are methods that the caller's halves call.
- **The save command** (`Commands.Handle`, `commands.dfy`). It scores, then saves, and stops at the first error.

`domain.dfy` holds the shared values: the receipt, the score, the error values, `Option` and `Result`.

## Model

| member | source | states |
|---|---|---|
| Calculator.IsLetterOrNumber | internal/app/receipt/calculator/points.go:69 | the letter-or-digit test: exact for code points below 256, false above |
| Calculator.AlnumCount | internal/app/receipt/calculator/points.go:66-75 | the number of letters and digits in a name is at most its length |
| Calculator.AlnumCountAppend | internal/app/receipt/calculator/points.go:68-72 | the count over a concatenation is the sum of the counts |
| Calculator.AlnumCountIsLength | internal/app/receipt/calculator/points.go:68-72 | every character scores exactly when the count equals the length |
| Calculator.AlnumCountIsZero | internal/app/receipt/calculator/points.go:68-72 | no character scores exactly when the count is zero |
| Calculator.RetailerNamePoints | internal/app/receipt/calculator/points.go:66-75 | the loop's total is the number of letter and digit characters in the name |
| Calculator.TargetNameExample | internal/app/receipt/calculator/points_test.go:18-22 | "Target" scores 6 |
| Calculator.CornerMarketNameExample | internal/app/receipt/calculator/points_test.go:23-27 | "M&M Corner Market" scores 14 |
| Calculator.RoundDollarPoints | internal/app/receipt/calculator/points.go:77-85 | 50 exactly when the total has no cents, 0 otherwise |
| Calculator.MultipleOf25CentsPoints | internal/app/receipt/calculator/points.go:87-94 | 25 exactly when the total is a multiple of 25 cents, 0 otherwise |
| Calculator.ItemsPoints | internal/app/receipt/calculator/points.go:96-98 | a non-negative multiple of 5 that grants 5 per complete pair of items |
| Calculator.ItemsPointsPair | internal/app/receipt/calculator/points.go:96-98 | two more items add exactly 5 points |
| Calculator.RuleExamples | internal/app/receipt/calculator/points_test.go:42-255 | the tests' values for the round-dollar, quarter, item-count, odd-day and afternoon rules |
| Calculator.Utf8Width | internal/app/receipt/calculator/points.go:105 | a character's UTF-8 width is 1 to 4 bytes, and 1 exactly for ASCII |
| Calculator.Utf8Length | internal/app/receipt/calculator/points.go:105 | the byte length lies between the character count and four times it |
| Calculator.AsciiUtf8Length | internal/app/receipt/calculator/points.go:105 | an ASCII string's byte length is its character count |
| Calculator.IsSpace | internal/app/receipt/calculator/points.go:104 | the white-space characters that strings.TrimSpace removes |
| Calculator.TrimSpace | internal/app/receipt/calculator/points.go:104 | white space removed from both ends; its properties are the lemmas below |
| Calculator.TrimLeftRemovesLeadingSpaces | internal/app/receipt/calculator/points.go:104 | left trimming drops exactly a prefix of white space and leaves a non-space first character |
| Calculator.TrimRightRemovesTrailingSpaces | internal/app/receipt/calculator/points.go:104 | right trimming drops exactly a suffix of white space and leaves a non-space last character |
| Calculator.TrimSpaceIsSlice | internal/app/receipt/calculator/points.go:104 | the trimmed description is a slice of the original, white space lies outside it, and it neither starts nor ends with white space |
| Calculator.TrimSpaceOfPadded | internal/app/receipt/calculator/points.go:104 | trimming white-space padding returns the text between the padding |
| Calculator.TruncDiv | internal/app/receipt/calculator/points.go:114-116 | the integer part of a quotient, rounded toward zero as formatting and cutting at the point does |
| Calculator.PricePoints | internal/app/receipt/calculator/points.go:107-119 | a fifth of the price when that is whole; otherwise the next integer up for positive prices and one above that for negative prices |
| Calculator.PricePointsIsCeiling | internal/app/receipt/calculator/points.go:107-119 | for a non-negative price, the points are the price times 0.2 rounded up |
| Calculator.Selected | internal/app/receipt/calculator/points.go:105-106 | an item is selected when its trimmed description is a multiple of 3 bytes long |
| Calculator.ItemPoints | internal/app/receipt/calculator/points.go:104-120 | an item whose trimmed description is not a multiple of 3 bytes long scores 0; one that is scores its price points |
| Calculator.DescriptionPoints | internal/app/receipt/calculator/points.go:100-125 | the sum of the item points, the specification of the loop; its properties are the lemmas below |
| Calculator.DescriptionPointsAppend | internal/app/receipt/calculator/points.go:100-125 | the description points of a concatenation are the sum of the parts |
| Calculator.SelectedItems | internal/app/receipt/calculator/points.go:106 | the selection keeps exactly the items whose trimmed length is a multiple of 3, each as often as it occurs, and no others |
| Calculator.SelectedItemsAppend | internal/app/receipt/calculator/points.go:103-106 | the selection keeps the items' order: selecting from a concatenation concatenates the selections |
| Calculator.OnlySelectedItemsScore | internal/app/receipt/calculator/points.go:103-122 | dropping unselected items leaves the total unchanged: they contribute 0 |
| Calculator.DescriptionPointsNonNegative | internal/app/receipt/calculator/points.go:100-125 | with non-negative prices the total is non-negative |
| Calculator.TrimmedDescriptionPoints | internal/app/receipt/calculator/points.go:100-125 | the loop's total is the sum of the per-item points |
| Calculator.UnpaddedItemPoints | internal/app/receipt/calculator/points.go:104-119 | an ASCII description without surrounding space is selected by its own length |
| Calculator.KlarbrunnTrimmed | internal/app/receipt/calculator/points_test.go:171 | the padded description trims to 24 bytes |
| Calculator.MountainDewExample | internal/app/receipt/calculator/points_test.go:159-160 | that item scores 0 |
| Calculator.PizzaExample | internal/app/receipt/calculator/points_test.go:162-163 | that item scores 3 |
| Calculator.ChickenExample | internal/app/receipt/calculator/points_test.go:165-166 | that item scores 0 |
| Calculator.DoritosExample | internal/app/receipt/calculator/points_test.go:168-169 | that item scores 0 |
| Calculator.KlarbrunnExample | internal/app/receipt/calculator/points_test.go:171-172 | that item scores 3 |
| Calculator.GatoradeExample | internal/app/receipt/calculator/points_test.go:305-318 | an 8-byte description scores 0 at any price |
| Calculator.DescriptionPointsOfFive | internal/app/receipt/calculator/points.go:103-122 | five items score the sum of their item points |
| Calculator.DescriptionExample | internal/app/receipt/calculator/points_test.go:156-178 | the five test items score 6 |
| Calculator.CornerMarketDescriptionExample | internal/app/receipt/calculator/points_test.go:303-320 | the four drinks score 0 |
| Calculator.OddPurchaseDayPoints | internal/app/receipt/calculator/points.go:127-132 | 6 exactly on odd days, 0 exactly on even days |
| Calculator.TimePurchasePoints | internal/app/receipt/calculator/points.go:134-140 | 10 exactly when 14 <= hour <= 16, 0 otherwise |
| Calculator.Score | internal/app/receipt/calculator/points.go:44-64 | an unparsable date is ErrDate before the time is looked at, an unparsable time is ErrTime, and a score is produced exactly when both parse |
| Calculator.Points | internal/app/receipt/calculator/points.go:44-64 | the error paths, and on success the points are the value of `Calculator.Score` |
| Calculator.ScoreBounds | internal/app/receipt/calculator/points.go:55-61 | with non-negative prices the score is non-negative and at most the name's length, plus the largest values of the round-dollar, quarter, odd-day and afternoon rules, plus the item-count and description rules' own values |
| Calculator.TargetScoreOfParts | internal/app/receipt/calculator/points_test.go:265-296 | the Target receipt's rule values add up to 28 |
| Calculator.TargetScoreExample | internal/app/receipt/calculator/points_test.go:265-296 | the Target receipt scores 28 |
| Calculator.CornerMarketScoreOfParts | internal/app/receipt/calculator/points_test.go:298-325 | the corner market receipt's rule values add up to 109 |
| Calculator.CornerMarketScoreExample | internal/app/receipt/calculator/points_test.go:298-325 | the corner market receipt scores 109 |
| Memory.Done | internal/interfaceadapters/storage/memory/memory.go:166 | a context is done once its deadline or its cancellation time has been reached |
| Memory.CtxErr | internal/interfaceadapters/storage/memory/memory.go:167 | an error exactly once the context is done; Canceled exactly when the cancellation came strictly before any deadline, otherwise DeadlineExceeded |
| Memory.ErrIsStable | internal/interfaceadapters/storage/memory/memory.go:165-173 | a done context stays done with the same error |
| Memory.WithDefaultTimeout | internal/interfaceadapters/storage/memory/memory.go:145-149 | every operation runs with a deadline; an existing deadline is kept unchanged; a missing one makes the context done exactly when the caller's is or opTimeOut has passed |
| Memory.BoundedWait | internal/interfaceadapters/storage/memory/memory.go:145-149 | no operation's context outlives the caller's deadline, or opTimeOut when there is none |
| Memory.DefaultTimeoutReportsDeadline | internal/interfaceadapters/storage/memory/memory.go:183-187 | a plain background context ends only at the default timeout, with DeadlineExceeded |
| Memory.Admissible | internal/interfaceadapters/storage/memory/memory.go:165-175 | the race outcomes the runtime can produce: the context wins only once done, and a context done at the start cannot let the payload through |
| Memory.AdmissibleExists | internal/interfaceadapters/storage/memory/memory.go:165-175 | every request admits some race outcome |
| Memory.ExpiredDeadlineFailsEarly | internal/interfaceadapters/storage/memory/memory.go:165-173 | with an expired deadline the payload is never delivered and the error is DeadlineExceeded |
| Memory.Lookup | internal/interfaceadapters/storage/memory/memory.go:118-141 | Nil gives errInvalidID; otherwise a missing id gives ErrNotFound with no data; a present id gives its stored value and no error |
| Memory.LookupNilIgnoresStorage | internal/interfaceadapters/storage/memory/memory.go:118-125 | the answer for Nil does not depend on the map, so no lookup takes place |
| Memory.LookupAfterStore | internal/interfaceadapters/storage/memory/memory.go:127-141 | a stored value is read back, and a store changes no other id's answer |
| Memory.Engine.constructor | internal/interfaceadapters/storage/memory/memory.go:52-63 | a new store is empty and uses the default timeout |
| Memory.Engine.NewId | internal/interfaceadapters/storage/memory/memory.go:151 | a fresh id is non-Nil and not in the map |
| Memory.Engine.ServeSave | internal/interfaceadapters/storage/memory/memory.go:80-97 | without a payload the map is untouched; with one, exactly that key is set and the caller receives the empty acknowledgement |
| Memory.Engine.ServeGet | internal/interfaceadapters/storage/memory/memory.go:99-142 | without a payload no reply is sent; a lost result race yields the zero payload; otherwise the reply is the lookup's answer |
| Memory.Engine.Save | internal/interfaceadapters/storage/memory/memory.go:144-180 | cut before the payload hand-off: Nil id, the context's error, map unchanged; otherwise a fresh non-Nil id, no error, and the map gains exactly that entry |
| Memory.Engine.Get | internal/interfaceadapters/storage/memory/memory.go:182-211 | errTimeOut when cut at submission; the context's error when cut at the payload; (nil, nil) when cut at the result; otherwise the lookup's answer |
| Memory.SaveThenGet | internal/interfaceadapters/storage/memory/memory_test.go:87-102 | an unknown id is not found, and a saved score is read back under the returned non-Nil id |
| Memory.ExpiredThenFresh | internal/interfaceadapters/storage/memory/memory_test.go:56-65 | an expired deadline fails with DeadlineExceeded, and the next live caller's save succeeds |
| Commands.Handle | internal/app/receipt/commands/addreceiptpoints.go:28-40 | a scoring error is returned with the Nil id and nothing stored; a store error is returned with the Nil id; on success the calculator's points are stored under the returned id; the timeout never changes and a scored receipt advances the id source once |

## Left out

- Goroutines, channels, `select` and the `sync.Once` singleton.
  - One request is served at a time.
  - The outcome of the races between the request and its context is a parameter, constrained by `Admissible`.
  - Go's random choice between ready `select` cases is the freedom left in that parameter.
  - The owner's dispatch loop (`start`, memory.go:62-78) and its shutdown on the engine's own context are not modelled. The caller's half of each operation calls the owner's half directly.
- `uuid.New()` is a counter in the engine (`lastId`), not a random draw. The contracts of `Memory.Engine.NewId` and `Memory.Engine.Save` expose the counter: each save advances it by one. `Memory.SaveThenGet` relies on that order to pick an id that was never handed out, where the store's test uses a fresh random id.
- Clocks: the current time is a parameter. A context is a deadline and a cancellation time.
- Floating point.
  - Totals and prices are exact amounts in integer cents, so the round-dollar, quarter and `Price*0.2` rules are exact.
  - Rounding errors of `float32`/`float64` and `Sprintf("%f")` are not modelled.
- Calculator.PricePoints: the branch where `strconv.Atoi` fails adds nothing to the total. With prices in exact cents that branch cannot be reached, so the model has no counterpart for it. A price such as NaN, which `strconv.ParseFloat` accepts at the HTTP layer, would take it.
- Calculator.Points: Go's `int` is 64 bits wide, both in `int(test)` and in the sum of the rules. Dafny's `int` is unbounded, so overflow on enormous prices or names is not modelled.
- Calculator.PricePoints: a negative non-integral price follows the code's cut at the decimal point, giving one more than the rounded-up value. HTTP binding accepts negative prices, so this path is kept.
- `time.Parse`: the date and time arrive already parsed, as a day of the month and an hour. `None` stands for a string the layout rejects.
- Calculator.RetailerNamePoints: `unicode.IsLetter`/`IsNumber` are exact for code points below 256 and are taken as false above, so non-Latin letters score nothing here.
- The HTTP layer, the wiring files, the query delegate (`getpoints.go`) and the store benchmark are not part of this model.
- Calculator.TimePurchasePoints follows the code. It grants 10 points for hours 14 to 16 inclusive. The comment above the rules (points.go:35) says "after 2:00pm and before 4:00pm", so 16:xx scores under the code but not under the comment.
